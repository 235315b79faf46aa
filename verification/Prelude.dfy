/** Small definitions shared by every module. */
module Prelude {

  datatype Option<+T> = None | Some(value: T)

  function MinReal(a: real, b: real): real {
    if a <= b then a else b
  }

  function MaxReal(a: real, b: real): real {
    if a <= b then b else a
  }

  /** Every entry of `small` is also an entry of `big`. */
  ghost predicate SubMap<K, V>(small: map<K, V>, big: map<K, V>) {
    forall k :: k in small ==> k in big && small[k] == big[k]
  }

  lemma SubsetSize<T>(small: set<T>, big: set<T>)
    requires small <= big
    ensures |small| <= |big|
    ensures |small| == |big| ==> small == big
  {
    assert big == small + (big - small);
  }

  lemma SingletonIs<T>(s: set<T>, t: T)
    requires t in s && |s| == 1
    ensures s == {t}
  {
    assert |s - {t}| == 0;
  }

  /** `m` is the smallest element of `s`. */
  predicate IsMin(m: real, s: set<real>) {
    m in s && forall x :: x in s ==> m <= x
  }

  lemma {:induction false} MinExists(s: set<real>, x: real)
    requires x in s
    ensures exists m :: IsMin(m, s)
    decreases s
  {
    var rest := s - {x};
    assert forall y :: y in s ==> y == x || y in rest;
    if y :| y in rest {
      MinExists(rest, y);
      var m :| IsMin(m, rest);
      assert IsMin(MinReal(x, m), s);
    } else {
      assert IsMin(x, s);
    }
  }

  function MinOf(s: set<real>): (m: real)
    requires exists x :: x in s
    ensures IsMin(m, s)
  {
    assert exists m :: IsMin(m, s) by {
      var x :| x in s;
      MinExists(s, x);
    }
    var m :| m in s && IsMin(m, s);
    m
  }

  lemma MinIs(s: set<real>, m: real)
    requires IsMin(m, s)
    ensures m == MinOf(s)
  {
  }
}
