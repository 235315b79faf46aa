/** The TOTP lockout of `ratelimit.py` against the full history of attempts, and the guess
    bounds it gives handlers that ask, check the code, then record. */
module TotpLockouts {
  import opened Prelude
  import opened TokenTypes
  import Totp

  datatype Key = Src(client: ClientId, ip: string) | Whole(client: ClientId)
  datatype Strike = Strike(count: nat, until: real)

  const GC_THRESHOLD := 4096

  function SourceOf(ip: Option<string>): string {
    if ip.None? || ip.value == "" then "-" else ip.value
  }

  function LiveStrike(s: Option<Strike>, now: real): nat {
    if s.Some? && now < s.value.until then s.value.count else 0
  }

  function Lookup<V>(m: map<Key, V>, k: Key): Option<V> {
    if k in m then Some(m[k]) else None
  }

  // --- the history ---------------------------------------------------------------

  /** A wrong code: `asked` is when `locked` was consulted, `known` whether the source was
      exempt from the per-client cap then. Or a right one. */
  datatype Event =
    | Fail(client: ClientId, ip: string, known: bool, asked: real, time: real)
    | Success(client: ClientId, ip: string, time: real)

  predicate Hits(e: Event, key: Key) {
    e.Fail? && (key == Whole(e.client) || key == Src(e.client, e.ip))
  }

  predicate Clears(e: Event, key: Key) {
    e.Success? && key == Src(e.client, e.ip)
  }

  // The counter of `key` after a whole history, nothing ever collected.
  function Entry(hist: seq<Event>, key: Key, lockout: real): Option<Strike> {
    if hist == [] then None
    else
      var e := hist[|hist| - 1];
      var before := Entry(hist[..|hist| - 1], key, lockout);
      if Hits(e, key) then Some(Strike(LiveStrike(before, e.time) + 1, e.time + lockout))
      else if Clears(e, key) then None
      else before
  }

  function Count(hist: seq<Event>, key: Key, lockout: real, now: real): nat {
    LiveStrike(Entry(hist, key, lockout), now)
  }

  datatype Caps = Caps(perSource: nat, perClient: nat, lockout: real)

  // What `locked` answers, from the full history.
  predicate LockedOut(hist: seq<Event>, caps: Caps, client: ClientId, ip: string, known: bool, now: real) {
    || Count(hist, Src(client, ip), caps.lockout, now) >= caps.perSource
    || (!known && Count(hist, Whole(client), caps.lockout, now) >= caps.perClient)
  }

  // Every wrong code was tried by a handler that had asked and was told "not locked".
  ghost predicate Guarded(hist: seq<Event>, caps: Caps) {
    forall i :: 0 <= i < |hist| && hist[i].Fail? ==>
      var e := hist[i];
      e.asked <= e.time && !LockedOut(hist[..i], caps, e.client, e.ip, e.known, e.asked)
  }

  // The source succeeded less than `ttl` seconds before `asked`.
  ghost predicate KnownSource(hist: seq<Event>, client: ClientId, ip: string, asked: real, ttl: real) {
    exists j :: 0 <= j < |hist| && Clears(hist[j], Src(client, ip)) && asked < hist[j].time + ttl
  }

  // A source counted as known good when it tried had earned it.
  ghost predicate Justified(hist: seq<Event>, ttl: real) {
    forall i :: 0 <= i < |hist| && hist[i].Fail? && hist[i].known ==>
      KnownSource(hist[..i], hist[i].client, hist[i].ip, hist[i].asked, ttl)
  }

  // --- guess bounds ----------------------------------------------------------------

  function WrongFromSource(s: seq<Event>, client: ClientId, ip: string): nat {
    if s == [] then 0
    else
      var e := s[|s| - 1];
      WrongFromSource(s[..|s| - 1], client, ip) + if e.Fail? && e.client == client && e.ip == ip then 1 else 0
  }

  function Wrong(s: seq<Event>, client: ClientId): nat {
    if s == [] then 0
    else Wrong(s[..|s| - 1], client) + if s[|s| - 1].Fail? && s[|s| - 1].client == client then 1 else 0
  }

  function WrongFromUnknown(s: seq<Event>, client: ClientId): nat {
    if s == [] then 0
    else
      var e := s[|s| - 1];
      WrongFromUnknown(s[..|s| - 1], client) + if e.Fail? && e.client == client && !e.known then 1 else 0
  }

  // All clock readings of `s` fall in an interval shorter than the lockout.
  ghost predicate Within(s: seq<Event>, from_: real, lockout: real) {
    forall i :: 0 <= i < |s| ==> from_ <= s[i].time < from_ + lockout
  }

  lemma {:induction false} SourceCounted(pre: seq<Event>, s: seq<Event>, caps: Caps, client: ClientId, ip: string,
                                         from_: real)
    requires Within(s, from_, caps.lockout)
    requires forall i :: 0 <= i < |s| ==> !Clears(s[i], Src(client, ip))
    ensures var e := Entry(pre + s, Src(client, ip), caps.lockout);
            WrongFromSource(s, client, ip) > 0 ==>
              e.Some? && e.value.count >= WrongFromSource(s, client, ip) && e.value.until >= from_ + caps.lockout
  {
    if s != [] {
      var n := |s| - 1;
      assert (pre + s)[..|pre + s| - 1] == pre + s[..n];
      SourceCounted(pre, s[..n], caps, client, ip, from_);
    }
  }

  lemma {:induction false} ClientCounted(pre: seq<Event>, s: seq<Event>, caps: Caps, client: ClientId, from_: real)
    requires Within(s, from_, caps.lockout)
    ensures var e := Entry(pre + s, Whole(client), caps.lockout);
            Wrong(s, client) > 0 ==>
              e.Some? && e.value.count >= Wrong(s, client) && e.value.until >= from_ + caps.lockout
  {
    if s != [] {
      var n := |s| - 1;
      assert (pre + s)[..|pre + s| - 1] == pre + s[..n];
      ClientCounted(pre, s[..n], caps, client, from_);
    }
  }

  lemma GuardedAt(pre: seq<Event>, s: seq<Event>, caps: Caps)
    requires Guarded(pre + s, caps) && s != []
    ensures Guarded(pre + s[..|s| - 1], caps)
    ensures var e := s[|s| - 1];
            e.Fail? ==> e.asked <= e.time && !LockedOut(pre + s[..|s| - 1], caps, e.client, e.ip, e.known, e.asked)
  {
    var h, g := pre + s, pre + s[..|s| - 1];
    assert h[..|h| - 1] == g;
    forall i | 0 <= i < |g| && g[i].Fail?
      ensures g[i].asked <= g[i].time && !LockedOut(g[..i], caps, g[i].client, g[i].ip, g[i].known, g[i].asked)
    {
      assert g[..i] == h[..i];
    }
  }

  // Any stretch of events shorter than the lockout holds at most `perSource` wrong codes of
  // one source in which it had no success.
  lemma {:induction false} SourceBound(pre: seq<Event>, s: seq<Event>, caps: Caps, client: ClientId, ip: string,
                                       from_: real)
    requires Guarded(pre + s, caps) && Within(s, from_, caps.lockout)
    requires forall i :: 0 <= i < |s| ==> !Clears(s[i], Src(client, ip))
    ensures WrongFromSource(s, client, ip) <= caps.perSource
  {
    if s != [] {
      var n := |s| - 1;
      GuardedAt(pre, s, caps);
      SourceBound(pre, s[..n], caps, client, ip, from_);
      SourceCounted(pre, s[..n], caps, client, ip, from_);
    }
  }

  lemma {:induction false} UnknownAmongWrong(s: seq<Event>, client: ClientId)
    ensures WrongFromUnknown(s, client) <= Wrong(s, client)
  {
    if s != [] {
      UnknownAmongWrong(s[..|s| - 1], client);
    }
  }

  // ... and at most `perClient` wrong codes from all sources not known good together.
  lemma {:induction false} ClientBound(pre: seq<Event>, s: seq<Event>, caps: Caps, client: ClientId, from_: real)
    requires Guarded(pre + s, caps) && Within(s, from_, caps.lockout)
    ensures WrongFromUnknown(s, client) <= caps.perClient
  {
    if s != [] {
      var n := |s| - 1;
      GuardedAt(pre, s, caps);
      ClientBound(pre, s[..n], caps, client, from_);
      ClientCounted(pre, s[..n], caps, client, from_);
      UnknownAmongWrong(s[..n], client);
    }
  }

  // Wrong codes for `client` in `s`, after `pre`, from sources without a success in the `ttl`
  // seconds before they asked.
  ghost function WrongFromStrangers(pre: seq<Event>, s: seq<Event>, client: ClientId, ttl: real): nat {
    if s == [] then 0
    else
      var n, e := |s| - 1, s[|s| - 1];
      WrongFromStrangers(pre, s[..n], client, ttl)
      + if e.Fail? && e.client == client && !KnownSource(pre + s[..n], client, e.ip, e.asked, ttl) then 1 else 0
  }

  lemma JustifiedAt(pre: seq<Event>, s: seq<Event>, ttl: real)
    requires Justified(pre + s, ttl) && s != []
    ensures Justified(pre + s[..|s| - 1], ttl)
    ensures var e := s[|s| - 1];
            e.Fail? && e.known ==> KnownSource(pre + s[..|s| - 1], e.client, e.ip, e.asked, ttl)
  {
    var h, g := pre + s, pre + s[..|s| - 1];
    assert h[..|h| - 1] == g && h[|h| - 1] == s[|s| - 1];
    forall i | 0 <= i < |g| && g[i].Fail? && g[i].known
      ensures KnownSource(g[..i], g[i].client, g[i].ip, g[i].asked, ttl)
    {
      assert g[..i] == h[..i];
    }
  }

  lemma {:induction false} StrangersUnknown(pre: seq<Event>, s: seq<Event>, client: ClientId, ttl: real)
    requires Justified(pre + s, ttl)
    ensures WrongFromStrangers(pre, s, client, ttl) <= WrongFromUnknown(s, client)
  {
    if s != [] {
      JustifiedAt(pre, s, ttl);
      hide Justified, KnownSource;
      StrangersUnknown(pre, s[..|s| - 1], client, ttl);
    }
  }

  // So, by the history alone: any stretch shorter than the lockout holds at most `perClient`
  // wrong codes, over an owner and all its derived clients, from all the sources together that
  // had no success in the `ttl` seconds before they asked.
  lemma StrangersBound(pre: seq<Event>, s: seq<Event>, caps: Caps, ttl: real, client: ClientId, from_: real)
    requires Guarded(pre + s, caps) && Justified(pre + s, ttl) && Within(s, from_, caps.lockout)
    ensures WrongFromStrangers(pre, s, client, ttl) <= caps.perClient
  {
    ClientBound(pre, s, caps, client, from_);
    StrangersUnknown(pre, s, client, ttl);
  }

  // --- when a source is locked out, by the history ------------------------------------------------

  lemma {:induction false} CountsWrongOnly(hist: seq<Event>, client: ClientId, ip: string, lockout: real, now: real)
    ensures Count(hist, Src(client, ip), lockout, now) <= WrongFromSource(hist, client, ip)
    ensures Count(hist, Whole(client), lockout, now) <= Wrong(hist, client)
  {
    if hist != [] {
      var n, e := |hist| - 1, hist[|hist| - 1];
      CountsWrongOnly(hist[..n], client, ip, lockout, now);
      CountsWrongOnly(hist[..n], client, ip, lockout, e.time);
    }
  }

  // Fewer wrong codes than either cap never lock anyone out.
  lemma NotLockedBelowCaps(hist: seq<Event>, caps: Caps, client: ClientId, ip: string, known: bool, now: real)
    requires WrongFromSource(hist, client, ip) < caps.perSource && Wrong(hist, client) < caps.perClient
    ensures !LockedOut(hist, caps, client, ip, known, now)
  {
    CountsWrongOnly(hist, client, ip, caps.lockout, now);
  }

  // Nor do the wrong codes a source entered before its last success, as far as its own cap goes.
  lemma {:induction false} SuccessClears(pre: seq<Event>, s: seq<Event>, client: ClientId, ip: string, time: real,
                                         lockout: real, now: real)
    ensures Count(pre + [Success(client, ip, time)] + s, Src(client, ip), lockout, now)
         <= WrongFromSource(s, client, ip)
  {
    var h := pre + [Success(client, ip, time)] + s;
    if s == [] {
      assert h == pre + [Success(client, ip, time)];
    } else {
      var n, e := |s| - 1, s[|s| - 1];
      assert h[..|h| - 1] == pre + [Success(client, ip, time)] + s[..n] && h[|h| - 1] == e;
      SuccessClears(pre, s[..n], client, ip, time, lockout, now);
      SuccessClears(pre, s[..n], client, ip, time, lockout, e.time);
    }
  }

  // As many as the cap within one lockout do, until the lockout of the first of them would be over.
  lemma LockedAtCap(pre: seq<Event>, s: seq<Event>, caps: Caps, client: ClientId, ip: string, from_: real, known: bool,
                    now: real)
    requires Within(s, from_, caps.lockout) && now < from_ + caps.lockout
    requires || (0 < caps.perSource <= WrongFromSource(s, client, ip) && forall i :: 0 <= i < |s| ==>
                 !Clears(s[i], Src(client, ip)))
             || (0 < caps.perClient <= Wrong(s, client) && !known)
    ensures LockedOut(pre + s, caps, client, ip, known, now)
  {
    if 0 < caps.perClient <= Wrong(s, client) && !known {
      ClientCounted(pre, s, caps, client, from_);
    } else {
      SourceCounted(pre, s, caps, client, ip, from_);
    }
  }

  lemma {:induction false} Cooled(hist: seq<Event>, key: Key, lockout: real, now: real)
    requires forall i :: 0 <= i < |hist| && Hits(hist[i], key) ==> hist[i].time + lockout <= now
    ensures Count(hist, key, lockout, now) == 0
  {
    if hist != [] {
      Cooled(hist[..|hist| - 1], key, lockout, now);
    }
  }

  // And once a lockout has passed since the last wrong code, nobody is.
  lemma NotLockedAfterCooldown(hist: seq<Event>, caps: Caps, client: ClientId, ip: string, known: bool, now: real)
    requires caps.perSource > 0 && caps.perClient > 0
    requires forall i :: 0 <= i < |hist| && hist[i].Fail? ==> hist[i].time + caps.lockout <= now
    ensures !LockedOut(hist, caps, client, ip, known, now)
  {
    Cooled(hist, Src(client, ip), caps.lockout, now);
    Cooled(hist, Whole(client), caps.lockout, now);
  }

  // --- the object ------------------------------------------------------------------

  // `record_failure`: both counters move forward; over the threshold, expired ones go.
  function AfterFailure(strikes: map<Key, Strike>, client: ClientId, ip: string, lockout: real,
                        now: real): map<Key, Strike>
  {
    var one := strikes[Whole(client) := Strike(LiveStrike(Lookup(strikes, Whole(client)), now) + 1, now + lockout)];
    var two := one[Src(client, ip) := Strike(LiveStrike(Lookup(one, Src(client, ip)), now) + 1, now + lockout)];
    if |two| > GC_THRESHOLD then map k | k in two && !(now >= two[k].until) :: two[k] else two
  }

  // The counters stay bounded: over 4096 of them, only those still running are kept.
  lemma Collected(strikes: map<Key, Strike>, client: ClientId, ip: string, lockout: real, now: real)
    ensures var after := AfterFailure(strikes, client, ip, lockout, now);
            |after| > 4096 ==> forall k :: k in after ==> now < after[k].until
  {
  }

  // `strikes` answers like the full history, from `clock` on.
  ghost predicate Agrees(strikes: map<Key, Strike>, hist: seq<Event>, lockout: real, clock: real) {
    forall key, now :: now >= clock ==> LiveStrike(Lookup(strikes, key), now) == Count(hist, key, lockout, now)
  }

  lemma FailureAgrees(strikes: map<Key, Strike>, hist: seq<Event>, caps: Caps, clock: real, e: Event)
    requires Agrees(strikes, hist, caps.lockout, clock) && e.Fail? && clock <= e.time
    ensures Agrees(AfterFailure(strikes, e.client, e.ip, caps.lockout, e.time), hist + [e], caps.lockout, e.time)
  {
    var h := hist + [e];
    assert h[..|h| - 1] == hist;
    var after := AfterFailure(strikes, e.client, e.ip, caps.lockout, e.time);
    forall key, now | now >= e.time
      ensures LiveStrike(Lookup(after, key), now) == Count(h, key, caps.lockout, now)
    {
      assert LiveStrike(Lookup(strikes, key), e.time) == Count(hist, key, caps.lockout, e.time);
      assert LiveStrike(Lookup(strikes, key), now) == Count(hist, key, caps.lockout, now);
    }
  }

  lemma SuccessAgrees(strikes: map<Key, Strike>, hist: seq<Event>, caps: Caps, clock: real, e: Event)
    requires Agrees(strikes, hist, caps.lockout, clock) && e.Success? && clock <= e.time
    ensures Agrees(strikes - {Src(e.client, e.ip)}, hist + [e], caps.lockout, e.time)
  {
    var h := hist + [e];
    assert h[..|h| - 1] == hist;
    forall key, now | now >= e.time
      ensures LiveStrike(Lookup(strikes - {Src(e.client, e.ip)}, key), now) == Count(h, key, caps.lockout, now)
    {
      assert LiveStrike(Lookup(strikes, key), now) == Count(hist, key, caps.lockout, now);
    }
  }

  function Unexpired(marks: map<Key, real>, now: real): map<Key, real> {
    map k | k in marks && !(now >= marks[k]) :: marks[k]
  }

  // `rest` is `marks` cut down to the threshold by dropping the entries of earliest end.
  ghost predicate Trimmed(marks: map<Key, real>, rest: map<Key, real>) {
    && SubMap(rest, marks)
    && |rest| == (if |marks| > GC_THRESHOLD then GC_THRESHOLD else |marks|)
    && forall k, l :: k in marks && k !in rest && l in rest ==> marks[k] <= marks[l]
  }

  ghost predicate SucceededAt(hist: seq<Event>, client: ClientId, ip: string, time: real) {
    exists i :: 0 <= i < |hist| && hist[i] == Success(client, ip, time)
  }

  // Every mark was set by a success of its source, `ttl` seconds before it ends.
  ghost predicate MarksEarned(marks: map<Key, real>, hist: seq<Event>, ttl: real) {
    forall k :: k in marks ==> k.Src? && SucceededAt(hist, k.client, k.ip, marks[k] - ttl)
  }

  lemma SucceededGrows(hist: seq<Event>, e: Event, client: ClientId, ip: string, time: real)
    requires SucceededAt(hist, client, ip, time) || e == Success(client, ip, time)
    ensures SucceededAt(hist + [e], client, ip, time)
  {
    if e == Success(client, ip, time) {
      assert (hist + [e])[|hist|] == e;
    } else {
      var i :| 0 <= i < |hist| && hist[i] == Success(client, ip, time);
      assert (hist + [e])[i] == hist[i];
    }
  }

  lemma MarksGrow(marks: map<Key, real>, left: map<Key, real>, hist: seq<Event>, e: Event, ttl: real)
    requires MarksEarned(marks, hist, ttl)
    requires forall k :: k in left ==>
               (k in marks && left[k] == marks[k]) || (k.Src? && e == Success(k.client, k.ip, left[k] - ttl))
    ensures MarksEarned(left, hist + [e], ttl)
  {
    hide SucceededAt;
    forall k | k in left ensures k.Src? && SucceededAt(hist + [e], k.client, k.ip, left[k] - ttl) {
      SucceededGrows(hist, e, k.client, k.ip, left[k] - ttl);
    }
  }

  // A running mark was earned less than `ttl` seconds ago.
  lemma MarkIsKnown(marks: map<Key, real>, hist: seq<Event>, ttl: real, client: ClientId, ip: string, asked: real)
    requires MarksEarned(marks, hist, ttl) && Src(client, ip) in marks && asked < marks[Src(client, ip)]
    ensures KnownSource(hist, client, ip, asked, ttl)
  {
  }

  lemma FewerMarks(marks: map<Key, real>, left: map<Key, real>, hist: seq<Event>, ttl: real)
    requires MarksEarned(marks, hist, ttl) && SubMap(left, marks)
    ensures MarksEarned(left, hist, ttl) && |left| <= |marks|
  {
    KeysSubset(left, marks);
  }

  lemma MarksKept(marks: map<Key, real>, hist: seq<Event>, e: Event, ttl: real)
    requires MarksEarned(marks, hist, ttl)
    ensures MarksEarned(marks, hist + [e], ttl)
  {
    MarksGrow(marks, marks, hist, e, ttl);
  }

  lemma JustifiedAppend(hist: seq<Event>, e: Event, ttl: real)
    requires Justified(hist, ttl)
    requires e.Fail? && e.known ==> KnownSource(hist, e.client, e.ip, e.asked, ttl)
    ensures Justified(hist + [e], ttl)
  {
    var h := hist + [e];
    forall i | 0 <= i < |h| && h[i].Fail? && h[i].known
      ensures KnownSource(h[..i], h[i].client, h[i].ip, h[i].asked, ttl)
    {
      assert h[..i] == hist[..i];
      assert i == |hist| ==> h[..i] == hist;
    }
  }

  // `left` is `marks` with a mark for `src` set at `now`; over the threshold, without what has
  // expired, and without the marks of earliest end when that is not enough.
  ghost predicate Marked(marks: map<Key, real>, src: Key, now: real, ttl: real, left: map<Key, real>) {
    var all := marks[src := now + ttl];
    if |all| > GC_THRESHOLD then Trimmed(Unexpired(all, now), left) else left == all
  }

  lemma MarkedFrom(marks: map<Key, real>, src: Key, now: real, ttl: real, left: map<Key, real>)
    requires Marked(marks, src, now, ttl, left)
    ensures forall k :: k in left ==> (k in marks && left[k] == marks[k]) || (k == src && left[k] == now + ttl)
  {
  }

  class TotpLockout {
    const caps: Caps
    const knownGoodTtl: real
    var strikes: map<Key, Strike>
    var knownGood: map<Key, real>
    ghost var hist: seq<Event>
    ghost var clock: real

    ghost predicate Valid() reads this {
      && Agrees(strikes, hist, caps.lockout, clock)
      && Guarded(hist, caps)
      && MarksEarned(knownGood, hist, knownGoodTtl) && Justified(hist, knownGoodTtl)
      && |knownGood| <= GC_THRESHOLD
    }

    constructor (caps: Caps, knownGoodTtl: real, ghost start: real)
      ensures Valid() && this.caps == caps && hist == [] && clock == start && knownGood == map[]
    {
      this.caps, this.knownGoodTtl := caps, knownGoodTtl;
      strikes, knownGood := map[], map[];
      hist, clock := [], start;
    }

    method CountLocked(key: Key, now: real) returns (count: nat)
      modifies this`strikes
      ensures count == LiveStrike(Lookup(old(strikes), key), now)
      ensures strikes == if key in old(strikes) && now >= old(strikes)[key].until then old(strikes) - {key}
          else old(strikes)
    {
      if key !in strikes { return 0; }
      if now >= strikes[key].until {
        strikes := strikes - {key};
        return 0;
      }
      return strikes[key].count;
    }

    method IsKnownGood(key: Key, now: real) returns (known: bool)
      modifies this`knownGood
      ensures known == (key in old(knownGood) && now < old(knownGood)[key])
      ensures knownGood == if key in old(knownGood) && !known then old(knownGood) - {key} else old(knownGood)
    {
      if key !in knownGood { return false; }
      if now >= knownGood[key] {
        knownGood := knownGood - {key};
        return false;
      }
      return true;
    }

    method Locked(client: ClientId, ip: Option<string>, now: real) returns (locked: bool)
      requires Valid() && clock <= now
      modifies this`strikes, this`knownGood, this`clock
      ensures Valid() && clock == now
      ensures locked == Answer(Table(old(strikes), old(knownGood)), caps, client, SourceOf(ip), now)
      ensures var src := Src(client, SourceOf(ip));
              locked == LockedOut(hist, caps, client, SourceOf(ip), src in old(knownGood)
                                  && now < old(knownGood)[src], now)
      ensures SubMap(strikes, old(strikes)) && SubMap(knownGood, old(knownGood))
      ensures forall k :: k in old(knownGood) && now < old(knownGood)[k] ==> k in knownGood
    {
      hide MarksEarned, Justified, Guarded;
      var src := Src(client, SourceOf(ip));
      clock := now;
      var own := CountLocked(src, now);
      if own >= caps.perSource {
        return true;
      }
      ghost var marks := knownGood;
      var known := IsKnownGood(src, now);
      FewerMarks(marks, knownGood, hist, knownGoodTtl);
      if known {
        return false;
      }
      var total := CountLocked(Whole(client), now);
      return total >= caps.perClient;
    }

    method AddStrike(key: Key, now: real)
      modifies this`strikes
      ensures strikes == old(strikes)[key := Strike(LiveStrike(Lookup(old(strikes), key), now) + 1, now + caps.lockout)]
    {
      var count := CountLocked(key, now);
      strikes := strikes[key := Strike(count + 1, now + caps.lockout)];
    }

    // `asked` is when the handler consulted `locked`, `known` what it knew of the source.
    method RecordFailure(client: ClientId, ip: Option<string>, now: real, ghost known: bool, ghost asked: real)
      requires Valid() && clock <= now && asked <= now
      requires !LockedOut(hist, caps, client, SourceOf(ip), known, asked)
      requires known ==> KnownSource(hist, client, SourceOf(ip), asked, knownGoodTtl)
      modifies this`strikes, this`hist, this`clock
      ensures Valid() && clock == now
      ensures hist == old(hist) + [Fail(client, SourceOf(ip), known, asked, now)]
      ensures strikes == AfterFailure(old(strikes), client, SourceOf(ip), caps.lockout, now)
    {
      ghost var e := Fail(client, SourceOf(ip), known, asked, now);
      ghost var was := strikes;
      hide Agrees, Guarded, LockedOut, Entry, MarksEarned, Justified, KnownSource;
      AddStrike(Whole(client), now);
      AddStrike(Src(client, SourceOf(ip)), now);
      if |strikes| > GC_THRESHOLD {
        CollectStrikes(now);
      }
      FailureAgrees(was, hist, caps, clock, e);
      GuardedAppend(hist, e, caps);
      JustifiedAppend(hist, e, knownGoodTtl);
      MarksKept(knownGood, hist, e, knownGoodTtl);
      hist := hist + [e];
      clock := now;
    }

    method CollectStrikes(now: real)
      modifies this`strikes
      ensures strikes == map k | k in old(strikes) && !(now >= old(strikes)[k].until) :: old(strikes)[k]
    {
      var todo := strikes.Keys;
      while todo != {}
        invariant todo <= old(strikes).Keys
        invariant forall k :: k in strikes <==> k in old(strikes) && (k in todo || !(now >= old(strikes)[k].until))
        invariant SubMap(strikes, old(strikes))
      {
        var k :| k in todo;
        if now >= strikes[k].until {
          strikes := strikes - {k};
        }
        todo := todo - {k};
      }
    }

    method CollectKnown(now: real)
      modifies this`knownGood
      ensures knownGood == Unexpired(old(knownGood), now)
    {
      var todo := knownGood.Keys;
      while todo != {}
        invariant todo <= old(knownGood).Keys
        invariant forall k :: k in knownGood <==> k in old(knownGood) && (k in todo || !(now >= old(knownGood)[k]))
        invariant SubMap(knownGood, old(knownGood))
      {
        var k :| k in todo;
        if now >= knownGood[k] {
          knownGood := knownGood - {k};
        }
        todo := todo - {k};
      }
    }

    // The key of earliest end.
    method Earliest() returns (key: Key)
      requires |knownGood| > 0
      ensures key in knownGood && forall k :: k in knownGood ==> knownGood[key] <= knownGood[k]
    {
      var todo := knownGood.Keys;
      assert |knownGood.Keys| == |knownGood|;
      key :| key in knownGood;
      while todo != {}
        invariant todo <= knownGood.Keys && key in knownGood
        invariant forall k :: k in knownGood && k !in todo ==> knownGood[key] <= knownGood[k]
      {
        var k :| k in todo;
        if knownGood[k] < knownGood[key] {
          key := k;
        }
        todo := todo - {k};
      }
    }

    // Forgets the oldest marks, the cap only bounds memory.
    method TrimKnown()
      modifies this`knownGood
      ensures Trimmed(old(knownGood), knownGood)
    {
      ghost var all := knownGood;
      while |knownGood| > GC_THRESHOLD
        invariant SubMap(knownGood, all)
        invariant |knownGood| == |all| || |knownGood| >= GC_THRESHOLD
        invariant |knownGood| <= |all|
        invariant forall k, l :: k in all && k !in knownGood && l in knownGood ==> all[k] <= all[l]
        decreases |knownGood|
      {
        var k := Earliest();
        ghost var before := knownGood;
        knownGood := knownGood - {k};
        assert before.Keys == knownGood.Keys + {k};
      }
    }

    // The mark of `src`, and the garbage collection it may start.
    method Mark(src: Key, now: real)
      modifies this`knownGood
      ensures Marked(old(knownGood), src, now, knownGoodTtl, knownGood)
    {
      knownGood := knownGood[src := now + knownGoodTtl];
      if |knownGood| > GC_THRESHOLD {
        CollectKnown(now);
        TrimKnown();
      }
    }

    // Only the caller's own counter is cleared; the per-client one is left alone.
    method RecordSuccess(client: ClientId, ip: Option<string>, now: real)
      requires Valid() && clock <= now
      modifies this
      ensures Valid() && clock == now
      ensures hist == old(hist) + [Success(client, SourceOf(ip), now)]
      ensures strikes == old(strikes) - {Src(client, SourceOf(ip))}
      ensures Marked(old(knownGood), Src(client, SourceOf(ip)), now, knownGoodTtl, knownGood)
    {
      var src := Src(client, SourceOf(ip));
      ghost var e := Success(client, SourceOf(ip), now);
      strikes := strikes - {src};
      Mark(src, now);
      SuccessKeeps(old(strikes), old(knownGood), knownGood, hist, caps, knownGoodTtl, clock, e);
      hist := hist + [e];
      clock := now;
    }

    // What a TOTP handler does, without interleaving: ask, check the code, record.
    method Attempt(roster: Totp.Roster, client: ClientId, ip: Option<string>, result: Totp.TotpResult, now: real,
                   later: real)
      returns (asked: bool)
      requires Valid() && clock <= now <= later
      modifies this
      ensures Valid()
      ensures var holder := if client in roster && roster[client].owner.Some? && roster[client].owner.value != ""
                            then roster[client].owner.value else client;
              var src := SourceOf(ip);
              var known := Src(holder, src) in old(knownGood) && now < old(knownGood)[Src(holder, src)];
              && asked == !LockedOut(old(hist), caps, holder, src, known, now)
              && asked == !Answer(Table(old(strikes), old(knownGood)), caps, holder, src, now)
              && hist == (if !asked || result == Totp.REPLAY then old(hist)
                          else if result == Totp.OK then old(hist) + [Success(holder, src, later)]
                          else old(hist) + [Fail(holder, src, known, now, later)])
    {
      var holder := Totp.SeedOwner(roster, client);
      ghost var known := Src(holder, SourceOf(ip)) in knownGood && now < knownGood[Src(holder, SourceOf(ip))];
      var locked := Locked(holder, ip, now);
      if locked {
        return false;
      }
      if result == Totp.OK {
        RecordSuccess(holder, ip, later);
      } else if result == Totp.INVALID {
        RecordFailure(holder, ip, later, known, now);
      }
      return true;
    }
  }

  lemma GuardedAppend(hist: seq<Event>, e: Event, caps: Caps)
    requires Guarded(hist, caps)
    requires e.Fail? ==> e.asked <= e.time && !LockedOut(hist, caps, e.client, e.ip, e.known, e.asked)
    ensures Guarded(hist + [e], caps)
  {
    var h := hist + [e];
    forall i | 0 <= i < |h| && h[i].Fail?
      ensures h[i].asked <= h[i].time && !LockedOut(h[..i], caps, h[i].client, h[i].ip, h[i].known, h[i].asked)
    {
      assert h[..i] == hist[..i];
      assert i == |hist| ==> h[..i] == hist;
    }
  }

  // What a success keeps of everything that holds of the counters, the marks and the history.
  lemma SuccessKeeps(strikes: map<Key, Strike>, marks: map<Key, real>, left: map<Key, real>, hist: seq<Event>,
                     caps: Caps, ttl: real, clock: real, e: Event)
    requires e.Success? && clock <= e.time && Agrees(strikes, hist, caps.lockout, clock)
    requires Guarded(hist, caps) && MarksEarned(marks, hist, ttl) && Justified(hist, ttl) && |marks| <= GC_THRESHOLD
    requires Marked(marks, Src(e.client, e.ip), e.time, ttl, left)
    ensures Agrees(strikes - {Src(e.client, e.ip)}, hist + [e], caps.lockout, e.time)
    ensures Guarded(hist + [e], caps) && MarksEarned(left, hist + [e], ttl) && Justified(hist + [e], ttl)
    ensures |left| <= GC_THRESHOLD
  {
    var src := Src(e.client, e.ip);
    MarkedFrom(marks, src, e.time, ttl, left);
    hide Agrees, Guarded, MarksEarned, Justified;
    SuccessAgrees(strikes, hist, caps, clock, e);
    GuardedAppend(hist, e, caps);
    JustifiedAppend(hist, e, ttl);
    MarksGrow(marks, left, hist, e, ttl);
  }

  // --- non-interference ----------------------------------------------------------------

  // Callers without an address share one source; any other has its own.
  lemma SourcesApart(a: Option<string>, b: Option<string>)
    ensures SourceOf(a) == SourceOf(b) <==>
            a == b || ((a.None? || a.value in {"", "-"}) && (b.None? || b.value in {"", "-"}))
  {
  }

  // A success makes its source known good for the whole ttl, as long as there is room.
  lemma JustMarked(marks: map<Key, real>, src: Key, now: real, ttl: real, left: map<Key, real>)
    requires Marked(marks, src, now, ttl, left) && ttl > 0.0
    requires |set k | k in marks && k != src && marks[k] >= now + ttl| < GC_THRESHOLD
    ensures src in left && left[src] == now + ttl
  {
    var all := marks[src := now + ttl];
    if |all| > GC_THRESHOLD {
      SubsetSize(Rivals(Unexpired(all, now), src), set k | k in marks && k != src && marks[k] >= now + ttl);
      MarkSurvives(Unexpired(all, now), left, src);
    }
  }

  // Other sources' successes can cost a source its mark, but only when more than 4095 marks
  // end no earlier than its own.
  lemma MarkSurvives(marks: map<Key, real>, left: map<Key, real>, src: Key)
    requires Trimmed(marks, left) && src in marks
    requires |Rivals(marks, src)| < GC_THRESHOLD
    ensures src in left && left[src] == marks[src]
  {
    assert |left.Keys| == |left|;
    if src !in left {
      var later := Rivals(marks, src);
      if |marks| <= GC_THRESHOLD {
        KeysSubset(left, marks);
      }
      assert left.Keys <= later;
      SubsetSize(left.Keys, later);
    }
  }

  // ... and it is lost when that many end strictly later.
  lemma MarkLost(marks: map<Key, real>, left: map<Key, real>, src: Key)
    requires Trimmed(marks, left) && src in marks
    requires |set k | k in marks && marks[k] > marks[src]| >= GC_THRESHOLD
    ensures src !in left
  {
    assert |left.Keys| == |left| <= GC_THRESHOLD;
    if src in left {
      var later := set k | k in marks && marks[k] > marks[src];
      assert |later + {src}| == |later| + 1;
      SubsetSize(later + {src}, left.Keys);
    }
  }

  /** The two maps, and the calls that anyone may make on them. What a success leaves of the
      marks and what a question forgets is part of the call. */
  datatype Table = Table(strikes: map<Key, Strike>, marks: map<Key, real>)

  datatype Call =
    | Wrong(client: ClientId, ip: string, now: real)
    | Right(client: ClientId, ip: string, now: real, marks: map<Key, real>)
    | Ask(now: real, strikes: map<Key, Strike>, marks: map<Key, real>)

  // A call of another source than `src`, or a question of anyone, as the methods above answer it.
  ghost predicate Foreign(t: Table, call: Call, src: Key, ttl: real) {
    match call
    case Wrong(client, ip, _) => Src(client, ip) != src
    case Right(client, ip, now, marks) => Src(client, ip) != src && Marked(t.marks, Src(client, ip), now, ttl, marks)
    case Ask(now, strikes, marks) =>
      && SubMap(strikes, t.strikes) && SubMap(marks, t.marks)
      && forall k :: k in t.marks && now < t.marks[k] ==> k in marks
  }

  function Called(t: Table, call: Call, lockout: real): Table {
    match call
    case Wrong(client, ip, now) => t.(strikes := AfterFailure(t.strikes, client, ip, lockout, now))
    case Right(client, ip, _, marks) => Table(t.strikes - {Src(client, ip)}, marks)
    case Ask(_, strikes, marks) => Table(strikes, marks)
  }

  ghost predicate ForeignRun(t: Table, calls: seq<Call>, src: Key, caps: Caps, ttl: real, until: real)
    decreases |calls|
  {
    calls == [] || (&& Foreign(t, calls[0], src, ttl) && calls[0].now <= until
                    && ForeignRun(Called(t, calls[0], caps.lockout), calls[1..], src, caps, ttl, until))
  }

  function AfterCalls(t: Table, calls: seq<Call>, lockout: real): Table
    decreases |calls|
  {
    if calls == [] then t else AfterCalls(Called(t, calls[0], lockout), calls[1..], lockout)
  }

  function Successes(calls: seq<Call>): nat
    decreases |calls|
  {
    if calls == [] then 0 else (if calls[0].Right? then 1 else 0) + Successes(calls[1..])
  }

  // The other marks that end no earlier than that of `src`.
  function Rivals(marks: map<Key, real>, src: Key): set<Key>
    requires src in marks
  {
    set k | k in marks && k != src && marks[k] >= marks[src]
  }

  // No call of another source raises the count of `src`.
  lemma ForeignCount(t: Table, call: Call, src: Key, caps: Caps, ttl: real, now: real)
    requires Foreign(t, call, src, ttl) && src.Src?
    ensures LiveStrike(Lookup(Called(t, call, caps.lockout).strikes, src), now) <= LiveStrike(Lookup(t.strikes, src),
            now)
  {
  }

  // A success of another source costs an unexpired mark nothing while there is room for it, and
  // adds at most one rival.
  lemma RightMark(marks: map<Key, real>, other: Key, now: real, ttl: real, after: map<Key, real>, src: Key)
    requires Marked(marks, other, now, ttl, after) && other != src && src in marks && now < marks[src]
    requires |Rivals(marks, src)| + 1 < GC_THRESHOLD
    ensures src in after && after[src] == marks[src] && |Rivals(after, src)| <= |Rivals(marks, src)| + 1
  {
    var all := marks[other := now + ttl];
    RivalAdded(marks, other, now + ttl, src);
    if |all| > GC_THRESHOLD {
      var unexpired := Unexpired(all, now);
      RivalsShrink(all, unexpired, src);
      hide Rivals;
      MarkSurvives(unexpired, after, src);
      RivalsShrink(unexpired, after, src);
    }
  }

  lemma RivalAdded(marks: map<Key, real>, other: Key, end: real, src: Key)
    requires other != src && src in marks
    ensures |Rivals(marks[other := end], src)| <= |Rivals(marks, src)| + 1
  {
    SubsetSize(Rivals(marks[other := end], src), Rivals(marks, src) + {other});
  }

  lemma RivalsShrink(marks: map<Key, real>, left: map<Key, real>, src: Key)
    requires SubMap(left, marks) && src in left
    ensures |Rivals(left, src)| <= |Rivals(marks, src)|
  {
    SubsetSize(Rivals(left, src), Rivals(marks, src));
  }

  lemma ForeignMark(t: Table, call: Call, src: Key, caps: Caps, ttl: real)
    requires Foreign(t, call, src, ttl) && src in t.marks && call.now < t.marks[src]
    requires |Rivals(t.marks, src)| + (if call.Right? then 1 else 0) < GC_THRESHOLD
    ensures var after := Called(t, call, caps.lockout).marks;
            && src in after && after[src] == t.marks[src]
            && |Rivals(after, src)| <= |Rivals(t.marks, src)| + if call.Right? then 1 else 0
  {
    hide Marked, Rivals, AfterFailure;
    match call
    case Wrong(_, _, _) =>
    case Right(client, ip, now, marks) => RightMark(t.marks, Src(client, ip), now, ttl, marks, src);
    case Ask(_, _, marks) => RivalsShrink(t.marks, marks, src);
  }

  // What `locked` answers, written out: nothing but the counter of the source, unless it is marked
  // also that of the client.
  lemma AnswerIs(t: Table, caps: Caps, client: ClientId, ip: string, now: real)
    ensures var src, all := Src(client, ip), Whole(client);
            var own := if src in t.strikes && now < t.strikes[src].until then t.strikes[src].count else 0;
            var total := if all in t.strikes && now < t.strikes[all].until then t.strikes[all].count else 0;
            var known := src in t.marks && now < t.marks[src];
            Answer(t, caps, client, ip, now) <==> own >= caps.perSource || (!known && total >= caps.perClient)
  {
  }

  // What `locked` answers from the two maps.
  predicate Answer(t: Table, caps: Caps, client: ClientId, ip: string, now: real) {
    var src := Src(client, ip);
    || LiveStrike(Lookup(t.strikes, src), now) >= caps.perSource
    || (!(src in t.marks && now < t.marks[src]) && LiveStrike(Lookup(t.strikes, Whole(client)), now) >= caps.perClient)
  }

  // Whatever other sources do, wrong codes, right ones and questions, a source that is marked
  // known good and below its own cap is not locked out before its mark expires, as long as
  // fewer than 4096 other marks can come to end later than its own.
  lemma {:induction false} KnownGoodNotLockedByOthers(t: Table, calls: seq<Call>, caps: Caps, ttl: real,
                                                      client: ClientId, ip: string, now: real)
    requires ForeignRun(t, calls, Src(client, ip), caps, ttl, now)
    requires Src(client, ip) in t.marks && now < t.marks[Src(client, ip)]
    requires |Rivals(t.marks, Src(client, ip))| + Successes(calls) < GC_THRESHOLD
    requires LiveStrike(Lookup(t.strikes, Src(client, ip)), now) < caps.perSource
    ensures !Answer(AfterCalls(t, calls, caps.lockout), caps, client, ip, now)
    decreases |calls|
  {
    if calls != [] {
      hide Foreign, Called, Answer, Rivals, LiveStrike;
      ForeignCount(t, calls[0], Src(client, ip), caps, ttl, now);
      ForeignMark(t, calls[0], Src(client, ip), caps, ttl);
      KnownGoodNotLockedByOthers(Called(t, calls[0], caps.lockout), calls[1..], caps, ttl, client, ip, now);
    }
  }

  // For failures and questions alone the room is always there: no more than 4096 marks are ever
  // kept.
  lemma KnownGoodNotLockedByFailures(t: Table, calls: seq<Call>, caps: Caps, ttl: real, client: ClientId, ip: string,
                                     now: real)
    requires |t.marks| <= GC_THRESHOLD && Successes(calls) == 0
    requires ForeignRun(t, calls, Src(client, ip), caps, ttl, now)
    requires Src(client, ip) in t.marks && now < t.marks[Src(client, ip)]
    requires LiveStrike(Lookup(t.strikes, Src(client, ip)), now) < caps.perSource
    ensures !Answer(AfterCalls(t, calls, caps.lockout), caps, client, ip, now)
  {
    var src := Src(client, ip);
    assert |t.marks.Keys| == |t.marks|;
    SubsetSize(Rivals(t.marks, src) + {src}, t.marks.Keys);
    KnownGoodNotLockedByOthers(t, calls, caps, ttl, client, ip, now);
  }

  /** A code entered by someone. */
  datatype Attempted = Attempted(client: ClientId, ip: Option<string>, ok: bool, time: real)

  function Rights(others: seq<Attempted>): nat {
    if others == [] then 0 else (if others[0].ok then 1 else 0) + Rights(others[1..])
  }

  // What the object answers a known good source after any number of others had their tries: that it
  // is not locked out.
  method Siege(lockout: TotpLockout, others: seq<Attempted>, client: ClientId, ip: Option<string>, now: real)
    returns (locked: bool)
    requires lockout.Valid() && lockout.clock <= now
    requires forall i :: 0 <= i < |others| ==> lockout.clock <= others[i].time <= now
    requires forall i, j | 0 <= i <= j < |others| :: others[i].time <= others[j].time
    requires forall i :: 0 <= i < |others| ==> Src(others[i].client, SourceOf(others[i].ip)) != Src(client,
            SourceOf(ip))
    requires Src(client, SourceOf(ip)) in lockout.knownGood && now < lockout.knownGood[Src(client, SourceOf(ip))]
    requires LiveStrike(Lookup(lockout.strikes, Src(client, SourceOf(ip))), now) < lockout.caps.perSource
    requires Rights(others) > 0 ==> |Rivals(lockout.knownGood,
                                            Src(client, SourceOf(ip)))| + Rights(others) < GC_THRESHOLD
    modifies lockout
    ensures lockout.Valid() && !locked
  {
    var src := Src(client, SourceOf(ip));
    ghost var end := lockout.knownGood[src];
    RoomForMark(lockout.knownGood, src);
    for i := 0 to |others|
      invariant lockout.Valid() && lockout.clock <= now
      invariant forall j :: i <= j < |others| ==> lockout.clock <= others[j].time
      invariant src in lockout.knownGood && lockout.knownGood[src] == end
      invariant |Rivals(lockout.knownGood, src)| + Rights(others[i..]) < GC_THRESHOLD
      invariant LiveStrike(Lookup(lockout.strikes, src), now) < lockout.caps.perSource
    {
      assert others[i..][1..] == others[i + 1..];
      TryOnce(lockout, others[i], src, now);
    }
    locked := lockout.Locked(client, ip, now);
    AnswerIs(Table(lockout.strikes, lockout.knownGood), lockout.caps, client, SourceOf(ip), now);
  }

  lemma RoomForMark(marks: map<Key, real>, src: Key)
    requires |marks| <= GC_THRESHOLD && src in marks
    ensures |Rivals(marks, src)| < GC_THRESHOLD
  {
    assert |marks.Keys| == |marks|;
    SubsetSize(Rivals(marks, src) + {src}, marks.Keys);
  }

  // One try of another source than `src`: ask, and record what came of it.
  method TryOnce(lockout: TotpLockout, other: Attempted, src: Key, ghost now: real)
    requires lockout.Valid() && lockout.clock <= other.time <= now && src.Src?
    requires Src(other.client, SourceOf(other.ip)) != src && src in lockout.knownGood && now < lockout.knownGood[src]
    requires |Rivals(lockout.knownGood, src)| + (if other.ok then 1 else 0) < GC_THRESHOLD
    modifies lockout
    ensures lockout.Valid() && lockout.clock == other.time
    ensures src in lockout.knownGood && lockout.knownGood[src] == old(lockout.knownGood)[src]
    ensures |Rivals(lockout.knownGood, src)| <= |Rivals(old(lockout.knownGood), src)| + if other.ok then 1 else 0
    ensures LiveStrike(Lookup(lockout.strikes, src), now) <= LiveStrike(Lookup(old(lockout.strikes), src), now)
  {
    hide Rivals, LiveStrike, Marked, Agrees, Guarded, Justified, LockedOut, AfterFailure, MarksEarned, Answer,
         KnownSource;
    ghost var t0 := Table(lockout.strikes, lockout.knownGood);
    var key := Src(other.client, SourceOf(other.ip));
    ghost var known := key in lockout.knownGood && other.time < lockout.knownGood[key];
    if known {
      MarkIsKnown(lockout.knownGood, lockout.hist, lockout.knownGoodTtl, other.client, SourceOf(other.ip), other.time);
    }
    var refused := lockout.Locked(other.client, other.ip, other.time);
    ghost var t1 := Table(lockout.strikes, lockout.knownGood);
    ghost var ask := Ask(other.time, t1.strikes, t1.marks);
    ForeignCount(t0, ask, src, lockout.caps, lockout.knownGoodTtl, now);
    ForeignMark(t0, ask, src, lockout.caps, lockout.knownGoodTtl);
    if refused {
      return;
    }
    if other.ok {
      lockout.RecordSuccess(other.client, other.ip, other.time);
      ghost var right := Right(other.client, SourceOf(other.ip), other.time, lockout.knownGood);
      ForeignCount(t1, right, src, lockout.caps, lockout.knownGoodTtl, now);
      ForeignMark(t1, right, src, lockout.caps, lockout.knownGoodTtl);
    } else {
      lockout.RecordFailure(other.client, other.ip, other.time, known, other.time);
      ghost var wrong := Call.Wrong(other.client, SourceOf(other.ip), other.time);
      ForeignCount(t1, wrong, src, lockout.caps, lockout.knownGoodTtl, now);
      ForeignMark(t1, wrong, src, lockout.caps, lockout.knownGoodTtl);
    }
  }

  lemma KeysSubset<K, V>(small: map<K, V>, big: map<K, V>)
    requires SubMap(small, big)
    ensures |small| <= |big|
    ensures |small| == |big| ==> small.Keys == big.Keys
  {
    SubsetSize(small.Keys, big.Keys);
    assert |small.Keys| == |small| && |big.Keys| == |big|;
  }
}
