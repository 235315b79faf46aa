/** The sliding-window limiter of `ratelimit.py`: pruned deques with opportunistic garbage
    collection, against the plain history of allowed events. */
module RateLimiters {
  import opened Prelude

  // --- deques ------------------------------------------------------------------

  ghost predicate Sorted(s: seq<real>) {
    forall i, j | 0 <= i <= j < |s| :: s[i] <= s[j]
  }

  // How many events of `s` are after `cutoff`.
  function After(s: seq<real>, cutoff: real): nat {
    if s == [] then 0 else After(s[..|s| - 1], cutoff) + if s[|s| - 1] > cutoff then 1 else 0
  }

  // `s` from its first event after `cutoff` on.
  function Pruned(s: seq<real>, cutoff: real): seq<real> {
    if s != [] && s[0] <= cutoff then Pruned(s[1..], cutoff) else s
  }

  lemma {:induction false} AfterAppend(s: seq<real>, x: real, cutoff: real)
    ensures After(s + [x], cutoff) == After(s, cutoff) + if x > cutoff then 1 else 0
  {
    assert (s + [x])[..|s|] == s;
  }

  lemma {:induction false} AfterDropOld(s: seq<real>, cutoff: real)
    requires s != [] && s[0] <= cutoff
    ensures After(s[1..], cutoff) == After(s, cutoff)
  {
    if |s| > 1 {
      AfterDropOld(s[..|s| - 1], cutoff);
      assert s[..|s| - 1][1..] == s[1..][..|s| - 2];
    } else {
      assert s[..0] == [] && s[1..] == [];
    }
  }

  lemma {:induction false} AfterAll(s: seq<real>, cutoff: real)
    requires forall i :: 0 <= i < |s| ==> s[i] > cutoff
    ensures After(s, cutoff) == |s|
  {
    if s != [] {
      AfterAll(s[..|s| - 1], cutoff);
    }
  }

  lemma {:induction false} AfterMonotone(s: seq<real>, low: real, high: real)
    requires low <= high
    ensures After(s, high) <= After(s, low)
  {
    if s != [] {
      AfterMonotone(s[..|s| - 1], low, high);
    }
  }

  // Pruning a sorted deque keeps its events after the cutoff, and nothing else.
  lemma {:induction false} PrunedMeaning(s: seq<real>, cutoff: real)
    requires Sorted(s)
    ensures var p := Pruned(s, cutoff);
            && |p| <= |s| && p == s[|s| - |p|..] && Sorted(p)
            && (forall i :: 0 <= i < |p| ==> p[i] > cutoff)
            && |p| == After(s, cutoff) == After(p, cutoff)
    ensures forall later :: cutoff <= later ==> After(Pruned(s, cutoff), later) == After(s, later)
  {
    if s != [] && s[0] <= cutoff {
      PrunedMeaning(s[1..], cutoff);
      AfterDropOld(s, cutoff);
      forall later | cutoff <= later ensures After(Pruned(s, cutoff), later) == After(s, later) {
        AfterDropOld(s, later);
      }
    } else {
      AfterAll(s, cutoff);
    }
  }

  // --- the history ---------------------------------------------------------------

  datatype Event = Event(key: string, time: real)

  // The times of the allowed events of `key`, in order.
  function Times(history: seq<Event>, key: string): seq<real> {
    if history == [] then []
    else
      var e := history[|history| - 1];
      Times(history[..|history| - 1], key) + if e.key == key then [e.time] else []
  }

  lemma TimesAppend(history: seq<Event>, e: Event, key: string)
    ensures Times(history + [e], key) == Times(history, key) + if e.key == key then [e.time] else []
  {
    assert (history + [e])[..|history|] == history;
  }

  // Allowed events of `key` in the last `window` seconds.
  function Recent(history: seq<Event>, key: string, now: real, window: real): nat {
    After(Times(history, key), now - window)
  }

  // The specification: an event is allowed when fewer than `limit` events of its key were
  // allowed in the last `window` seconds.
  predicate Allows(history: seq<Event>, key: string, now: real, limit: int, window: real) {
    Recent(history, key, now, window) < limit
  }

  ghost function Counted(history: seq<Event>, key: string, now: real, window: real): set<int> {
    set i | 0 <= i < |history| && history[i].key == key && history[i].time > now - window
  }

  lemma CountedGrows(history: seq<Event>, key: string, now: real, window: real)
    requires history != []
    ensures var n := |history| - 1;
            var hit := history[n].key == key && history[n].time > now - window;
            && n !in Counted(history[..n], key, now, window)
            && Counted(history, key, now, window)
               == Counted(history[..n], key, now, window) + if hit then {n} else {}
  {
  }

  // What is counted: each event of the key that is less than a window old, once.
  lemma {:induction false} RecentCounts(history: seq<Event>, key: string, now: real, window: real)
    ensures Recent(history, key, now, window) == |Counted(history, key, now, window)|
  {
    if history != [] {
      var before, e := history[..|history| - 1], history[|history| - 1];
      RecentCounts(before, key, now, window);
      CountedGrows(history, key, now, window);
      hide Counted, After, Times;
      TimesAppend(before, e, key);
      assert before + [e] == history;
      AfterAppend(Times(before, key), e.time, now - window);
      assert Times(before, key) + [] == Times(before, key);
    }
  }

  // So a call is allowed exactly when fewer than `limit` calls of its key were in the last `window`
  // seconds, the one exactly `window` seconds ago not counted; other keys never matter.
  lemma AllowedIff(history: seq<Event>, key: string, now: real, limit: int, window: real)
    ensures Allows(history, key, now, limit, window) <==>
              |set i | 0 <= i < |history| && history[i].key == key && now - history[i].time < window| < limit
  {
    RecentCounts(history, key, now, window);
    assert Counted(history, key, now, window)
        == set i | 0 <= i < |history| && history[i].key == key && now - history[i].time < window;
  }

  // Histories in which every event was allowed when it happened, in clock order.
  ghost predicate Admitted(history: seq<Event>, limit: int, window: real) {
    && (forall i :: 0 <= i < |history| ==> Allows(history[..i], history[i].key, history[i].time, limit, window))
    && (forall i, j | 0 <= i <= j < |history| :: history[i].time <= history[j].time)
  }

  // How many events of `key` fall in the window (from, from + window].
  function InWindow(s: seq<real>, from_: real, window: real): nat {
    if s == [] then 0
    else InWindow(s[..|s| - 1], from_, window) + if from_ < s[|s| - 1] <= from_ + window then 1 else 0
  }

  lemma {:induction false} WindowWithin(s: seq<real>, from_: real, window: real, cutoff: real)
    requires cutoff <= from_
    ensures InWindow(s, from_, window) <= After(s, cutoff)
  {
    if s != [] {
      WindowWithin(s[..|s| - 1], from_, window, cutoff);
    }
  }

  lemma InWindowAppend(s: seq<real>, x: real, from_: real, window: real)
    ensures InWindow(s + [x], from_, window) == InWindow(s, from_, window) + if from_ < x <= from_ + window then 1
        else 0
  {
    assert (s + [x])[..|s|] == s;
  }

  lemma AdmittedBefore(history: seq<Event>, limit: int, window: real)
    requires Admitted(history, limit, window) && history != []
    ensures Admitted(history[..|history| - 1], limit, window)
    ensures var e := history[|history| - 1]; Allows(history[..|history| - 1], e.key, e.time, limit, window)
  {
    var before := history[..|history| - 1];
    assert forall i :: 0 <= i < |before| ==> before[..i] == history[..i];
  }

  // One more allowed event keeps every window within the limit.
  lemma WindowStep(before: seq<Event>, e: Event, key: string, limit: int, window: real, from_: real)
    requires limit >= 0 && Allows(before, e.key, e.time, limit, window)
    requires InWindow(Times(before, key), from_, window) <= limit
    ensures InWindow(Times(before + [e], key), from_, window) <= limit
  {
    hide Times, InWindow, After;
    var s := Times(before, key);
    TimesAppend(before, e, key);
    if e.key == key {
      InWindowAppend(s, e.time, from_, window);
      if from_ < e.time <= from_ + window {
        WindowWithin(s, from_, window, e.time - window);
      }
    } else {
      assert s + [] == s;
    }
  }

  // However the calls fall, no window of the configured length ever holds more than `limit`
  // allowed events of one key.
  lemma {:induction false} WindowBound(history: seq<Event>, key: string, limit: int, window: real, from_: real)
    requires limit >= 0 && Admitted(history, limit, window)
    ensures InWindow(Times(history, key), from_, window) <= limit
  {
    hide Admitted, Allows;
    if history != [] {
      var before, e := history[..|history| - 1], history[|history| - 1];
      hide Times, InWindow;
      AdmittedBefore(history, limit, window);
      WindowBound(before, key, limit, window, from_);
      WindowStep(before, e, key, limit, window, from_);
      assert history == before + [e];
    }
  }

  lemma Recorded(history: seq<Event>, e: Event, limit: int, window: real)
    requires Admitted(history, limit, window) && Allows(history, e.key, e.time, limit, window)
    requires forall i :: 0 <= i < |history| ==> history[i].time <= e.time
    ensures Admitted(history + [e], limit, window)
  {
    var h := history + [e];
    forall i | 0 <= i < |h| ensures Allows(h[..i], h[i].key, h[i].time, limit, window) {
      assert h[..i] == history[..i];
      assert i == |history| ==> h[..i] == history;
    }
  }

  // --- the buckets -----------------------------------------------------------------

  type Buckets = map<string, seq<real>>

  function BucketOf(buckets: Buckets, key: string): seq<real> {
    if key in buckets then buckets[key] else []
  }

  ghost predicate Ordered(buckets: Buckets, clock: real) {
    forall k :: k in buckets ==> Sorted(buckets[k]) && forall i :: 0 <= i < |buckets[k]| ==> buckets[k][i] <= clock
  }

  // Every event of the history after `from_` is still in its bucket.
  ghost predicate Remembers(buckets: Buckets, history: seq<Event>, from_: real) {
    forall k, cutoff :: cutoff >= from_ ==> After(BucketOf(buckets, k), cutoff) == After(Times(history, k), cutoff)
  }

  lemma PruneOne(buckets: Buckets, history: seq<Event>, clock: real, key: string, cutoff: real)
    requires Ordered(buckets, clock) && Remembers(buckets, history, cutoff)
    ensures var left := Pruned(BucketOf(buckets, key), cutoff);
            && Ordered(buckets[key := left], clock) && Remembers(buckets[key := left], history, cutoff)
            && |left| == After(Times(history, key), cutoff)
            && forall i :: 0 <= i < |left| ==> left[i] > cutoff
  {
    PrunedMeaning(BucketOf(buckets, key), cutoff);
  }

  lemma AppendOne(buckets: Buckets, history: seq<Event>, clock: real, key: string, now: real, from_: real)
    requires Ordered(buckets, clock) && Remembers(buckets, history, from_) && clock <= now
    ensures var b := buckets[key := BucketOf(buckets, key) + [now]];
            Ordered(b, now) && Remembers(b, history + [Event(key, now)], from_)
  {
    hide After, Times;
    var b := buckets[key := BucketOf(buckets, key) + [now]];
    forall k, later | later >= from_
      ensures After(BucketOf(b, k), later) == After(Times(history + [Event(key, now)], k), later)
    {
      TimesAppend(history, Event(key, now), k);
      AfterAppend(Times(history, key), now, later);
      AfterAppend(BucketOf(buckets, key), now, later);
      assert Times(history, k) + [] == Times(history, k);
    }
  }

  // `after` is `before` with every deque pruned at `cutoff` and the empty ones dropped.
  ghost predicate CollectedAt(before: Buckets, after: Buckets, cutoff: real) {
    && (forall k :: k in after ==> k in before && after[k] == Pruned(before[k], cutoff))
    && (forall k :: k in before && k !in after ==> Pruned(before[k], cutoff) == [])
  }

  // Garbage collection never changes a count that can still matter.
  lemma CollectionForgetsNothing(before: Buckets, after: Buckets, history: seq<Event>, clock: real, cutoff: real)
    requires Ordered(before, clock) && Remembers(before, history, cutoff) && CollectedAt(before, after, cutoff)
    ensures Ordered(after, clock) && Remembers(after, history, cutoff)
  {
    forall k, later | later >= cutoff
      ensures After(BucketOf(after, k), later) == After(Times(history, k), later)
    {
      if k in before {
        PrunedMeaning(before[k], cutoff);
      }
    }
    forall k | k in after
      ensures Sorted(after[k]) && forall i :: 0 <= i < |after[k]| ==> after[k][i] <= clock
    {
      PrunedMeaning(before[k], cutoff);
    }
  }

  // A later clock reading asks for less.
  lemma Forward(buckets: Buckets, history: seq<Event>, clock: real, now: real, window: real)
    requires Ordered(buckets, clock) && Remembers(buckets, history, clock - window) && clock <= now
    ensures Ordered(buckets, now) && Remembers(buckets, history, now - window)
  {
  }

  lemma NothingLeft(buckets: Buckets, history: seq<Event>, key: string, cutoff: real)
    requires Remembers(buckets, history, cutoff) && BucketOf(buckets, key) == []
    ensures After(Times(history, key), cutoff) == 0
  {
  }

  lemma DropEmpty(buckets: Buckets, history: seq<Event>, clock: real, key: string, cutoff: real)
    requires Ordered(buckets, clock) && Remembers(buckets, history, cutoff) && BucketOf(buckets, key) == []
    ensures Ordered(buckets - {key}, clock) && Remembers(buckets - {key}, history, cutoff)
    ensures After(Times(history, key), cutoff) == 0
  {
    forall k, later | later >= cutoff
      ensures After(BucketOf(buckets - {key}, k), later) == After(Times(history, k), later)
    {
      assert BucketOf(buckets - {key}, k) == BucketOf(buckets, k);
    }
  }

  // The count of `key`, `full` from `now` on, stays so until `expiry` and drops there.
  ghost predicate FreesAt(history: seq<Event>, key: string, window: real, now: real, full: nat, expiry: real) {
    && (forall t :: now <= t < expiry ==> Recent(history, key, t, window) == full)
    && (forall t :: expiry <= t ==> Recent(history, key, t, window) < full)
  }

  // A pruned bucket keeps its count until its first event leaves the window.
  lemma OldestLeaves(buckets: Buckets, history: seq<Event>, clock: real, key: string, now: real, window: real)
    requires Ordered(buckets, clock) && Remembers(buckets, history, now - window)
    requires var b := BucketOf(buckets, key); b != [] && forall i :: 0 <= i < |b| ==> b[i] > now - window
    ensures var b := BucketOf(buckets, key);
            FreesAt(history, key, window, now, |b|, b[0] + window) && Recent(history, key, now, window) == |b|
  {
    var b := BucketOf(buckets, key);
    AfterAll(b, now - window);
    forall t | now <= t < b[0] + window
      ensures Recent(history, key, t, window) == |b|
    {
      AfterAll(b, t - window);
    }
    forall t | b[0] + window <= t
      ensures Recent(history, key, t, window) < |b|
    {
      AfterDropOld(b, t - window);
      AfterLength(b[1..], t - window);
    }
  }

  lemma {:induction false} AfterLength(s: seq<real>, cutoff: real)
    ensures After(s, cutoff) <= |s|
  {
    if s != [] {
      AfterLength(s[..|s| - 1], cutoff);
    }
  }

  // --- waiting ---------------------------------------------------------------------

  // Python's `int`: truncation toward zero.
  function Trunc(x: real): int {
    if x >= 0.0 then x.Floor else -((-x).Floor)
  }

  function RetrySeconds(oldest: real, window: real, now: real): int {
    var secs := Trunc(window - (now - oldest)) + 1;
    if secs > 0 then secs else 0
  }

  // The wait reaches the moment the oldest event leaves the window, and overshoots it (or
  // the present, when it has passed) by at most one second.
  lemma RetryReaches(oldest: real, window: real, now: real)
    ensures now + RetrySeconds(oldest, window, now) as real >= oldest + window
    ensures now + RetrySeconds(oldest, window, now) as real <= MaxReal(now, oldest + window) + 1.0
  {
  }

  lemma {:induction false} RecentIsWindow(s: seq<real>, now: real, window: real)
    requires forall i :: 0 <= i < |s| ==> s[i] <= now
    ensures After(s, now - window) == InWindow(s, now - window, window)
  {
    if s != [] {
      RecentIsWindow(s[..|s| - 1], now, window);
    }
  }

  lemma {:induction false} TimesPast(history: seq<Event>, key: string, now: real)
    requires forall i :: 0 <= i < |history| ==> history[i].time <= now
    ensures forall i :: 0 <= i < |Times(history, key)| ==> Times(history, key)[i] <= now
  {
    if history != [] {
      TimesPast(history[..|history| - 1], key, now);
    }
  }

  // Once the oldest event of the window at `now` has left, or when there is none, a check succeeds
  // if and only if the limiter allows anything at all.
  lemma WaitSucceeds(history: seq<Event>, key: string, limit: int, window: real, now: real, expiry: real, t: real)
    requires window > 0.0 && Admitted(history, limit, window)
    requires now <= t && forall i :: 0 <= i < |history| ==> history[i].time <= now
    requires Recent(history, key, now, window) > 0 ==>
               FreesAt(history, key, window, now, Recent(history, key, now, window), expiry) && expiry <= t
    ensures Allows(history, key, t, limit, window) <==> limit >= 1
  {
    AfterMonotone(Times(history, key), now - window, t - window);
    if limit >= 1 {
      WindowBound(history, key, limit, window, now - window);
      TimesPast(history, key, now);
      RecentIsWindow(Times(history, key), now, window);
    }
  }

  // --- the limiter -----------------------------------------------------------------

  class RateLimiter {
    const limit: int
    const window: real
    var buckets: Buckets
    var lastGc: real
    // Every event allowed so far, and the latest clock reading.
    ghost var history: seq<Event>
    ghost var clock: real

    ghost predicate Valid() reads this {
      && window > 0.0
      && Ordered(buckets, clock) && Remembers(buckets, history, clock - window)
      && (forall i :: 0 <= i < |history| ==> history[i].time <= clock)
      && Admitted(history, limit, window)
    }

    constructor (limit: int, window: real, ghost start: real)
      requires window > 0.0
      ensures Valid() && this.limit == limit && this.window == window && history == [] && clock == start
    {
      this.limit, this.window := limit, window;
      buckets, lastGc := map[], 0.0;
      history, clock := [], start;
    }

    // `_prune_bucket`: the loop over one deque.
    static method PruneBucket(events: seq<real>, cutoff: real) returns (left: seq<real>)
      ensures left == Pruned(events, cutoff)
    {
      left := events;
      while left != [] && left[0] <= cutoff
        invariant Pruned(left, cutoff) == Pruned(events, cutoff)
        decreases |left|
      {
        left := left[1..];
      }
    }

    // `_collect_stale_buckets_locked`: prune every deque, drop the empty ones.
    method Collect(cutoff: real)
      modifies this`buckets
      ensures CollectedAt(old(buckets), buckets, cutoff)
    {
      var todo := buckets.Keys;
      while todo != {}
        invariant forall k :: k in todo ==> k in buckets && buckets[k] == old(buckets)[k]
        invariant forall k :: k in buckets ==> k in old(buckets)
        invariant forall k :: k in buckets && k !in todo ==> buckets[k] == Pruned(old(buckets)[k], cutoff)
        invariant forall k :: k in old(buckets) && k !in buckets ==> Pruned(old(buckets)[k], cutoff) == []
        invariant todo <= old(buckets).Keys
      {
        var key :| key in todo;
        var left := PruneBucket(buckets[key], cutoff);
        if left == [] {
          buckets := buckets - {key};
        } else {
          buckets := buckets[key := left];
        }
        todo := todo - {key};
      }
    }

    // The call is answered from the full history, whatever was pruned or collected.
    method Check(key: string, now: real) returns (ok: bool)
      requires Valid() && clock <= now
      modifies this
      ensures Valid() && clock == now
      ensures ok == Allows(old(history), key, now, limit, window)
      ensures history == if ok then old(history) + [Event(key, now)] else old(history)
    {
      hide Ordered, Remembers, Admitted, CollectedAt, After, Times, Pruned;
      var cutoff := now - window;
      Forward(buckets, history, clock, now, window);
      PruneOne(buckets, history, now, key, cutoff);
      var bucket := PruneBucket(BucketOf(buckets, key), cutoff);
      buckets := buckets[key := bucket];
      clock := now;
      if |bucket| >= limit {
        return false;
      }
      Recorded(history, Event(key, now), limit, window);
      AppendOne(buckets, history, now, key, now, cutoff);
      history := history + [Event(key, now)];
      buckets := buckets[key := bucket + [now]];
      if |buckets| > 1024 || now - lastGc >= window {
        ghost var full := buckets;
        Collect(cutoff);
        CollectionForgetsNothing(full, buckets, history, now, cutoff);
        lastGc := now;
      }
      return true;
    }

    // After a rejection: waiting the answered number of seconds frees a slot of the key,
    // and no earlier moment than one second before that does.
    method RetryAfter(key: string, now: real, readAgain: real) returns (secs: int)
      requires Valid() && clock <= now <= readAgain
      modifies this
      ensures Valid() && clock == now && history == old(history)
      ensures secs >= 0
      ensures var full := Recent(history, key, now, window);
              && (full == 0 ==> secs == 0)
              && (full > 0 ==> exists expiry: real ::
                    && FreesAt(history, key, window, now, full, expiry)
                    && readAgain + secs as real >= expiry
                    && readAgain + secs as real <= MaxReal(readAgain, expiry) + 1.0)
    {
      hide Ordered, Remembers, Admitted, FreesAt;
      var cutoff := now - window;
      Forward(buckets, history, clock, now, window);
      if key !in buckets || buckets[key] == [] {
        clock := now;
        NothingLeft(buckets, history, key, cutoff);
        return 0;
      }
      PruneOne(buckets, history, now, key, cutoff);
      var bucket := PruneBucket(buckets[key], cutoff);
      ghost var full := buckets;
      buckets := buckets[key := bucket];
      clock := now;
      if bucket == [] {
        DropEmpty(buckets, history, now, key, cutoff);
        buckets := buckets - {key};
        return 0;
      }
      secs := RetrySeconds(bucket[0], window, readAgain);
      RetryReaches(bucket[0], window, readAgain);
      OldestLeaves(buckets, history, now, key, now, window);
    }
  }

  // What a client that obeys the answer sees: rejected at `now` and told how long to wait, it
  // comes back at that moment or later. With a limit of zero the wait is 0 s and in vain.
  method RejectedThenRetried(limiter: RateLimiter, key: string, now: real, later: real, readAgain: real, extra: real)
    returns (first: bool, secs: int, again: bool)
    requires limiter.Valid() && limiter.clock <= now <= later <= readAgain && extra >= 0.0
    modifies limiter
    ensures limiter.Valid()
    ensures first == Allows(old(limiter.history), key, now, limiter.limit, limiter.window)
    ensures !first ==> (again <==> limiter.limit >= 1)
  {
    secs, again := 0, true;
    first := limiter.Check(key, now);
    if first {
      return;
    }
    secs := limiter.RetryAfter(key, later, readAgain);
    ghost var full := Recent(limiter.history, key, later, limiter.window);
    ghost var expiry := later;
    if full > 0 {
      expiry :| FreesAt(limiter.history, key, limiter.window, later, full, expiry)
          && readAgain + secs as real >= expiry;
    }
    var t := readAgain + secs as real + extra;
    WaitSucceeds(limiter.history, key, limiter.limit, limiter.window, later, expiry, t);
    again := limiter.Check(key, t);
  }
}
