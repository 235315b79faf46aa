/** How long a restart watchdog can live: the two health waits of `_WATCHDOG_SCRIPT` and the
    commands around them, against the window an update waits for it (`updates.py`). */
module WatchdogLife {
  import opened Prelude
  import opened Updates
  import W = Watchdog

  const HEALTH_WAIT := 90
  const SETTLE := 30
  const DELAY := 5.0
  const PIP_TIMEOUT := 900.0

  /** One `healthy` or `stable`, with the `systemctl show` that goes with it, and how long it took. */
  datatype Probe = Probe(good: bool, took: real)

  /** What each probe of one watchdog will answer, counted from its start. */
  type Probes = nat -> Probe

  ghost predicate Quick(probe: Probes, c: real) {
    forall k :: 0.0 <= probe(k).took <= c
  }

  datatype Waited = Waited(ok: bool, time: real, probes: nat)

  // The inner loop, from `waited` on: when it is left, what it counted, the probes used up.
  function Settle(t: real, waited: nat, probe: Probes, k: nat): (r: (real, nat, nat))
    requires waited % 2 == 0 && waited <= SETTLE
    ensures r.1 <= SETTLE
    decreases SETTLE - waited
  {
    if waited == SETTLE then (t, waited, k)
    else if !probe(k).good then (t + probe(k).took, waited, k + 1)
    else Settle(t + probe(k).took + 2.0, waited + 2, probe, k + 1)
  }

  // What the rest of the inner loop takes at most.
  function SettleTime(waited: nat, c: real): real
    decreases SETTLE - waited
  {
    if waited >= SETTLE then 0.0 else c + 2.0 + SettleTime(waited + 2, c)
  }

  lemma FullSettleTime(c: real)
    ensures SettleTime(0, c) == 30.0 + 15.0 * c
  {
    assert SettleTime(20, c) == 10.0 + 5.0 * c by {
      assert SettleTime(26, c) == 4.0 + 2.0 * c;
      assert SettleTime(22, c) == 8.0 + 4.0 * c;
    }
    assert SettleTime(16, c) == 14.0 + 7.0 * c;
    assert SettleTime(12, c) == 18.0 + 9.0 * c;
    assert SettleTime(8, c) == 22.0 + 11.0 * c;
    assert SettleTime(4, c) == 26.0 + 13.0 * c;
  }

  lemma {:induction false} SettleBound(t: real, waited: nat, probe: Probes, k: nat, c: real)
    requires waited % 2 == 0 && waited <= SETTLE && Quick(probe, c)
    ensures t <= Settle(t, waited, probe, k).0 <= t + SettleTime(waited, c)
    decreases SETTLE - waited
  {
    if waited < SETTLE {
      var p := probe(k);
      if p.good {
        SettleBound(t + p.took + 2.0, waited + 2, probe, k + 1, c);
      } else {
        SettleTimePositive(waited + 2, c);
      }
    }
  }

  lemma {:induction false} SettleTimePositive(waited: nat, c: real)
    requires c >= 0.0
    ensures SettleTime(waited, c) >= 0.0
    decreases SETTLE - waited
  {
    if waited < SETTLE {
      SettleTimePositive(waited + 2, c);
    }
  }

  // One turn of the outer loop at `t`: whether it returns, and when the next one starts.
  function Turn(t: real, probe: Probes, k: nat): Waited {
    var p := probe(k);
    if !p.good then Waited(false, t + p.took + 2.0, k + 1)
    else
      var (t1, waited, k1) := Settle(t + p.took, 0, probe, k + 1);
      if waited < SETTLE then Waited(false, t1 + 2.0, k1)
      else if probe(k1).good then Waited(true, t1 + probe(k1).took, k1 + 1)
      else Waited(false, t1 + probe(k1).took + 2.0, k1 + 1)
  }

  lemma TurnBound(t: real, probe: Probes, k: nat, c: real)
    requires Quick(probe, c)
    ensures var r := Turn(t, probe, k);
            && t <= r.time <= t + 32.0 + 17.0 * c
            && (!r.ok ==> t + 2.0 <= r.time)
  {
    SettleBound(t + probe(k).took, 0, probe, k + 1, c);
    FullSettleTime(c);
    hide Settle, SettleTime;
  }

  // The outer loop of `wait_healthy`, until the clock shows `end` whole seconds.
  ghost function Wait(end: int, t: real, probe: Probes, k: nat, c: real): Waited
    requires Quick(probe, c)
    decreases end - t.Floor
  {
    if t.Floor >= end then Waited(false, t, k)
    else
      TurnBound(t, probe, k, c);
      var r := Turn(t, probe, k);
      if r.ok then r else Wait(end, r.time, probe, r.probes, c)
  }

  // The inner loop.
  method SettleLoop(start: real, probe: Probes, from_: nat) returns (now: real, waited: nat, k: nat)
    ensures (now, waited, k) == Settle(start, 0, probe, from_)
  {
    now, waited, k := start, 0, from_;
    while waited < SETTLE
      invariant waited % 2 == 0 && waited <= SETTLE
      invariant Settle(now, waited, probe, k) == Settle(start, 0, probe, from_)
    {
      var stable := probe(k);
      if !stable.good {
        return now + stable.took, waited, k + 1;
      }
      now, waited, k := now + stable.took + 2.0, waited + 2, k + 1;
    }
  }

  // The body of the outer loop.
  method TakeTurn(start: real, probe: Probes, from_: nat) returns (ok: bool, now: real, k: nat)
    ensures Waited(ok, now, k) == Turn(start, probe, from_)
  {
    hide Settle;
    var healthy := probe(from_);
    ok, now, k := false, start + healthy.took, from_ + 1;
    if healthy.good {
      var waited;
      now, waited, k := SettleLoop(now, probe, k);
      if waited >= SETTLE {
        var stable := probe(k);
        now, k := now + stable.took, k + 1;
        if stable.good {
          return true, now, k;
        }
      }
    }
    now := now + 2.0;
  }

  // `wait_healthy`.
  method WaitHealthy(start: real, probe: Probes, from_: nat, ghost c: real) returns (ok: bool, now: real, k: nat)
    requires Quick(probe, c)
    ensures Waited(ok, now, k) == Wait(start.Floor + HEALTH_WAIT, start, probe, from_, c)
    ensures start <= now < start + 122.0 + 17.0 * c
  {
    WaitBound(start.Floor + HEALTH_WAIT, start, probe, from_, c);
    hide Turn;
    ok, now, k := false, start, from_;
    var end := start.Floor + HEALTH_WAIT;
    while now.Floor < end
      invariant Wait(end, now, probe, k, c) == Wait(end, start, probe, from_, c)
      decreases end - now.Floor
    {
      TurnBound(now, probe, k, c);
      ok, now, k := TakeTurn(now, probe, k);
      if ok {
        return;
      }
    }
  }

  // A wait ends less than 32 s and 17 probes after its last turn may start.
  lemma {:induction false} WaitBound(end: int, t: real, probe: Probes, k: nat, c: real)
    requires Quick(probe, c)
    ensures t <= Wait(end, t, probe, k, c).time
    ensures t.Floor < end ==> Wait(end, t, probe, k, c).time < end as real + 32.0 + 17.0 * c
    ensures t.Floor >= end ==> Wait(end, t, probe, k, c).time == t
    decreases end - t.Floor
  {
    if t.Floor < end {
      TurnBound(t, probe, k, c);
      var r := Turn(t, probe, k);
      if !r.ok {
        WaitBound(end, r.time, probe, r.probes, c);
      }
    }
  }

  // --- what a good verdict stands for ---------------------------------------------------------------

  lemma {:induction false} SettledIff(t: real, waited: nat, probe: Probes, k: nat)
    requires waited % 2 == 0 && waited <= SETTLE
    ensures var (_, counted, used) := Settle(t, waited, probe, k);
            && (counted == SETTLE <==> forall i :: k <= i < k + (SETTLE - waited) / 2 ==> probe(i).good)
            && (counted == SETTLE ==> used == k + (SETTLE - waited) / 2)
    decreases SETTLE - waited
  {
    if waited < SETTLE && probe(k).good {
      SettledIff(t + probe(k).took + 2.0, waited + 2, probe, k + 1);
    }
  }

  // A turn returns exactly when 17 probes in a row are good: the first, 15 while it settles, a last.
  lemma TurnIff(t: real, probe: Probes, k: nat)
    ensures var r := Turn(t, probe, k);
            && (r.ok <==> forall i :: k <= i < k + 17 ==> probe(i).good)
            && (r.ok ==> r.probes == k + 17)
  {
    SettledIff(t + probe(k).took, 0, probe, k + 1);
    assert SETTLE / 2 == 15;
    hide Settle;
  }

  // So a wait says healthy only after 17 good probes in a row, and gives up only once its time is over.
  lemma {:induction false} VerdictMeans(end: int, t: real, probe: Probes, k: nat, c: real)
    requires Quick(probe, c)
    ensures var r := Wait(end, t, probe, k, c);
            if r.ok then r.probes >= k + 17 && forall i :: r.probes - 17 <= i < r.probes ==> probe(i).good
            else r.time.Floor >= end
    decreases end - t.Floor
  {
    if t.Floor < end {
      TurnBound(t, probe, k, c);
      TurnIff(t, probe, k);
      TurnUses(t, probe, k);
      var r := Turn(t, probe, k);
      hide Turn;
      if !r.ok {
        VerdictMeans(end, r.time, probe, r.probes, c);
      }
    }
  }

  lemma {:induction false} SettleUses(t: real, waited: nat, probe: Probes, k: nat)
    requires waited % 2 == 0 && waited <= SETTLE
    ensures Settle(t, waited, probe, k).2 >= k
    decreases SETTLE - waited
  {
    if waited < SETTLE && probe(k).good {
      SettleUses(t + probe(k).took + 2.0, waited + 2, probe, k + 1);
    }
  }

  lemma TurnUses(t: real, probe: Probes, k: nat)
    ensures Turn(t, probe, k).probes >= k
  {
    SettleUses(t + probe(k).took, 0, probe, k + 1);
    hide Settle;
  }

  // --- the whole script --------------------------------------------------------------------------

  /** The commands around the waits: two restarts, git's two, pip. */
  datatype Commands = Commands(restart: real, look: real, reset: real, pip: real, again: real)

  ghost predicate Within(cmds: Commands, r: real, g: real) {
    && 0.0 <= cmds.restart <= r && 0.0 <= cmds.again <= r
    && 0.0 <= cmds.look && 0.0 <= cmds.reset && cmds.look + cmds.reset <= g
    && 0.0 <= cmds.pip <= PIP_TIMEOUT
  }

  // What a watchdog launched at `start` does when: after a bad first wait it looks at HEAD,
  // resets it, reinstalls, restarts and waits again.
  ghost function Script(start: real, cmds: Commands, probe: Probes, c: real): W.Plan
    requires Quick(probe, c)
  {
    var t0 := start + DELAY + cmds.restart;
    var first := Wait(t0.Floor + HEALTH_WAIT, t0, probe, 0, c);
    if first.ok then W.Plan(start, first.time, true, first.time, first.time, first.time)
    else
      var compared := first.time + cmds.look;
      var reset := compared + cmds.reset;
      var t1 := reset + cmds.pip + cmds.again;
      W.Plan(start, first.time, false, compared, reset, Wait(t1.Floor + HEALTH_WAIT, t1, probe, first.probes, c).time)
  }

  function Ceiling(x: real): int {
    -((-x).Floor)
  }

  // Everything but the first wait and restart: what it takes to the start of the second wait.
  function Middle(c: real, r: real, g: real): real {
    1022.0 + 17.0 * c + g + r
  }

  // What the age of the launching second never reaches while a watchdog lives, for probes of at
  // most `c`, restarts of at most `r` and git commands of at most `g` seconds. Both the status
  // and the waits go by whole seconds.
  function Longest(c: real, r: real, g: real): real {
    (Ceiling(Middle(c, r, g)) - 1 + Ceiling(r)) as real + 127.0 + 17.0 * c
  }

  // The same of the age of the watchdog itself.
  function LongestLife(c: real, r: real, g: real): real {
    (Ceiling(Middle(c, r, g)) - 1) as real + r + 127.0 + 17.0 * c
  }

  lemma FloorBelow(x: real, n: int, a: real)
    requires x < n as real + a
    ensures x.Floor <= n + Ceiling(a) - 1
  {
  }

  // No watchdog lives as long as that, and its steps come in order.
  lemma LifeBound(start: real, cmds: Commands, probe: Probes, c: real, r: real, g: real)
    requires Quick(probe, c) && Within(cmds, r, g) && c >= 0.0
    ensures var p := Script(start, cmds, probe, c);
            && p.started == start && W.InOrder(p)
            && p.finish - start.Floor as real < Longest(c, r, g)
            && p.finish - start < LongestLife(c, r, g)
  {
    hide Wait, Quick;
    var t0 := start + DELAY + cmds.restart;
    WaitBound(t0.Floor + HEALTH_WAIT, t0, probe, 0, c);
    FloorBelow(t0, start.Floor, 6.0 + r);
    assert t0.Floor <= start.Floor + 5 + Ceiling(r);
    var first := Wait(t0.Floor + HEALTH_WAIT, t0, probe, 0, c);
    if first.ok {
      assert Ceiling(Middle(c, r, g)) >= 1022;
    } else {
      var t1 := first.time + cmds.look + cmds.reset + cmds.pip + cmds.again;
      WaitBound(t1.Floor + HEALTH_WAIT, t1, probe, first.probes, c);
      assert t1 < t0.Floor as real + Middle(c, r, g);
      FloorBelow(t1, t0.Floor, Middle(c, r, g));
      var second := Wait(t1.Floor + HEALTH_WAIT, t1, probe, first.probes, c).time;
      assert second < (t1.Floor + HEALTH_WAIT) as real + 32.0 + 17.0 * c;
    }
  }

  // --- the bound is exact -----------------------------------------------------------------------

  lemma {:induction false} SettleGood(t: real, waited: nat, probe: Probes, k: nat, c: real)
    requires waited % 2 == 0 && waited <= SETTLE
    requires forall i :: k <= i < k + (SETTLE - waited) / 2 ==> probe(i) == Probe(true, c)
    ensures Settle(t, waited, probe, k) == (t + SettleTime(waited, c), SETTLE, k + (SETTLE - waited) / 2)
    decreases SETTLE - waited
  {
    if waited < SETTLE {
      assert probe(k) == Probe(true, c);
      SettleGood(t + c + 2.0, waited + 2, probe, k + 1, c);
    }
  }

  function Times(n: nat, x: real): real {
    if n == 0 then 0.0 else x + Times(n - 1, x)
  }

  lemma {:induction false} TimesIs(n: nat, x: real)
    ensures Times(n, x) == n as real * x
    ensures x >= 0.0 ==> Times(n, x) >= 0.0
  {
    if n > 0 {
      TimesIs(n - 1, x);
      assert n as real * x == (n - 1) as real * x + x;
    }
  }

  lemma DownTurn(end: int, t: real, probe: Probes, k: nat, d: real, c: real)
    requires Quick(probe, c) && t.Floor < end && probe(k) == Probe(false, d)
    ensures Wait(end, t, probe, k, c) == Wait(end, t + (2.0 + d), probe, k + 1, c)
  {
    hide Settle, Quick;
    assert Turn(t, probe, k) == Waited(false, t + (2.0 + d), k + 1);
    hide Turn;
  }

  // `n` turns that each find the server down.
  lemma {:induction false} DownTurns(end: int, t: real, probe: Probes, k: nat, n: nat, d: real, c: real)
    requires Quick(probe, c) && d >= 0.0 && (n > 0 ==> t + Times(n - 1, 2.0 + d) < end as real)
    requires forall i :: k <= i < k + n ==> probe(i) == Probe(false, d)
    ensures Wait(end, t, probe, k, c) == Wait(end, t + Times(n, 2.0 + d), probe, k + n, c)
    decreases n
  {
    hide Wait, Quick;
    if n > 0 {
      TimesIs(n - 1, 2.0 + d);
      DownTurn(end, t, probe, k, d, c);
      DownTurns(end, t + (2.0 + d), probe, k + 1, n - 1, d, c);
    }
  }

  // A turn that finds the server up and stays with it until the last look.
  lemma LateTurn(t: real, probe: Probes, k: nat, c: real)
    requires forall i :: k <= i < k + 16 ==> probe(i) == Probe(true, c)
    requires probe(k + 16) == Probe(false, c)
    ensures Turn(t, probe, k) == Waited(false, t + 32.0 + 17.0 * c, k + 17)
  {
    assert probe(k) == Probe(true, c);
    SettleGood(t + c, 0, probe, k + 1, c);
    FullSettleTime(c);
    hide Settle, SettleTime;
  }

  // `n` turns of a server that is down, then one just before the end that is strung along.
  ghost predicate Stubborn(probe: Probes, k: nat, n: nat, d: real, c: real) {
    && (forall i :: k <= i < k + n ==> probe(i) == Probe(false, d))
    && (forall i :: k + n <= i < k + n + 16 ==> probe(i) == Probe(true, c))
    && probe(k + n + 16) == Probe(false, c)
  }

  lemma StubbornWait(end: int, t: real, probe: Probes, k: nat, n: nat, d: real, c: real)
    requires Quick(probe, c) && c >= 0.0 && d >= 0.0 && n > 0 && Stubborn(probe, k, n, d, c)
    requires var last := t + Times(n, 2.0 + d); end as real - 1.0 <= last < end as real
    ensures Wait(end, t, probe, k, c) == Waited(false, t + Times(n, 2.0 + d) + 32.0 + 17.0 * c, k + n + 17)
  {
    hide Wait, Turn, Quick;
    var last := t + Times(n, 2.0 + d);
    DownTurns(end, t, probe, k, n, d, c);
    LateTurn(last, probe, k + n, c);
    LastTurn(end, last, probe, k + n, c);
  }

  // A turn that starts before the end and finishes after it is the last one.
  lemma LastTurn(end: int, t: real, probe: Probes, k: nat, c: real)
    requires Quick(probe, c) && t < end as real
    requires var r := Turn(t, probe, k); !r.ok && r.time >= end as real
    ensures Wait(end, t, probe, k, c) == Turn(t, probe, k)
  {
    hide Turn, Quick;
    var r := Turn(t, probe, k);
    TurnBound(t, probe, k, c);
    assert t.Floor < end && r.time.Floor >= end;
    assert Wait(end, r.time, probe, r.probes, c) == Waited(false, r.time, r.probes);
  }

  function Slow(n: nat, d1: real, d2: real, c: real): Probes {
    (k: nat) =>
      if k < n then Probe(false, d1)
      else if k < n + 16 then Probe(true, c)
      else if k == n + 16 then Probe(false, c)
      else if k < n + 17 + n then Probe(false, d2)
      else if k < n + 17 + n + 16 then Probe(true, c)
      else Probe(false, c)
  }

  lemma SlowIsStubborn(n: nat, d1: real, d2: real, c: real)
    requires 0.0 <= d1 <= c && 0.0 <= d2 <= c
    ensures Quick(Slow(n, d1, d2, c), c)
    ensures Stubborn(Slow(n, d1, d2, c), 0, n, d1, c) && Stubborn(Slow(n, d1, d2, c), n + 17, n, d2, c)
  {
  }

  // How many turns on a server that is down fill a wait, and how long each of their probes takes.
  function IdleTurns(c: real): nat {
    if c >= 0.1 then 43 else 44
  }

  lemma Idle(c: real, total: real) returns (d: real)
    requires c >= 0.05 && 89.0 <= total <= 90.0
    ensures 0.0 <= d <= c && Times(IdleTurns(c), 2.0 + d) == total
  {
    if c >= 0.1 {
      d := total / 43.0 - 2.0;
      TimesIs(43, 2.0 + d);
    } else {
      d := total / 44.0 - 2.0;
      TimesIs(44, 2.0 + d);
    }
  }

  // Some watchdog that rolls back comes as close to the bound as one likes.
  lemma LongLife(c: real, r: real, g: real, spare: real) returns (start: real, cmds: Commands, probe: Probes)
    requires c >= 0.05 && r >= 0.0 && g >= 0.0 && 0.0 < spare <= 0.5
    ensures Quick(probe, c) && Within(cmds, r, g)
    ensures var p := Script(start, cmds, probe, c);
            !p.healthy && p.finish - start.Floor as real == Longest(c, r, g) - spare
  {
    var a, n := Middle(c, r, g), IdleTurns(c);
    var whole := Ceiling(a) - 1;
    var part := (a - whole as real) / 2.0;
    assert 0.0 < part <= 0.5;
    var s0 := 5 + Ceiling(r);
    start := s0 as real - DELAY - r;
    assert start.Floor == 0;
    cmds := Commands(r, 0.0, g, PIP_TIMEOUT, r);
    var d1 := Idle(c, 90.0 - part);
    var d2 := Idle(c, 90.0 - part - spare);
    probe := Slow(n, d1, d2, c);
    SlowIsStubborn(n, d1, d2, c);
    hide Slow, Quick, Stubborn, Wait, Times, IdleTurns;
    StubbornWait(s0 + HEALTH_WAIT, s0 as real, probe, 0, n, d1, c);
    var t1 := s0 as real + a - part;
    assert t1.Floor == s0 + whole;
    StubbornWait(s0 + whole + HEALTH_WAIT, t1, probe, n + 17, n, d2, c);
  }

  // --- against the window -------------------------------------------------------------------------

  ghost predicate IsLife(p: W.Plan, c: real, r: real, g: real) {
    exists start, cmds, probe: Probes :: Follows(p, start, cmds, probe, c, r, g)
  }

  ghost predicate Follows(p: W.Plan, start: real, cmds: Commands, probe: Probes, c: real, r: real, g: real) {
    Quick(probe, c) && Within(cmds, r, g) && p == Script(start, cmds, probe, c)
  }

  // All that the script may do.
  ghost function ScriptLives(c: real, r: real, g: real): W.Lives {
    iset p: W.Plan | IsLife(p, c, r, g)
  }

  lemma ScriptBound(p: W.Plan, c: real, r: real, g: real)
    requires IsLife(p, c, r, g) && c >= 0.0
    ensures W.InOrder(p)
    ensures p.finish - p.started.Floor as real < Longest(c, r, g) && p.finish - p.started < LongestLife(c, r, g)
  {
    var start, cmds, probe: Probes :| Follows(p, start, cmds, probe, c, r, g);
    hide Longest, LongestLife, Script, Quick, Within, W.InOrder;
    LifeBound(start, cmds, probe, c, r, g);
  }

  // A server that never answers gets its watchdog to roll back.
  lemma {:induction false} DownWait(end: int, t: real, probe: Probes, k: nat, c: real)
    requires Quick(probe, c) && forall i :: probe(i) == Probe(false, 0.0)
    ensures !Wait(end, t, probe, k, c).ok
    decreases end - t.Floor
  {
    if t.Floor < end {
      assert probe(k) == Probe(false, 0.0);
      DownWait(end, t + 2.0, probe, k + 1, c);
    }
  }

  lemma RollsBack(t: real, c: real, r: real, g: real)
    requires c >= 0.0 && r >= 0.0 && g >= 0.0
    ensures W.RollbackAt(ScriptLives(c, r, g), t)
  {
    var probe: Probes := (k: nat) => Probe(false, 0.0);
    var cmds := Commands(0.0, 0.0, 0.0, 0.0, 0.0);
    var t0 := t + DELAY + cmds.restart;
    DownWait(t0.Floor + HEALTH_WAIT, t0, probe, 0, c);
    var p := Script(t, cmds, probe, c);
    assert Follows(p, t, cmds, probe, c, r, g);
    assert W.LaunchedAt(ScriptLives(c, r, g), p, t);
  }

  lemma ScriptLivesAre(c: real, r: real, g: real)
    requires c >= 0.0 && r >= 0.0 && g >= 0.0
    ensures W.AllInOrder(ScriptLives(c, r, g)) && W.RollbackAnyTime(ScriptLives(c, r, g))
  {
    hide W.InOrder, W.RollbackAt, IsLife;
    forall p | p in ScriptLives(c, r, g) ensures W.InOrder(p) {
      ScriptBound(p, c, r, g);
    }
    forall t: real ensures W.RollbackAt(ScriptLives(c, r, g), t) {
      RollsBack(t, c, r, g);
    }
  }

  // No watchdog outlives its window exactly when `Longest` does not.
  lemma FitsIff(c: real, r: real, g: real)
    requires c >= 0.05 && r >= 0.0 && g >= 0.0
    ensures W.AllInWindow(ScriptLives(c, r, g)) <==> Longest(c, r, g) <= WATCHDOG_WINDOW as real
  {
    var excess := Longest(c, r, g) - WATCHDOG_WINDOW as real;
    hide Longest, Script, Quick, Within;
    if excess <= 0.0 {
      FitsIf(c, r, g);
    } else {
      var start, cmds, probe := LongLife(c, r, g, if excess < 0.5 then excess else 0.5);
      var p := Script(start, cmds, probe, c);
      assert Follows(p, start, cmds, probe, c, r, g);
      assert p.started == start by { LifeBound(start, cmds, probe, c, r, g); }
      assert p in ScriptLives(c, r, g) && !W.InWindow(p);
    }
  }

  lemma FitsIf(c: real, r: real, g: real)
    requires c >= 0.0 && Longest(c, r, g) <= WATCHDOG_WINDOW as real
    ensures W.AllInWindow(ScriptLives(c, r, g))
  {
    hide Longest, LongestLife, IsLife, W.InOrder;
    forall p | p in ScriptLives(c, r, g) ensures W.InWindow(p) {
      ScriptBound(p, c, r, g);
    }
  }

  // So updates and the watchdogs of this script keep out of each other's way, and tell the truth,
  // exactly then.
  lemma ScriptSoundIff(c: real, r: real, g: real)
    requires c >= 0.05 && r >= 0.0 && g >= 0.0
    ensures W.AlwaysOwn(ScriptLives(c, r, g)) <==> Longest(c, r, g) <= WATCHDOG_WINDOW as real
    ensures W.AlwaysHonest(ScriptLives(c, r, g)) <==> Longest(c, r, g) <= WATCHDOG_WINDOW as real
  {
    hide *;
    FitsIff(c, r, g);
    ScriptLivesAre(c, r, g);
    W.OwnIff(ScriptLives(c, r, g));
    W.HonestIff(ScriptLives(c, r, g));
  }

  // It is so when probes, restarts and git commands are quick enough together ...
  lemma QuickEnough(c: real, r: real, g: real)
    requires c >= 0.0 && r >= 0.0 && g >= 0.0 && 34.0 * c + 2.0 * r + g <= 80.0
    ensures W.AlwaysOwn(ScriptLives(c, r, g)) && W.AlwaysHonest(ScriptLives(c, r, g))
  {
    assert Longest(c, r, g) <= WATCHDOG_WINDOW as real;
    hide *;
    FitsIf(c, r, g);
    ScriptLivesAre(c, r, g);
    W.InWindowSound(ScriptLives(c, r, g));
  }

  // ... and not when probes may take 3 s, however quick the rest: a status can be almost 1250 s
  // old when its watchdog has its last word.
  lemma TimeoutsTooLong(r: real, g: real)
    requires r >= 0.0 && g >= 0.0
    ensures Longest(3.0, r, g) >= 1250.0
    ensures !W.AlwaysOwn(ScriptLives(3.0, r, g)) && !W.AlwaysHonest(ScriptLives(3.0, r, g))
  {
    assert Longest(3.0, r, g) >= 1250.0;
    hide *;
    ScriptSoundIff(3.0, r, g);
  }

  // Nor is it enough that every watchdog is done within a window of its own launch: the status
  // keeps whole seconds, so its window is over up to a second earlier.
  lemma TruncatedSecond()
    ensures var lives := ScriptLives(0.2, 0.5, 74.0);
            && (forall p :: p in lives ==> p.finish < p.started + WATCHDOG_WINDOW as real)
            && !W.AlwaysOwn(lives) && !W.AlwaysHonest(lives)
  {
    assert Longest(0.2, 0.5, 74.0) > WATCHDOG_WINDOW as real >= LongestLife(0.2, 0.5, 74.0);
    hide Longest, LongestLife, IsLife, W.AlwaysOwn, W.AlwaysHonest;
    forall p | p in ScriptLives(0.2, 0.5, 74.0) ensures p.finish < p.started + WATCHDOG_WINDOW as real {
      ScriptBound(p, 0.2, 0.5, 74.0);
    }
    ScriptSoundIff(0.2, 0.5, 74.0);
  }
}
