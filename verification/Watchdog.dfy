/** Updates against the restart watchdogs they leave behind (`updates.py`): two kinds of actor
    on one checkout, kept apart only by the `pending` status and its age. */
module Watchdog {
  import opened Prelude
  import opened Updates

  /** How far the update being applied has got; the lock allows one at a time. */
  datatype Phase =
    | Idle
    | Checked                              // no watchdog was in flight
    | Based(from_: Sha)                    // HEAD was read
    | Merged(from_: Sha, to: Sha)
    | Spawned(from_: Sha, to: Sha)         // its watchdog runs, the status is not written yet

  /** When a watchdog does what: it is launched, has its first health verdict, and if that is bad
      compares HEAD, resets, and has its second verdict. */
  datatype Plan = Plan(started: real, verdict: real, healthy: bool, compared: real, reset: real, finish: real)

  /** The plans that watchdogs may turn out to follow. */
  type Lives = iset<Plan>

  ghost predicate InOrder(p: Plan) {
    p.started <= p.verdict <= p.compared <= p.reset <= p.finish && (p.healthy ==> p.finish == p.verdict)
  }

  ghost predicate AllInOrder(lives: Lives) {
    forall p :: p in lives ==> InOrder(p)
  }

  // Done before the second in which it was launched is a whole window old.
  predicate InWindow(p: Plan) {
    p.finish < (p.started.Floor + WATCHDOG_WINDOW) as real
  }

  ghost predicate AllInWindow(lives: Lives) {
    forall p :: p in lives ==> InWindow(p)
  }

  datatype Stage = Watching | Unhealthy | Confirmed | Undoing | Done

  datatype Dog = Dog(from_: Sha, to: Sha, plan: Plan, stage: Stage)

  /** `own` turns false when a watchdog resets a checkout that is not at its own revision,
      `honest` when one writes an outcome that is not the one reached. */
  datatype World = World(head: Sha, status: Option<Status>, phase: Phase, dogs: seq<Dog>, clock: real,
                         own: bool, honest: bool)

  function Start(head: Sha, since: real): World { World(head, None, Idle, [], since, true, true) }

  datatype Op =
    | Check(now: real)                     // the preflight
    | ReadHead(now: real)
    | Merge(to: Sha, now: real)
    | GiveUp(now: real)                    // the update fails, or is killed, and leaves HEAD alone
    | RollBack(now: real)
    | Spawn(plan: Plan, now: real)
    | WriteStatus(now: real)
    | LeaveUnwatched(now: real)
    | Judge(k: nat, now: real)                      // the first wait for /health
    | CompareHead(k: nat, now: real)
    | Reset(k: nat, done: bool, now: real)
    | JudgeAgain(k: nat, healthy: bool, now: real)  // the second wait
    | Die(k: nat, now: real)                        // it ends without a word

  predicate Alive(d: Dog) { !d.stage.Done? }

  // When a living watchdog acts next.
  function Next(d: Dog): real {
    match d.stage
    case Watching => d.plan.verdict
    case Unhealthy => d.plan.compared
    case Confirmed => d.plan.reset
    case Undoing => d.plan.finish
    case Done => d.plan.finish
  }

  // Whether `outcome` is what a watchdog's checkout has come to.
  predicate Reached(outcome: Outcome, head: Sha, d: Dog) {
    match outcome
    case Healthy => head == d.to
    case RollbackFailed => head == d.to
    case RolledBack => head == d.from_
    case RollbackUnhealthy => head == d.from_
    case Superseded => head != d.to
    case _ => false
  }

  function Write(w: World, k: nat, outcome: Outcome, now: real): World
    requires k < |w.dogs|
  {
    var d := w.dogs[k];
    w.(status := Some(Status(now.Floor, d.from_, d.to, outcome)), dogs := w.dogs[k := d.(stage := Done)],
       clock := now, honest := w.honest && Reached(outcome, w.head, d))
  }

  function At(w: World, k: nat, stage: Stage, now: real): World
    requires k < |w.dogs|
  {
    w.(dogs := w.dogs[k := w.dogs[k].(stage := stage)], clock := now)
  }

  // Watchdog `k` acts when its plan says; its status is written before that, because it first
  // sleeps.
  ghost predicate Due(w: World, k: nat, stage: Stage, now: real) {
    && k < |w.dogs| && w.dogs[k].stage == stage && now == Next(w.dogs[k])
    && !(w.phase.Spawned? && k == |w.dogs| - 1)
  }

  // The clock never runs past what a living watchdog has to do next.
  ghost predicate Legal(lives: Lives, w: World, op: Op) {
    && w.clock <= op.now
    && (forall k :: 0 <= k < |w.dogs| && Alive(w.dogs[k]) ==> op.now <= Next(w.dogs[k]))
    && match op
       case Check(_) => w.phase.Idle?
       case ReadHead(_) => w.phase.Checked?
       case Merge(to, _) => w.phase.Based? && to != w.phase.from_
       case GiveUp(_) => w.phase.Checked? || w.phase.Based? || w.phase.Merged?
       case RollBack(_) => w.phase.Merged?
       case Spawn(plan, now) => w.phase.Merged? && plan in lives && plan.started == now
       case WriteStatus(_) => w.phase.Spawned?
       case LeaveUnwatched(_) => w.phase.Merged?
       case Judge(k, now) => Due(w, k, Watching, now)
       case CompareHead(k, now) => Due(w, k, Unhealthy, now)
       case Reset(k, _, now) => Due(w, k, Confirmed, now)
       case JudgeAgain(k, _, now) => Due(w, k, Undoing, now)
       case Die(k, _) => k < |w.dogs| && Alive(w.dogs[k]) && !(w.phase.Spawned? && k == |w.dogs| - 1)
  }

  function Step(w: World, op: Op): World {
    match op
    case Check(now) =>
      if InFlight(w.status, now) then w.(clock := now) else w.(phase := Checked, clock := now)
    case ReadHead(now) => w.(phase := Based(w.head), clock := now)
    case Merge(to, now) =>
      if w.phase.Based? then w.(phase := Merged(w.phase.from_, to), head := to, clock := now) else w
    case GiveUp(now) => w.(phase := Idle, clock := now)
    case RollBack(now) =>
      if w.phase.Merged? then w.(phase := Idle, head := w.phase.from_, clock := now) else w
    case Spawn(plan, now) =>
      if w.phase.Merged?
      then w.(phase := Spawned(w.phase.from_, w.phase.to),
              dogs := w.dogs + [Dog(w.phase.from_, w.phase.to, plan, Watching)], clock := now)
      else w
    case WriteStatus(now) =>
      if w.phase.Spawned?
      then w.(phase := Idle, status := Some(Status(now.Floor, w.phase.from_, w.phase.to, PendingCheck)), clock := now)
      else w
    case LeaveUnwatched(now) =>
      if w.phase.Merged?
      then w.(phase := Idle, status := Some(Status(now.Floor, w.phase.from_, w.phase.to, Unwatched)), clock := now)
      else w
    case Judge(k, now) =>
      if k >= |w.dogs| then w
      else if w.dogs[k].plan.healthy then Write(w, k, Healthy, now)
      else At(w, k, Unhealthy, now)
    case CompareHead(k, now) =>
      if k >= |w.dogs| then w
      else if w.head != w.dogs[k].to then Write(w, k, Superseded, now)
      else At(w, k, Confirmed, now)
    case Reset(k, done, now) =>
      if k >= |w.dogs| then w
      else if !done then Write(w, k, RollbackFailed, now)
      else At(w, k, Undoing, now).(head := w.dogs[k].from_, own := w.own && w.head == w.dogs[k].to)
    case JudgeAgain(k, healthy, now) =>
      if k >= |w.dogs| then w else Write(w, k, if healthy then RolledBack else RollbackUnhealthy, now)
    case Die(k, now) =>
      if k >= |w.dogs| then w else At(w, k, Done, now)
  }

  ghost predicate LegalRun(lives: Lives, w: World, ops: seq<Op>)
    decreases |ops|
  {
    ops == [] || (Legal(lives, w, ops[0]) && LegalRun(lives, Step(w, ops[0]), ops[1..]))
  }

  function Run(w: World, ops: seq<Op>): World
    decreases |ops|
  {
    if ops == [] then w else Run(Step(w, ops[0]), ops[1..])
  }

  // --- the invariant ------------------------------------------------------------------------

  // The one watchdog that may be alive, and what keeps everyone else off its checkout.
  ghost predicate Guarded(w: World, d: Dog) {
    && InOrder(d.plan) && InWindow(d.plan)
    && w.head == (if d.stage.Undoing? then d.from_ else d.to)
    && (w.phase == Spawned(d.from_, d.to)
        || (&& w.phase.Idle? && w.status.Some? && w.status.value.outcome.PendingCheck?
            && d.plan.started.Floor <= w.status.value.at && w.status.value.at as real <= w.clock))
    && (w.phase.Spawned? ==> d.stage.Watching? && d.plan.started <= w.clock)
  }

  ghost predicate Inv(w: World) {
    && w.own && w.honest
    && (forall k :: 0 <= k < |w.dogs| - 1 ==> !Alive(w.dogs[k]))
    && (if w.dogs != [] && Alive(w.dogs[|w.dogs| - 1]) then Guarded(w, w.dogs[|w.dogs| - 1]) else !w.phase.Spawned?)
    && (w.phase.Based? ==> w.head == w.phase.from_)
    && (w.phase.Merged? ==> w.head == w.phase.to)
  }

  lemma FloorMonotone(x: real, y: real)
    requires x <= y
    ensures x.Floor <= y.Floor && y.Floor as real <= y
  {
  }

  predicate ByDog(op: Op) {
    op.Judge? || op.CompareHead? || op.Reset? || op.JudgeAgain? || op.Die?
  }

  lemma UpdaterInv(lives: Lives, w: World, op: Op)
    requires Inv(w) && Legal(lives, w, op) && AllInOrder(lives) && AllInWindow(lives) && !ByDog(op)
    ensures Inv(Step(w, op))
  {
    if op.WriteStatus? {
      FloorMonotone(w.dogs[|w.dogs| - 1].plan.started, op.now);
    }
  }

  lemma DogInv(lives: Lives, w: World, op: Op)
    requires Inv(w) && Legal(lives, w, op) && ByDog(op)
    ensures Inv(Step(w, op))
  {
  }

  lemma {:induction false} RunInv(lives: Lives, w: World, ops: seq<Op>)
    requires Inv(w) && LegalRun(lives, w, ops) && AllInOrder(lives) && AllInWindow(lives)
    ensures Inv(Run(w, ops))
    decreases |ops|
  {
    if ops != [] {
      if ByDog(ops[0]) {
        DogInv(lives, w, ops[0]);
      } else {
        UpdaterInv(lives, w, ops[0]);
      }
      RunInv(lives, Step(w, ops[0]), ops[1..]);
    }
  }

  // --- what the window buys -------------------------------------------------------------------

  // When every watchdog ends in time, no two are ever alive together, none is alive beside an
  // update that has started, and none finds the checkout moved on.
  lemma OneAtATime(lives: Lives, head: Sha, since: real, ops: seq<Op>, i: nat, j: nat)
    requires AllInOrder(lives) && AllInWindow(lives) && LegalRun(lives, Start(head, since), ops)
    requires var dogs := Run(Start(head, since), ops).dogs; i < |dogs| && j < |dogs| && Alive(dogs[i]) && Alive(dogs[j])
    ensures i == j
    ensures var w := Run(Start(head, since), ops);
            && (w.phase.Idle? || w.phase == Spawned(w.dogs[i].from_, w.dogs[i].to))
            && (!w.dogs[i].stage.Undoing? ==> w.head == w.dogs[i].to)
  {
    RunInv(lives, Start(head, since), ops);
  }

  // --- what an overrun costs --------------------------------------------------------------------

  lemma {:induction false} RunSnoc(lives: Lives, w: World, ops: seq<Op>, op: Op)
    requires LegalRun(lives, w, ops) && Legal(lives, Run(w, ops), op)
    ensures LegalRun(lives, w, ops + [op]) && Run(w, ops + [op]) == Step(Run(w, ops), op)
    decreases |ops|
  {
    hide Legal, Step;
    if ops == [] {
      assert [op][1..] == [];
    } else {
      RunSnoc(lives, Step(w, ops[0]), ops[1..], op);
      assert (ops + [op])[1..] == ops[1..] + [op];
    }
  }

  // Some run leads to the world `w`.
  ghost predicate Reachable(lives: Lives, w: World) {
    exists head, since, ops :: LegalRun(lives, Start(head, since), ops) && Run(Start(head, since), ops) == w
  }

  lemma Reach(lives: Lives, w: World, op: Op, next: World)
    requires Reachable(lives, w) && Legal(lives, w, op) && Step(w, op) == next
    ensures Reachable(lives, next)
  {
    hide Legal, Step;
    var head, since, ops :| LegalRun(lives, Start(head, since), ops) && Run(Start(head, since), ops) == w;
    RunSnoc(lives, Start(head, since), ops, op);
  }

  // An update that finds no watchdog in flight, as far as its merge.
  lemma UpdateMerges(lives: Lives, w: World, to: Sha, now: real)
    requires Reachable(lives, w) && w.phase.Idle? && w.clock <= now && !InFlight(w.status, now) && to != w.head
    requires forall k :: 0 <= k < |w.dogs| && Alive(w.dogs[k]) ==> now <= Next(w.dogs[k])
    ensures Reachable(lives, w.(phase := Merged(w.head, to), head := to, clock := now))
  {
    hide Reachable, InFlight;
    var w1 := w.(phase := Checked, clock := now);
    Reach(lives, w, Check(now), w1);
    var w2 := w1.(phase := Based(w.head));
    Reach(lives, w1, Op.ReadHead(now), w2);
    Reach(lives, w2, Merge(to, now), w2.(phase := Merged(w.head, to), head := to));
  }

  // It launches its watchdog and writes the status, all at `plan.started`.
  lemma UpdateEnds(lives: Lives, w: World, plan: Plan)
    requires Reachable(lives, w) && w.phase.Merged? && plan in lives && InOrder(plan) && w.clock <= plan.started
    requires forall k :: 0 <= k < |w.dogs| && Alive(w.dogs[k]) ==> plan.started <= Next(w.dogs[k])
    ensures Reachable(lives, World(w.head, Some(Status(plan.started.Floor, w.phase.from_, w.phase.to, PendingCheck)),
                                   Idle,
                                   w.dogs + [Dog(w.phase.from_, w.phase.to, plan, Watching)], plan.started, w.own,
                                       w.honest))
  {
    hide Reachable;
    var w1 := w.(phase := Spawned(w.phase.from_, w.phase.to),
                 dogs := w.dogs + [Dog(w.phase.from_, w.phase.to, plan, Watching)], clock := plan.started);
    Reach(lives, w, Spawn(plan, plan.started), w1);
    Reach(lives, w1, WriteStatus(plan.started),
          w1.(phase := Idle, status := Some(Status(plan.started.Floor, w.phase.from_, w.phase.to, PendingCheck))));
  }

  // The stage in which a watchdog writes its last word, and the HEAD it has left by then.
  function LastStage(p: Plan): Stage {
    if p.healthy then Watching else Undoing
  }

  // The first update, its status of second `p.started.Floor`, and its watchdog just before its
  // last word.
  function Waiting(p: Plan): World {
    var head := if p.healthy then "b" else "a";
    World(head, Some(Status(p.started.Floor, "a", "b", PendingCheck)), Idle, [Dog("a", "b", p, LastStage(p))],
          if p.healthy then p.started else p.reset, true, true)
  }

  lemma Launched(lives: Lives, p: Plan)
    requires p in lives && InOrder(p)
    ensures Reachable(lives, World("b", Some(Status(p.started.Floor, "a", "b", PendingCheck)), Idle,
                                   [Dog("a", "b", p, Watching)], p.started, true, true))
  {
    var w0 := Start("a", p.started);
    assert LegalRun(lives, w0, []) && Run(w0, []) == w0;
    assert Reachable(lives, w0);
    hide Reachable;
    UpdateMerges(lives, w0, "b", p.started);
    UpdateEnds(lives, w0.(phase := Merged("a", "b"), head := "b"), p);
  }

  lemma FirstUpdate(lives: Lives, p: Plan)
    requires p in lives && InOrder(p)
    ensures Reachable(lives, Waiting(p))
  {
    hide Reachable;
    Launched(lives, p);
    if !p.healthy {
      var w1 := World("b", Some(Status(p.started.Floor, "a", "b", PendingCheck)), Idle, [Dog("a", "b", p, Watching)],
                      p.started, true, true);
      var w2 := w1.(dogs := [Dog("a", "b", p, Unhealthy)], clock := p.verdict);
      Reach(lives, w1, Judge(0, p.verdict), w2);
      var w3 := w1.(dogs := [Dog("a", "b", p, Confirmed)], clock := p.compared);
      Reach(lives, w2, CompareHead(0, p.compared), w3);
      Reach(lives, w3, Reset(0, true, p.reset), Waiting(p));
    }
  }

  // The last word of an overrunning watchdog comes when its status no longer holds updates off:
  // one merges just before.
  lemma OverrunMerges(lives: Lives, p: Plan)
    requires p in lives && InOrder(p) && !InWindow(p)
    ensures Reachable(lives, Waiting(p).(phase := Merged(Waiting(p).head, "c"), head := "c", clock := p.finish))
  {
    FirstUpdate(lives, p);
    hide Reachable;
    UpdateMerges(lives, Waiting(p), "c", p.finish);
  }

  function LastWord(p: Plan): Op {
    if p.healthy then Judge(0, p.finish) else JudgeAgain(0, true, p.finish)
  }

  // So the outcome it writes is not that of the checkout.
  lemma FalseReport(lives: Lives, p: Plan)
    requires p in lives && InOrder(p) && !InWindow(p)
    ensures exists w :: Reachable(lives, w) && !w.honest
  {
    OverrunMerges(lives, p);
    hide Reachable;
    var w1 := Waiting(p).(phase := Merged(Waiting(p).head, "c"), head := "c", clock := p.finish);
    Reach(lives, w1, LastWord(p), Step(w1, LastWord(p)));
  }

  // And if the second update has launched a watchdog by then, the late word wipes out the status
  // that guards that one.
  function Unguarded(p: Plan, q: Plan): World {
    var outcome := if p.healthy then Healthy else RolledBack;
    World("c", Some(Status(p.finish.Floor, "a", "b", outcome)), Idle,
          [Dog("a", "b", p, Done), Dog(Waiting(p).head, "c", q, Watching)], p.finish, true, false)
  }

  lemma StatusWipedOut(lives: Lives, p: Plan, q: Plan)
    requires p in lives && InOrder(p) && !InWindow(p) && q in lives && InOrder(q) && q.started == p.finish
    ensures Reachable(lives, Unguarded(p, q))
  {
    OverrunMerges(lives, p);
    hide Reachable;
    var w1 := Waiting(p).(phase := Merged(Waiting(p).head, "c"), head := "c", clock := p.finish);
    UpdateEnds(lives, w1, q);
    var w2 := World("c", Some(Status(p.finish.Floor, w1.phase.from_, "c", PendingCheck)), Idle,
                    [Dog("a", "b", p, LastStage(p)), Dog(w1.phase.from_, "c", q, Watching)], p.finish, true, true);
    assert w1.dogs + [Dog(w1.phase.from_, "c", q, Watching)] == w2.dogs;
    Reach(lives, w2, LastWord(p), Unguarded(p, q));
  }

  // A third update slips in between that watchdog's look at HEAD and its reset, and is undone.
  lemma StrayReset(lives: Lives, p: Plan, q: Plan)
    requires p in lives && InOrder(p) && !InWindow(p)
    requires q in lives && InOrder(q) && q.started == p.finish && !q.healthy
    ensures exists w :: Reachable(lives, w) && !w.own
  {
    StatusWipedOut(lives, p, q);
    hide Reachable;
    var w1 := Unguarded(p, q);
    var gone, from_ := Dog("a", "b", p, Done), Waiting(p).head;
    var w2 := w1.(dogs := [gone, Dog(from_, "c", q, Unhealthy)], clock := q.verdict);
    Reach(lives, w1, Judge(1, q.verdict), w2);
    var w3 := w1.(dogs := [gone, Dog(from_, "c", q, Confirmed)], clock := q.compared);
    Reach(lives, w2, CompareHead(1, q.compared), w3);
    UpdateMerges(lives, w3, "d", q.reset);
    var w4 := w3.(phase := Merged("c", "d"), head := "d", clock := q.reset);
    Reach(lives, w4, Reset(1, true, q.reset), Step(w4, Reset(1, true, q.reset)));
  }

  // --- exactly when ---------------------------------------------------------------------------

  // Every interleaving of updates with watchdogs of these lives resets only a watchdog's own
  // revision.
  ghost predicate AlwaysOwn(lives: Lives) {
    forall head, since, ops | LegalRun(lives, Start(head, since), ops) :: Run(Start(head, since), ops).own
  }

  // Every one reports only the outcome reached.
  ghost predicate AlwaysHonest(lives: Lives) {
    forall head, since, ops | LegalRun(lives, Start(head, since), ops) :: Run(Start(head, since), ops).honest
  }

  // A server may be down at any time, so that a watchdog launched then rolls back.
  ghost predicate RollbackAnyTime(lives: Lives) {
    forall t: real :: RollbackAt(lives, t)
  }

  ghost predicate RollbackAt(lives: Lives, t: real) {
    exists q :: LaunchedAt(lives, q, t)
  }

  ghost predicate LaunchedAt(lives: Lives, q: Plan, t: real) {
    q in lives && q.started == t && !q.healthy
  }

  lemma InWindowSound(lives: Lives)
    requires AllInOrder(lives) && AllInWindow(lives)
    ensures AlwaysOwn(lives) && AlwaysHonest(lives)
  {
    forall head, since, ops | LegalRun(lives, Start(head, since), ops)
      ensures Run(Start(head, since), ops).own && Run(Start(head, since), ops).honest
    {
      RunInv(lives, Start(head, since), ops);
    }
  }

  // The reported outcomes can be trusted exactly when no watchdog outlives its window, counted
  // from the whole second in which it was launched.
  lemma HonestIff(lives: Lives)
    requires AllInOrder(lives)
    ensures AlwaysHonest(lives) <==> AllInWindow(lives)
  {
    if AllInWindow(lives) {
      InWindowSound(lives);
    } else {
      var p :| p in lives && !InWindow(p);
      FalseReport(lives, p);
    }
  }

  // And so is it with the resets: an overrunning watchdog is itself harmless by then, but not
  // what it does to the status of the next one.
  lemma OwnIff(lives: Lives)
    requires AllInOrder(lives) && RollbackAnyTime(lives)
    ensures AlwaysOwn(lives) <==> AllInWindow(lives)
  {
    if AllInWindow(lives) {
      InWindowSound(lives);
    } else {
      var p :| p in lives && !InWindow(p);
      assert RollbackAt(lives, p.finish);
      var q :| LaunchedAt(lives, q, p.finish);
      StrayReset(lives, p, q);
    }
  }
}
