/** Chat turns against the budget (`dashboard/app.py`): a turn is checked before it starts
    and billed when it ends, with any number of turns in between. */
module BudgetRuns {
  import opened Prelude
  import opened Usage

  /** What a turn will cost is fixed when it is admitted and known when it ends. */
  datatype Turn = Turn(cost: real)

  datatype World = World(
    ledger: seq<Event>,
    row: Option<Session>,
    inFlight: seq<Turn>,
    clock: real,
    // What was in flight when the latest admitted turn was checked, that turn included.
    pending: seq<Turn>)

  datatype Op =
    | Admit(turn: Turn, now: real)       // check_budget, then the engine starts
    | Bill(k: nat, now: real)            // record_turn of the k-th turn in flight
    | Abandon(k: nat)                    // it ended without a usage record

  const START := World([], None, [], 0.0, [])

  function Sum(turns: seq<Turn>): real {
    if turns == [] then 0.0 else Sum(Init(turns)) + Last(turns).cost
  }

  function Without(turns: seq<Turn>, k: nat): seq<Turn>
    requires k < |turns|
  {
    turns[..k] + turns[k + 1..]
  }

  ghost predicate Legal(w: World, op: Op) {
    match op
    case Admit(turn, now) => turn.cost >= 0.0 && w.clock <= now
    case Bill(k, now) => k < |w.inFlight| && w.clock <= now
    case Abandon(k) => k < |w.inFlight|
  }

  function Step(b: Budget, w: World, op: Op): World {
    match op
    case Admit(turn, now) =>
      if CheckBudget(b, w.row, w.ledger, now).Some? then w.(clock := now)
      else w.(inFlight := w.inFlight + [turn], clock := now, pending := w.inFlight + [turn])
    case Bill(k, now) =>
      if k >= |w.inFlight| then w
      else
        var c := w.inFlight[k].cost;
        World(w.ledger + [Event(now, c)], Some(Applied(w.row, now, c)), Without(w.inFlight, k), now, w.pending)
    case Abandon(k) =>
      if k >= |w.inFlight| then w else w.(inFlight := Without(w.inFlight, k))
  }

  ghost predicate LegalRun(b: Budget, w: World, ops: seq<Op>)
    decreases |ops|
  {
    ops == [] || (Legal(w, ops[0]) && LegalRun(b, Step(b, w, ops[0]), ops[1..]))
  }

  function Run(b: Budget, w: World, ops: seq<Op>): World
    decreases |ops|
  {
    if ops == [] then w else Run(b, Step(b, w, ops[0]), ops[1..])
  }

  lemma {:induction false} SumWithout(turns: seq<Turn>, k: nat)
    requires k < |turns|
    ensures Sum(Without(turns, k)) == Sum(turns) - turns[k].cost
  {
    if k < |turns| - 1 {
      SumWithout(Init(turns), k);
      assert Init(Without(turns, k)) == Without(Init(turns), k);
      assert Last(Without(turns, k)) == Last(turns);
    } else {
      assert Without(turns, k) == Init(turns);
    }
  }

  lemma SumAppend(turns: seq<Turn>, t: Turn)
    ensures Sum(turns + [t]) == Sum(turns) + t.cost
  {
    InitLast(turns, t);
  }

  ghost predicate Paid(turns: seq<Turn>) {
    forall i :: 0 <= i < |turns| ==> turns[i].cost >= 0.0
  }

  lemma {:induction false} SumNonNegative(turns: seq<Turn>)
    requires Paid(turns)
    ensures Sum(turns) >= 0.0
  {
    if turns != [] {
      SumNonNegative(Init(turns));
    }
  }

  // --- the invariant -----------------------------------------------------------------

  // Recorded spend and what may still be billed stay below the limit plus `pending`, now
  // and at any later moment.
  ghost predicate Below5h(b: Budget, w: World) {
    b.limit5h > 0.0 ==> forall now :: now >= w.clock ==>
        Spent5h(w.row, now) + Sum(w.inFlight) < b.limit5h + Sum(w.pending)
  }

  ghost predicate BelowWeek(b: Budget, w: World) {
    b.limitWeek > 0.0 ==> Since(w.ledger, w.clock - SEVEN_DAYS) + Sum(w.inFlight) < b.limitWeek + Sum(w.pending)
  }

  ghost predicate Inv(b: Budget, w: World) {
    && Below5h(b, w) && BelowWeek(b, w)
    && Paid(w.inFlight) && NonNegative(w.ledger)
    && (w.row.Some? ==> w.row.value.cost >= 0.0)
    && RowMatches(w.row, w.ledger)
  }

  lemma KeepAdmit(b: Budget, w: World, op: Op)
    requires Inv(b, w) && Legal(w, op) && op.Admit?
    ensures Inv(b, Step(b, w, op))
  {
    SinceMonotone(w.ledger, w.clock - SEVEN_DAYS, op.now - SEVEN_DAYS);
    SumAppend(w.inFlight, op.turn);
  }

  // What a billed turn adds to the 5 h figure at any later moment is at most its cost.
  lemma BillAtMost(row: Option<Session>, ts: real, cost: real, now: real)
    requires cost >= 0.0 && ts <= now && (row.Some? ==> row.value.cost >= 0.0)
    ensures Spent5h(Some(Applied(row, ts, cost)), now) <= Spent5h(row, now) + cost
  {
  }

  lemma KeepBill5h(b: Budget, w: World, op: Op)
    requires Inv(b, w) && Legal(w, op) && op.Bill?
    ensures Below5h(b, Step(b, w, op))
  {
    SumWithout(w.inFlight, op.k);
    var cost := w.inFlight[op.k].cost;
    forall now | now >= op.now && b.limit5h > 0.0
      ensures Spent5h(Step(b, w, op).row, now) + Sum(Without(w.inFlight, op.k)) < b.limit5h + Sum(w.pending)
    {
      BillAtMost(w.row, op.now, cost, now);
    }
  }

  lemma KeepBillWeek(b: Budget, w: World, op: Op)
    requires Inv(b, w) && Legal(w, op) && op.Bill?
    ensures BelowWeek(b, Step(b, w, op))
  {
    hide Below5h, RowMatches;
    SumWithout(w.inFlight, op.k);
    SinceMonotone(w.ledger, w.clock - SEVEN_DAYS, op.now - SEVEN_DAYS);
    InitLast(w.ledger, Event(op.now, w.inFlight[op.k].cost));
  }

  lemma KeepBill(b: Budget, w: World, op: Op)
    requires Inv(b, w) && Legal(w, op) && op.Bill?
    ensures Inv(b, Step(b, w, op))
  {
    KeepBill5h(b, w, op);
    KeepBillWeek(b, w, op);
    RowFollows(w.row, w.ledger, Event(op.now, w.inFlight[op.k].cost));
    hide Below5h, BelowWeek, RowMatches;
  }

  lemma KeepAbandon(b: Budget, w: World, op: Op)
    requires Inv(b, w) && Legal(w, op) && op.Abandon?
    ensures Inv(b, Step(b, w, op))
  {
    hide Spent5h, Since, Sum, RowMatches;
    SumWithout(w.inFlight, op.k);
    var left := Without(w.inFlight, op.k);
    forall now | now >= w.clock && b.limit5h > 0.0
      ensures Spent5h(w.row, now) + Sum(left) < b.limit5h + Sum(w.pending)
    {
      assert Spent5h(w.row, now) + Sum(w.inFlight) < b.limit5h + Sum(w.pending);
    }
  }

  lemma StepInv(b: Budget, w: World, op: Op)
    requires Inv(b, w) && Legal(w, op)
    ensures Inv(b, Step(b, w, op))
  {
    hide Inv;
    match op
    case Admit(_, _) => KeepAdmit(b, w, op);
    case Bill(_, _) => KeepBill(b, w, op);
    case Abandon(_) => KeepAbandon(b, w, op);
  }

  lemma {:induction false} RunInv(b: Budget, w: World, ops: seq<Op>)
    requires Inv(b, w) && LegalRun(b, w, ops)
    ensures Inv(b, Run(b, w, ops))
    decreases |ops|
  {
    if ops != [] {
      StepInv(b, w, ops[0]);
      RunInv(b, Step(b, w, ops[0]), ops[1..]);
    }
  }

  // However turns overlap, the recorded spend of either capped window stays below its limit
  // plus the costs of the turns in flight when the latest admitted turn was checked.
  lemma OvershootBound(b: Budget, ops: seq<Op>, now: real)
    requires LegalRun(b, START, ops) && now >= Run(b, START, ops).clock
    ensures var w := Run(b, START, ops);
            && (b.limit5h > 0.0 ==> Spent5h(w.row, now) < b.limit5h + Sum(w.pending))
            && (b.limitWeek > 0.0 ==> Since(w.ledger, now - SEVEN_DAYS) < b.limitWeek + Sum(w.pending))
  {
    RunInv(b, START, ops);
    var w := Run(b, START, ops);
    SumNonNegative(w.inFlight);
    SinceMonotone(w.ledger, w.clock - SEVEN_DAYS, now - SEVEN_DAYS);
  }

  // Every turn was admitted with nothing else in flight.
  ghost predicate OneAtATime(b: Budget, w: World, ops: seq<Op>)
    decreases |ops|
  {
    ops == [] || ((ops[0].Admit? ==> w.inFlight == []) && OneAtATime(b, Step(b, w, ops[0]), ops[1..]))
  }

  lemma {:induction false} PendingAlone(b: Budget, w: World, ops: seq<Op>)
    requires |w.pending| <= 1 && OneAtATime(b, w, ops)
    ensures |Run(b, w, ops).pending| <= 1
    decreases |ops|
  {
    if ops != [] {
      PendingAlone(b, Step(b, w, ops[0]), ops[1..]);
    }
  }

  // Turns run one at a time overshoot a limit by less than one turn.
  lemma SequentialBound(b: Budget, ops: seq<Op>, now: real, dearest: real)
    requires LegalRun(b, START, ops) && OneAtATime(b, START, ops) && now >= Run(b, START, ops).clock
    requires dearest >= 0.0 && forall i :: 0 <= i < |Run(b, START, ops).pending| ==>
        Run(b, START, ops).pending[i].cost <= dearest
    ensures var w := Run(b, START, ops);
            && (b.limit5h > 0.0 ==> Spent5h(w.row, now) < b.limit5h + dearest)
            && (b.limitWeek > 0.0 ==> Since(w.ledger, now - SEVEN_DAYS) < b.limitWeek + dearest)
  {
    OvershootBound(b, ops, now);
    PendingAlone(b, START, ops);
    var p := Run(b, START, ops).pending;
    if p != [] {
      assert p == [] + [p[0]];
      SumAppend([], p[0]);
    }
  }
}
