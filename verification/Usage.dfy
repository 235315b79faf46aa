/** Usage accounting (`usage.py`): the immutable ledger, the live 5 h row kept beside it, and
    the budget check that admits chat turns. */
module Usage {
  import opened Prelude

  const FIVE_HOURS := 18000.0
  const SEVEN_DAYS := 604800.0

  datatype Event = Event(ts: real, cost: real)
  datatype Session = Session(startedAt: real, lastEventAt: real, cost: real)

  // `_apply_to_session`.
  function Applied(row: Option<Session>, ts: real, cost: real): Session {
    if row.None? then Session(ts, ts, cost)
    else if ts - row.value.startedAt >= FIVE_HOURS then Session(ts, ts, cost)
    else Session(row.value.startedAt, ts, row.value.cost + cost)
  }

  // --- the ledger, segmented ----------------------------------------------------------

  function Total(ledger: seq<Event>): real {
    if ledger == [] then 0.0 else Total(ledger[..|ledger| - 1]) + ledger[|ledger| - 1].cost
  }

  // Cost of the events at or after `from_`.
  function Since(ledger: seq<Event>, from_: real): real {
    if ledger == [] then 0.0
    else
      var e := ledger[|ledger| - 1];
      Since(ledger[..|ledger| - 1], from_) + if e.ts >= from_ then e.cost else 0.0
  }

  function Last<T>(s: seq<T>): T
    requires s != []
  {
    s[|s| - 1]
  }

  function Init<T>(s: seq<T>): seq<T>
    requires s != []
  {
    s[..|s| - 1]
  }

  // An event joins the last window while it lies within five hours of the window's start.
  function Extend(segments: seq<seq<Event>>, e: Event): seq<seq<Event>> {
    if segments != [] && Last(segments) != [] && e.ts - Last(segments)[0].ts < FIVE_HOURS
    then Init(segments) + [Last(segments) + [e]]
    else segments + [[e]]
  }

  // The greedy 5 h windows of a ledger.
  function Segments(ledger: seq<Event>): seq<seq<Event>> {
    if ledger == [] then [] else Extend(Segments(Init(ledger)), Last(ledger))
  }

  function Concat(segments: seq<seq<Event>>): seq<Event> {
    if segments == [] then [] else Concat(Init(segments)) + Last(segments)
  }

  // Cost of a list of windows.
  function Costs(segments: seq<seq<Event>>): real {
    if segments == [] then 0.0 else Costs(Init(segments)) + Total(Last(segments))
  }

  lemma TotalAppend(s: seq<Event>, e: Event)
    ensures Total(s + [e]) == Total(s) + e.cost
    ensures Total([e]) == e.cost
  {
    assert (s + [e])[..|s|] == s;
    assert [e][..0] == [];
  }

  lemma InitLast<T>(s: seq<T>, x: T)
    ensures Init(s + [x]) == s && Last(s + [x]) == x
  {
  }

  lemma ExtendTiles(segments: seq<seq<Event>>, e: Event)
    ensures Concat(Extend(segments, e)) == Concat(segments) + [e]
    ensures Costs(Extend(segments, e)) == Costs(segments) + e.cost
  {
    if segments != [] && Last(segments) != [] && e.ts - Last(segments)[0].ts < FIVE_HOURS {
      InitLast(Init(segments), Last(segments) + [e]);
      TotalAppend(Last(segments), e);
      assert Concat(Init(segments)) + (Last(segments) + [e]) == Concat(segments) + [e];
    } else {
      InitLast(segments, [e]);
      TotalAppend([], e);
    }
  }

  lemma {:induction false} SegmentsStep(ledger: seq<Event>)
    requires ledger != []
    ensures Segments(ledger) == Extend(Segments(Init(ledger)), Last(ledger))
    ensures ledger == Init(ledger) + [Last(ledger)]
  {
  }

  // The windows tile the ledger, in order, and their costs sum to its total.
  lemma {:induction false} SegmentsTile(ledger: seq<Event>)
    ensures Concat(Segments(ledger)) == ledger
    ensures Costs(Segments(ledger)) == Total(ledger)
  {
    if ledger != [] {
      SegmentsTile(Init(ledger));
      ExtendTiles(Segments(Init(ledger)), Last(ledger));
      SegmentsStep(ledger);
      TotalAppend(Init(ledger), Last(ledger));
      hide *;
    }
  }

  ghost predicate Chronological(ledger: seq<Event>) {
    forall i, j | 0 <= i <= j < |ledger| :: ledger[i].ts <= ledger[j].ts
  }

  // No window is empty, window starts are at least five hours apart, and every event lies
  // within five hours of the start of its window.
  ghost predicate Spaced(segments: seq<seq<Event>>) {
    && (forall i :: 0 <= i < |segments| ==> segments[i] != [])
    && (forall i, j | 0 <= i < j < |segments| :: segments[j][0].ts - segments[i][0].ts >= FIVE_HOURS)
    && (forall i, k | 0 <= i < |segments| && 0 <= k < |segments[i]|
        :: 0.0 <= segments[i][k].ts - segments[i][0].ts < FIVE_HOURS)
  }

  // The last window opened no later than `ts`.
  ghost predicate OpenBy(segments: seq<seq<Event>>, ts: real) {
    segments == [] || (Last(segments) != [] && Last(segments)[0].ts <= ts)
  }

  lemma ExtendSpaced(segments: seq<seq<Event>>, e: Event)
    requires Spaced(segments) && OpenBy(segments, e.ts)
    ensures Spaced(Extend(segments, e)) && OpenBy(Extend(segments, e), e.ts)
  {
    var after: seq<seq<Event>> := Extend(segments, e);
    var n := |after| - 1;
    assert after[n][0].ts <= e.ts;
    assert forall i :: 0 <= i < n ==> after[i] == segments[i];
    if segments != [] && n == |segments| - 1 {
      assert after[n] == Last(segments) + [e];
    } else if segments != [] {
      assert after[n] == [e] && e.ts - segments[|segments| - 1][0].ts >= FIVE_HOURS;
    }
  }

  lemma {:induction false} SegmentsSpaced(ledger: seq<Event>)
    requires Chronological(ledger)
    ensures Spaced(Segments(ledger))
    ensures ledger != [] ==> Segments(ledger) != [] && OpenBy(Segments(ledger), Last(ledger).ts)
  {
    if ledger != [] {
      SegmentsSpaced(Init(ledger));
      ExtendSpaced(Segments(Init(ledger)), Last(ledger));
    }
  }

  // The row materialises the last window of the ledger.
  ghost predicate RowMatches(row: Option<Session>, ledger: seq<Event>) {
    if ledger == [] then row.None?
    else
      && Segments(ledger) != [] && Last(Segments(ledger)) != []
      && row == Some(Session(Last(Segments(ledger))[0].ts, Last(ledger).ts, Total(Last(Segments(ledger)))))
  }

  lemma RowFollows(row: Option<Session>, ledger: seq<Event>, e: Event)
    requires RowMatches(row, ledger)
    ensures RowMatches(Some(Applied(row, e.ts, e.cost)), ledger + [e])
  {
    InitLast(ledger, e);
    if ledger != [] {
      TotalAppend(Last(Segments(ledger)), e);
    } else {
      TotalAppend([], e);
    }
  }

  // --- the store ------------------------------------------------------------------------

  datatype Budget = Budget(limit5h: real, limitWeek: real)
  datatype Snapshot = Snapshot(spent5h: real, startedAt: Option<real>, resetAt: Option<real>, spentWeek: real)
  datatype Block = FiveHours(spent: real, resetAt: Option<real>) | Week(spent: real)

  function Spent5h(row: Option<Session>, now: real): real {
    if row.None? || now - row.value.startedAt >= FIVE_HOURS then 0.0 else row.value.cost
  }

  function TakeSnapshot(row: Option<Session>, ledger: seq<Event>, now: real): Snapshot {
    var open := row.Some? && now - row.value.startedAt < FIVE_HOURS;
    Snapshot(Spent5h(row, now),
             if open then Some(row.value.startedAt) else None,
             if open then Some(row.value.startedAt + FIVE_HOURS) else None,
             Since(ledger, now - SEVEN_DAYS))
  }

  function CheckBudget(b: Budget, row: Option<Session>, ledger: seq<Event>, now: real): Option<Block> {
    if !(b.limit5h > 0.0 || b.limitWeek > 0.0) then None
    else
      var s := TakeSnapshot(row, ledger, now);
      if b.limit5h > 0.0 && s.spent5h >= b.limit5h then Some(FiveHours(s.spent5h, s.resetAt))
      else if b.limitWeek > 0.0 && s.spentWeek >= b.limitWeek then Some(Week(s.spentWeek))
      else None
  }

  /** The tables, for one client: clients never share a row. */
  class UsageStore {
    const budget: Budget
    var ledger: seq<Event>
    var row: Option<Session>

    ghost predicate Valid() reads this {
      RowMatches(row, ledger)
    }

    constructor (budget: Budget)
      ensures Valid() && this.budget == budget && ledger == []
    {
      this.budget := budget;
      ledger, row := [], None;
    }

    // One transaction: the ledger row and the session row.
    method RecordTurn(ts: real, cost: real)
      requires Valid()
      modifies this
      ensures Valid() && ledger == old(ledger) + [Event(ts, cost)]
      ensures row == Some(Applied(old(row), ts, cost))
    {
      RowFollows(row, ledger, Event(ts, cost));
      ledger := ledger + [Event(ts, cost)];
      if row.None? {
        row := Some(Session(ts, ts, cost));
      } else if ts - row.value.startedAt >= FIVE_HOURS {
        row := Some(Session(ts, ts, cost));
      } else {
        row := Some(row.value.(lastEventAt := ts, cost := row.value.cost + cost));
      }
    }

    // SUM(cost_usd) over the rows of the last seven days.
    method WeekTotal(now: real) returns (total: real)
      ensures total == Since(ledger, now - SEVEN_DAYS)
    {
      total := 0.0;
      for i := 0 to |ledger|
        invariant total == Since(ledger[..i], now - SEVEN_DAYS)
      {
        assert ledger[..i + 1][..i] == ledger[..i];
        if ledger[i].ts >= now - SEVEN_DAYS {
          total := total + ledger[i].cost;
        }
      }
      assert ledger[..|ledger|] == ledger;
    }

    method Check(now: real) returns (block: Option<Block>)
      requires Valid()
      ensures block == CheckBudget(budget, row, ledger, now)
    {
      if !(budget.limit5h > 0.0 || budget.limitWeek > 0.0) {
        return None;
      }
      var week := WeekTotal(now);
      var spent := Spent5h(row, now);
      if budget.limit5h > 0.0 && spent >= budget.limit5h {
        var open := row.Some? && now - row.value.startedAt < FIVE_HOURS;
        return Some(FiveHours(spent, if open then Some(row.value.startedAt + FIVE_HOURS) else None));
      }
      if budget.limitWeek > 0.0 && week >= budget.limitWeek {
        return Some(Week(week));
      }
      return None;
    }
  }

  // --- weekly against 5 h -------------------------------------------------------------------

  ghost predicate NonNegative(ledger: seq<Event>) {
    forall i :: 0 <= i < |ledger| ==> ledger[i].cost >= 0.0
  }

  lemma {:induction false} SinceNonNegative(ledger: seq<Event>, from_: real)
    requires NonNegative(ledger)
    ensures 0.0 <= Since(ledger, from_) <= Total(ledger)
  {
    if ledger != [] {
      SinceNonNegative(ledger[..|ledger| - 1], from_);
    }
  }

  lemma {:induction false} SinceMonotone(ledger: seq<Event>, early: real, late: real)
    requires NonNegative(ledger) && early <= late
    ensures Since(ledger, late) <= Since(ledger, early)
  {
    if ledger != [] {
      SinceMonotone(ledger[..|ledger| - 1], early, late);
    }
  }

  // The last window is among the events since it opened.
  lemma {:induction false} LastWindowSince(ledger: seq<Event>)
    requires Chronological(ledger) && NonNegative(ledger) && ledger != []
    ensures var segments := Segments(ledger);
            && segments != [] && Last(segments) != []
            && Total(Last(segments)) <= Since(ledger, Last(segments)[0].ts)
  {
    var e := Last(ledger);
    var before: seq<seq<Event>> := Segments(Init(ledger));
    SegmentsSpaced(ledger);
    SinceNonNegative(Init(ledger), e.ts);
    if Init(ledger) != [] {
      LastWindowSince(Init(ledger));
      SegmentsSpaced(Init(ledger));
      TotalAppend(Last(before), e);
    } else {
      TotalAppend([], e);
    }
  }

  // At any moment the weekly figure is at least the 5 h figure.
  lemma WeekCovers5h(row: Option<Session>, ledger: seq<Event>, now: real)
    requires RowMatches(row, ledger) && Chronological(ledger) && NonNegative(ledger)
    ensures Spent5h(row, now) <= Since(ledger, now - SEVEN_DAYS)
  {
    SinceNonNegative(ledger, now - SEVEN_DAYS);
    if ledger != [] && now - row.value.startedAt < FIVE_HOURS {
      LastWindowSince(ledger);
      SinceMonotone(ledger, now - SEVEN_DAYS, row.value.startedAt);
    }
  }

  // --- when a turn is refused ---------------------------------------------------------------

  // The weekly sum of a ledger in order is the total of its part that is recent enough.
  lemma {:induction false} SinceSplits(older: seq<Event>, recent: seq<Event>, from_: real)
    requires forall i :: 0 <= i < |older| ==> older[i].ts < from_
    requires forall i :: 0 <= i < |recent| ==> recent[i].ts >= from_
    ensures Since(older + recent, from_) == Total(recent)
  {
    var all := older + recent;
    if recent != [] {
      assert all[..|all| - 1] == older + Init(recent);
      SinceSplits(older, Init(recent), from_);
    } else if older != [] {
      assert all == older && all[..|all| - 1] == Init(older) + [];
      SinceSplits(Init(older), [], from_);
    }
  }

  // A turn is refused exactly when the open 5 h window, or else the last seven days, has reached a
  // limit that is on. A window is open for five hours from its first turn.
  lemma BlockedIff(b: Budget, row: Option<Session>, ledger: seq<Event>, now: real)
    requires RowMatches(row, ledger)
    ensures var block := CheckBudget(b, row, ledger, now);
            var week := Since(ledger, now - 604800.0);
            var start := if ledger != [] then Some(Last(Segments(ledger))[0].ts) else None;
            var open := start.Some? && now < start.value + 18000.0;
            var spent := if open then Total(Last(Segments(ledger))) else 0.0;
            && (block.Some? <==> (b.limit5h > 0.0 && spent >= b.limit5h)
                                 || (b.limitWeek > 0.0 && week >= b.limitWeek))
            && (b.limit5h > 0.0 && spent >= b.limit5h ==>
                  open && block == Some(FiveHours(spent, Some(start.value + 18000.0))))
            && (block.Some? && block.value.Week? ==> block == Some(Week(week)))
  {
  }

  // The reset time in a refusal is true: with nothing spent meanwhile, the 5 h limit refuses until
  // then, and no longer.
  lemma ResetIsTrue(b: Budget, row: Option<Session>, ledger: seq<Event>, now: real, later: real)
    requires RowMatches(row, ledger) && now <= later
    requires CheckBudget(b, row, ledger, now).Some? && CheckBudget(b, row, ledger, now).value.FiveHours?
    ensures var reset := CheckBudget(b, row, ledger, now).value.resetAt;
            var then_ := CheckBudget(b, row, ledger, later);
            reset.Some? && now < reset.value
            && (then_.Some? && then_.value.FiveHours? <==> later < reset.value)
  {
    BlockedIff(b, row, ledger, now);
    BlockedIff(b, row, ledger, later);
  }
}
