/** TOTP verification (`ClientStore.check_totp`): the seed of the owner, the step window
    and the replay memory. */
module Totp {
  import opened Prelude
  import opened TokenTypes

  /** A row of clients.json. `seed` is empty for derived clients. */
  datatype Client = Client(seed: string, owner: Option<ClientId>, source: Option<string>)

  type Roster = map<ClientId, Client>

  const INTERVAL := 30.0

  datatype TotpResult = OK | INVALID | REPLAY

  predicate WellFormed(code: string) {
    |code| == 6 && forall i :: 0 <= i < 6 ==> '0' <= code[i] <= '9'
  }

  // Whose seed checks the codes of `client`: its owner's, one hop, or its own.
  function SeedHolder(roster: Roster, client: ClientId): Option<ClientId> {
    if client !in roster then None
    else
      var holder := if roster[client].owner.Some? then roster[client].owner.value else client;
      if holder !in roster || roster[holder].seed == "" then None else Some(holder)
  }

  // `_seed_owner` and `_passkey_owner`: whose budget a guess for `client` spends, and whose
  // passkeys guard it.
  function SeedOwner(roster: Roster, client: ClientId): ClientId {
    if client in roster && roster[client].owner.Some? && roster[client].owner.value != ""
    then roster[client].owner.value else client
  }

  function StepAt(now: real): int {
    (now / INTERVAL).Floor
  }

  // The first step of the window (previous, current, next) the code matches; `otp` is the
  // authenticator.
  function MatchedStep(otp: (string, int) -> string, seed: string, code: string, now: real): Option<int> {
    var step := StepAt(now);
    if otp(seed, step - 1) == code then Some(step - 1)
    else if otp(seed, step) == code then Some(step)
    else if otp(seed, step + 1) == code then Some(step + 1)
    else None
  }

  /** What a caller found before it takes the lock: whose seed, and which step. */
  datatype Claim = Claim(holder: ClientId, step: int, now: real, client: ClientId)

  function FindClaim(otp: (string, int) -> string, roster: Roster, client: ClientId, code: string, now: real)
    : Option<Claim>
  {
    var holder := SeedHolder(roster, client);
    if holder.None? || !WellFormed(code) then None
    else
      var step := MatchedStep(otp, roster[holder.value].seed, code, now);
      if step.None? then None else Some(Claim(holder.value, step.value, now, client))
  }

  // The locked part: a step is spent once, and only forwards.
  function Spend(last: map<ClientId, int>, c: Claim): (map<ClientId, int>, TotpResult) {
    if c.holder in last && c.step <= last[c.holder] then (last, REPLAY)
    else (last[c.holder := c.step], OK)
  }

  function CheckTotp(otp: (string, int) -> string, roster: Roster, last: map<ClientId, int>,
                     client: ClientId, code: string, now: real)
    : (map<ClientId, int>, TotpResult)
  {
    var claim := FindClaim(otp, roster, client, code, now);
    if claim.None? then (last, INVALID) else Spend(last, claim.value)
  }

  // --- concurrent callers, restarts --------------------------------------------------

  datatype Spent = Spent(boot: nat, claim: Claim)

  /** Callers between their step search and the lock, the codes accepted so far, and how
      often the process started. The replay memory `last` is not persisted. */
  datatype World = World(boot: nat, last: map<ClientId, int>, waiting: map<nat, Claim>, accepted: seq<Spent>)

  datatype Op =
    | Find(id: nat, roster: Roster, client: ClientId, code: string, now: real)
    | Lock(id: nat)
    | Restart

  const START := World(0, map[], map[], [])

  function Step(otp: (string, int) -> string, w: World, op: Op): World {
    match op
    case Find(id, roster, client, code, now) =>
      var claim := FindClaim(otp, roster, client, code, now);
      if claim.Some? then w.(waiting := w.waiting[id := claim.value]) else w.(waiting := w.waiting - {id})
    case Lock(id) =>
      if id !in w.waiting then w
      else
        var c := w.waiting[id];
        var (last, result) := Spend(w.last, c);
        World(w.boot, last, w.waiting - {id}, if result == OK then w.accepted + [Spent(w.boot, c)] else w.accepted)
    case Restart => World(w.boot + 1, map[], map[], w.accepted)
  }

  function Run(otp: (string, int) -> string, w: World, ops: seq<Op>): World
    decreases |ops|
  {
    if ops == [] then w else Run(otp, Step(otp, w, ops[0]), ops[1..])
  }

  predicate InWindow(c: Claim) {
    StepAt(c.now) - 1 <= c.step <= StepAt(c.now) + 1
  }

  ghost predicate Increasing(accepted: seq<Spent>) {
    forall i, j | 0 <= i < j < |accepted| && accepted[i].boot == accepted[j].boot
                  && accepted[i].claim.holder == accepted[j].claim.holder
                    :: accepted[i].claim.step < accepted[j].claim.step
  }

  // Every accepted step was in its window, and those of this boot are at most what is remembered.
  ghost predicate Logged(w: World) {
    && (forall i :: 0 <= i < |w.accepted| ==> InWindow(w.accepted[i].claim) && w.accepted[i].boot <= w.boot)
    && (forall i :: 0 <= i < |w.accepted| && w.accepted[i].boot == w.boot ==>
          w.accepted[i].claim.holder in w.last && w.accepted[i].claim.step <= w.last[w.accepted[i].claim.holder])
    && Increasing(w.accepted)
  }

  ghost predicate Inv(w: World) {
    (forall id :: id in w.waiting ==> InWindow(w.waiting[id])) && Logged(w) && AllEarned(w)
  }

  // The step remembered for `holder` is one that was accepted in this boot.
  ghost predicate Earned(w: World, holder: ClientId)
    requires holder in w.last
  {
    exists i :: 0 <= i < |w.accepted| && w.accepted[i].boot == w.boot && w.accepted[i].claim.holder == holder
                && w.accepted[i].claim.step == w.last[holder]
  }

  ghost predicate AllEarned(w: World) {
    forall h :: h in w.last ==> Earned(w, h)
  }

  lemma EarnedStep(otp: (string, int) -> string, w: World, op: Op)
    requires AllEarned(w) && op.Lock? && op.id in w.waiting
    ensures AllEarned(Step(otp, w, op))
  {
    var c, w', n := w.waiting[op.id], Step(otp, w, op), |w.accepted|;
    var accepted := Spend(w.last, c).1 == OK;
    forall h | h in w'.last ensures Earned(w', h) {
      if accepted && h == c.holder {
        assert w'.accepted[n] == Spent(w.boot, c);
      } else {
        assert Earned(w, h);
        var i :| 0 <= i < n && w.accepted[i].boot == w.boot && w.accepted[i].claim.holder == h
                 && w.accepted[i].claim.step == w.last[h];
        assert w'.accepted[i] == w.accepted[i];
      }
    }
  }

  lemma LoggedStep(otp: (string, int) -> string, w: World, op: Op)
    requires Logged(w) && op.Lock? && op.id in w.waiting && InWindow(w.waiting[op.id])
    ensures Logged(Step(otp, w, op))
  {
  }

  lemma StepInv(otp: (string, int) -> string, w: World, op: Op)
    requires Inv(w)
    ensures Inv(Step(otp, w, op))
  {
    if op.Lock? && op.id in w.waiting {
      hide Logged, AllEarned, InWindow;
      LoggedStep(otp, w, op);
      EarnedStep(otp, w, op);
    }
  }

  lemma {:induction false} RunInv(otp: (string, int) -> string, w: World, ops: seq<Op>)
    requires Inv(w)
    ensures Inv(Run(otp, w, ops))
    decreases |ops|
  {
    if ops != [] {
      StepInv(otp, w, ops[0]);
      RunInv(otp, Step(otp, w, ops[0]), ops[1..]);
    }
  }

  // However callers interleave, the steps accepted for one seed strictly increase between
  // restarts: no step is spent twice, whichever derived client presents the code.
  lemma NoReplay(otp: (string, int) -> string, ops: seq<Op>, i: nat, j: nat)
    requires i < j < |Run(otp, START, ops).accepted|
    requires var log := Run(otp, START, ops).accepted;
             log[i].boot == log[j].boot && log[i].claim.holder == log[j].claim.holder
    ensures Run(otp, START, ops).accepted[i].claim.step < Run(otp, START, ops).accepted[j].claim.step
  {
    RunInv(otp, START, ops);
  }

  // A claim is the owner's code for a step of the window, and the earliest such step.
  lemma ClaimIsCode(otp: (string, int) -> string, roster: Roster, client: ClientId, code: string, now: real, step: int)
    requires FindClaim(otp, roster, client, code, now).Some?
    ensures var c := FindClaim(otp, roster, client, code, now).value;
            && c.holder in roster && c.holder == (if roster[client].owner.Some? then roster[client].owner.value
                                                  else client)
            && otp(roster[c.holder].seed, c.step) == code && InWindow(c)
            && (StepAt(now) - 1 <= step < c.step ==> otp(roster[c.holder].seed, step) != code)
  {
  }

  // No step accepted in the current boot for the seed of `c` is as late as its step.
  ghost predicate Unspent(w: World, c: Claim) {
    forall i :: 0 <= i < |w.accepted| && w.accepted[i].boot == w.boot && w.accepted[i].claim.holder == c.holder ==>
      w.accepted[i].claim.step < c.step
  }

  // When a code is accepted, after any run: exactly when it is a code of the window and every
  // step accepted for its seed since the last restart is an earlier one. What earlier boots
  // accepted does not matter: the spent steps are not persisted.
  lemma AcceptedIff(otp: (string, int) -> string, ops: seq<Op>,
                    roster: Roster, client: ClientId, code: string, now: real)
    ensures var w := Run(otp, START, ops);
            var claim := FindClaim(otp, roster, client, code, now);
            && (CheckTotp(otp, roster, w.last, client, code, now).1 == INVALID <==> claim.None?)
            && (CheckTotp(otp, roster, w.last, client, code, now).1 == OK <==> claim.Some? && Unspent(w, claim.value))
  {
    RunInv(otp, START, ops);
    var w := Run(otp, START, ops);
    hide Run, FindClaim;
    var claim := FindClaim(otp, roster, client, code, now);
    if claim.Some? && claim.value.holder in w.last {
      assert Earned(w, claim.value.holder);
    }
  }

  // What a code is answered, after any run, with nothing left to definitions: it is invalid unless
  // the client is known, whoever holds its seed (its owner, one hop, or itself) is and has one, the
  // code has six digits, and the authenticator shows it for this step, the one before or the next.
  lemma InvalidIff(otp: (string, int) -> string, ops: seq<Op>, roster: Roster, client: ClientId, code: string,
                   now: real)
    ensures CheckTotp(otp, roster, Run(otp, START, ops).last, client, code, now).1 != INVALID <==>
              && client in roster && |code| == 6 && (forall i :: 0 <= i < 6 ==> code[i] in "0123456789")
              && var holder := if roster[client].owner.Some? then roster[client].owner.value else client;
                 var step := (now / 30.0).Floor;
                 && holder in roster && roster[holder].seed != ""
                 && code in {otp(roster[holder].seed, step - 1), otp(roster[holder].seed, step),
                             otp(roster[holder].seed, step + 1)}
  {
    hide Run;
  }

  // And then it is accepted exactly when the earliest step it is shown for is later than every step
  // accepted for its holder in this boot; otherwise it is a replay.
  lemma AcceptedOrReplay(otp: (string, int) -> string, ops: seq<Op>, roster: Roster, client: ClientId, code: string,
                         now: real, step: int)
    requires CheckTotp(otp, roster, Run(otp, START, ops).last, client, code, now).1 != INVALID && client in roster
    requires var holder := if roster[client].owner.Some? then roster[client].owner.value else client;
             && (now / 30.0).Floor - 1 <= step <= (now / 30.0).Floor + 1
             && holder in roster && otp(roster[holder].seed, step) == code
             && forall early :: (now / 30.0).Floor - 1 <= early < step ==> otp(roster[holder].seed, early) != code
    ensures var holder := if roster[client].owner.Some? then roster[client].owner.value else client;
            var w := Run(otp, START, ops);
            CheckTotp(otp, roster, w.last, client, code, now).1 == OK <==>
            forall i | 0 <= i < |w.accepted| && w.accepted[i].boot == w.boot
                       && w.accepted[i].claim.holder == holder :: w.accepted[i].claim.step < step
  {
    var holder := if roster[client].owner.Some? then roster[client].owner.value else client;
    AcceptedIff(otp, ops, roster, client, code, now);
    hide Run;
    assert FindClaim(otp, roster, client, code, now) == Some(Claim(holder, step, now, client));
  }

  // A derived client and its owner guess from one budget; every other client has its own.
  lemma OneBudget(roster: Roster, client: ClientId, other: ClientId)
    ensures client !in roster ==> SeedOwner(roster, client) == client
    ensures client in roster && roster[client].owner in {None, Some("")} ==> SeedOwner(roster, client) == client
    ensures client in roster && roster[client].owner == Some(other) && other != "" ==>
              SeedOwner(roster, client) == other
  {
  }

  // Presented again in the same boot, a code is refused as a replay, at any clock reading; the
  // same request right after a restart is accepted whenever the code is still in its window.
  lemma ReplayNeedsRestart(otp: (string, int) -> string, ops: seq<Op>,
                           roster: Roster, client: ClientId, code: string, now: real, i: nat)
    requires var w := Run(otp, START, ops);
             var claim := FindClaim(otp, roster, client, code, now);
             && claim.Some? && i < |w.accepted| && w.accepted[i].boot == w.boot
             && w.accepted[i].claim.holder == claim.value.holder && w.accepted[i].claim.step == claim.value.step
    ensures CheckTotp(otp, roster, Run(otp, START, ops).last, client, code, now).1 == REPLAY
    ensures CheckTotp(otp, roster, Step(otp, Run(otp, START, ops), Restart).last, client, code, now).1 == OK
  {
    AcceptedIff(otp, ops, roster, client, code, now);
  }

  // A run that spends one step twice: present a good code, restart, present it again at once.
  lemma SpentTwice(otp: (string, int) -> string, roster: Roster, client: ClientId, code: string, now: real)
    requires FindClaim(otp, roster, client, code, now).Some?
    ensures var find := Find(0, roster, client, code, now);
            var log := Run(otp, START, [find, Lock(0), Restart, find, Lock(0)]).accepted;
            |log| == 2 && log[0].claim == log[1].claim == FindClaim(otp, roster, client, code, now).value
  {
    hide FindClaim;
    var find := Find(0, roster, client, code, now);
    var c := FindClaim(otp, roster, client, code, now).value;
    var w1 := Step(otp, START, find);
    var w2 := Step(otp, w1, Lock(0));
    var w3 := Step(otp, w2, Restart);
    var w4 := Step(otp, w3, find);
    var w5 := Step(otp, w4, Lock(0));
    assert w5.accepted == [Spent(0, c), Spent(1, c)];
    calc {
      Run(otp, START, [find, Lock(0), Restart, find, Lock(0)]);
      Run(otp, w1, [Lock(0), Restart, find, Lock(0)]);
      Run(otp, w2, [Restart, find, Lock(0)]);
      Run(otp, w3, [find, Lock(0)]);
      Run(otp, w4, [Lock(0)]);
      Run(otp, w5, []);
    }
  }

  // How many codes of `holder` were accepted in `boot` with a clock reading in [t1, t2].
  function Accepted(log: seq<Spent>, boot: nat, holder: ClientId, t1: real, t2: real): nat {
    if log == [] then 0
    else
      var c := log[|log| - 1];
      Accepted(log[..|log| - 1], boot, holder, t1, t2)
      + if c.boot == boot && c.claim.holder == holder && t1 <= c.claim.now <= t2 then 1 else 0
  }

  lemma StepMonotone(a: real, b: real)
    requires a <= b
    ensures StepAt(a) <= StepAt(b)
  {
    assert a / INTERVAL <= b / INTERVAL;
  }

  // Steps that increase inside [lo, top] are at most top - lo + 1.
  lemma {:induction false} CountBelow(log: seq<Spent>, boot: nat, holder: ClientId, t1: real, t2: real, top: int)
    requires t1 <= t2 && Increasing(log)
    requires forall i :: 0 <= i < |log| ==> InWindow(log[i].claim)
    requires forall i | 0 <= i < |log| && log[i].boot == boot && log[i].claim.holder == holder
                        && t1 <= log[i].claim.now <= t2 :: log[i].claim.step <= top
    ensures Accepted(log, boot, holder, t1, t2) == 0
        || Accepted(log, boot, holder, t1, t2) <= top - (StepAt(t1) - 1) + 1
  {
    if log != [] {
      var n := |log| - 1;
      var c := log[n];
      if c.boot == boot && c.claim.holder == holder && t1 <= c.claim.now <= t2 {
        StepMonotone(t1, c.claim.now);
        CountBelow(log[..n], boot, holder, t1, t2, c.claim.step - 1);
      } else {
        CountBelow(log[..n], boot, holder, t1, t2, top);
      }
    }
  }

  // Between two clock readings of one boot at most floor(t2/30) - floor(t1/30) + 3 codes are
  // accepted for one seed, over the owner and all its derived clients.
  lemma AcceptanceBound(otp: (string, int) -> string, ops: seq<Op>, boot: nat, holder: ClientId, t1: real, t2: real)
    requires t1 <= t2
    ensures Accepted(Run(otp, START, ops).accepted, boot, holder, t1, t2) <= StepAt(t2) - StepAt(t1) + 3
  {
    RunInv(otp, START, ops);
    var log := Run(otp, START, ops).accepted;
    StepMonotone(t1, t2);
    forall i | 0 <= i < |log| && t1 <= log[i].claim.now <= t2
      ensures log[i].claim.step <= StepAt(t2) + 1
    {
      StepMonotone(log[i].claim.now, t2);
    }
    CountBelow(log, boot, holder, t1, t2, StepAt(t2) + 1);
  }
}
