/** The sign-in pipeline of `_run_http`: second factor, approval ticket, authorization code,
    refresh family. A handler runs without interleaving; its clock readings lie within
    `slack` seconds of each other. */
module SignIn {
  import opened Prelude
  import opened TokenTypes
  import opened OneShotStores
  import T = Totp
  import H = TokenHistory
  import Inv = TokenInvariant
  import M = TokenModel

  /** What proved the second factor: a spent TOTP step or a spent passkey challenge. */
  datatype Evidence = TotpStep(boot: nat, holder: ClientId, step: int) | Passkey(state: string)

  /** What the request carried: a TOTP code, or a passkey response, `credential` being the client
      that the stored credential belongs to and `signed` the verdict on its signature. */
  datatype Proof = Code(code: string) | Assertion(credential: ClientId, signed: bool)

  /** A second factor passed at `time`, with the client records it was checked against. */
  datatype Factor = Factor(params: Params, time: real, evidence: Evidence, roster: T.Roster, proof: Proof)

  datatype World = World(
    tokens: H.World,
    boot: nat,
    last: map<ClientId, int>,
    challenges: map<string, Timed<Ceremony>>,
    tickets: map<string, Timed<Params>>,
    codes: map<string, Timed<Params>>,
    // History: the second factors passed, and which of them each later stage came from.
    factors: seq<Factor>,
    states: map<string, Timed<Ceremony>>,   // every challenge ever issued
    ticketOf: map<string, nat>,
    codeOf: map<string, nat>,
    familyOf: map<FamilyId, nat>)

  datatype Op =
    // oauth_authorize_post: `locked` is what the limiter and the lockout said.
    | AuthorizePost(roster: T.Roster, params: Params, code: string, locked: bool, ticket: string, now: real,
                    later: real)
    // A TOTP check that opens no ticket: client_credentials, dashboard pages.
    | OtherTotp(roster: T.Roster, client: ClientId, code: string, now: real)
    // A challenge for the passkey owner of a client, or for whoever the dashboard asks.
    | PasskeyOptions(roster: T.Roster, client: ClientId, purpose: Purpose, state: string, now: real)
    | OtherOptions(ceremony: Ceremony, state: string, now: real)
    // oauth_passkey_verify: `credential` is the owner of the stored credential, `signed` the
    // verdict of the WebAuthn library.
    | PasskeyVerify(roster: T.Roster, params: Params, state: string, credential: ClientId, signed: bool,
                    ticket: string, now: real, later: real)
    // A challenge consumed without a ticket: registrations, dashboard sign-ins.
    | OtherVerify(state: string, purpose: Purpose, now: real)
    | Finalize(ticket: string, code: string, now: real, later: real)
    | ExchangeCode(code: string, client: ClientId, redirect: string, verifier: string, family: FamilyId,
                   access: Secret, refresh: Secret, now: real, start: real, mintNow: real, cleanNow: real)
    // Any other use of the token store.
    | TokenOp(op: H.Op)
    | Reboot(now: real)

  ghost function Init(now: real): World {
    World(H.Init(now), 0, map[], map[], map[], map[], [], map[], map[], map[], map[])
  }

  predicate Close(now: real, later: real, slack: real) {
    now <= later <= now + slack
  }

  ghost predicate Legal(w: World, slack: real, op: Op) {
    match op
    case AuthorizePost(_, _, _, _, ticket, now, later) => ticket !in w.ticketOf && Close(now, later, slack)
    case OtherTotp(_, _, _, _) => true
    case PasskeyOptions(_, _, _, state, _) => state !in w.states
    case OtherOptions(_, state, _) => state !in w.states
    case PasskeyVerify(_, _, _, _, _, ticket, now, later) => ticket !in w.ticketOf && Close(now, later, slack)
    case OtherVerify(_, _, _) => true
    case Finalize(_, code, now, later) => code !in w.codeOf && Close(now, later, slack)
    case ExchangeCode(_, client, _, _, family, access, refresh, now, start, mintNow, cleanNow) =>
      Close(now, start, slack) && H.Legal(w.tokens,
                                          H.IssueOAuth(client, Some(family), access, refresh, start, mintNow, cleanNow))
    case TokenOp(op) => H.Legal(w.tokens, op) && !op.Restart? && (op.IssueOAuth? ==> op.family.None?)
    case Reboot(_) => true
  }

  // A second factor was passed: record it and hand out the ticket.
  function Approve(w: World, f: Factor, ticket: string, later: real): World {
    w.(tickets := IssueTicket(w.tickets, ticket, f.params, f.time, later),
       ticketOf := w.ticketOf[ticket := |w.factors|],
       factors := w.factors + [f])
  }

  function Challenged(w: World, c: Ceremony, state: string, now: real): World {
    w.(challenges := IssueChallenge(w.challenges, state, c, now, now),
       states := w.states[state := Timed(c, now + CHALLENGE_TTL_SECONDS)])
  }

  // `oauth_authorize_post`.
  function Authorized(otp: (string, int) -> string, w: World, op: Op): World
    requires op.AuthorizePost?
  {
    var (last, result) := T.CheckTotp(otp, op.roster, w.last, op.params.client, op.code, op.now);
    if op.locked then w
    else if result != T.OK then w.(last := last)
    else
      var c := T.FindClaim(otp, op.roster, op.params.client, op.code, op.now).value;
      var f := Factor(op.params, op.now, TotpStep(w.boot, c.holder, c.step), op.roster, Code(op.code));
      Approve(w.(last := last), f, op.ticket, op.later)
  }

  // `oauth_passkey_verify`, with the checks of `verify_authentication`.
  function Verified(w: World, op: Op): World
    requires op.PasskeyVerify?
  {
    var (left, pending) := ConsumeChallenge(w.challenges, op.state, Authenticate, op.now, op.now);
    var w1 := w.(challenges := left);
    if pending.None? || op.credential != pending.value.client || !op.signed then w1
    else if op.credential != T.SeedOwner(op.roster, op.params.client) then w1
    else
      var f := Factor(op.params, op.now, Passkey(op.state), op.roster, Assertion(op.credential, op.signed));
      Approve(w1, f, op.ticket, op.later)
  }

  // `oauth_authorize_finalize`.
  function Finalized(w: World, op: Op): World
    requires op.Finalize?
  {
    var (left, params) := ConsumeTicket(w.tickets, op.ticket, op.now, op.now);
    if params.None? || op.ticket !in w.ticketOf then w.(tickets := left)
    else
      w.(tickets := left,
         codes := IssueCode(w.codes, op.code, params.value, op.later, op.later),
         codeOf := w.codeOf[op.code := w.ticketOf[op.ticket]])
  }

  // `oauth_token` for an authorization code.
  ghost function Exchanged(cfg: Config, w: World, op: Op): World
    requires op.ExchangeCode?
  {
    var left := w.codes - {op.code};
    if !Redeems(w.codes, op.code, op.client, op.redirect, op.verifier, op.now) || op.code !in w.codeOf
    then w.(codes := left)
    else w.(codes := left, tokens := H.Step(w.tokens, cfg, Opening(op)),
            familyOf := w.familyOf[op.family := w.codeOf[op.code]])
  }

  // The `issue_oauth` of an exchange.
  function Opening(op: Op): H.Op
    requires op.ExchangeCode?
  {
    H.IssueOAuth(op.client, Some(op.family), op.access, op.refresh, op.start, op.mintNow, op.cleanNow)
  }

  // A restart forgets everything that is kept in memory only.
  function Rebooted(w: World): World {
    w.(boot := w.boot + 1, last := map[], challenges := map[], tickets := map[], codes := map[])
  }

  ghost function Step(otp: (string, int) -> string, cfg: Config, w: World, op: Op): World {
    match op
    case AuthorizePost(_, _, _, _, _, _, _) => Authorized(otp, w, op)
    case OtherTotp(roster, client, code, now) =>
      w.(last := T.CheckTotp(otp, roster, w.last, client, code, now).0)
    case PasskeyOptions(roster, client, purpose, state, now) =>
      Challenged(w, Ceremony(purpose, T.SeedOwner(roster, client)), state, now)
    case OtherOptions(ceremony, state, now) => Challenged(w, ceremony, state, now)
    case PasskeyVerify(_, _, _, _, _, _, _, _) => Verified(w, op)
    case OtherVerify(state, purpose, now) =>
      w.(challenges := ConsumeChallenge(w.challenges, state, purpose, now, now).0)
    case Finalize(_, _, _, _) => Finalized(w, op)
    case ExchangeCode(_, _, _, _, _, _, _, _, _, _, _) => Exchanged(cfg, w, op)
    case TokenOp(op) => w.(tokens := H.Step(w.tokens, cfg, op))
    case Reboot(now) => Rebooted(w).(tokens := H.Step(w.tokens, cfg, H.Restart(now)))
  }

  ghost predicate LegalRun(otp: (string, int) -> string, cfg: Config, slack: real, w: World, ops: seq<Op>)
    decreases |ops|
  {
    ops == [] || (Legal(w, slack, ops[0]) && LegalRun(otp, cfg, slack, Step(otp, cfg, w, ops[0]), ops[1..]))
  }

  ghost function Run(otp: (string, int) -> string, cfg: Config, w: World, ops: seq<Op>): World
    decreases |ops|
  {
    if ops == [] then w else Run(otp, cfg, Step(otp, cfg, w, ops[0]), ops[1..])
  }

  // --- the invariant ----------------------------------------------------------------

  // No piece of evidence opens two tickets.
  ghost predicate Distinct(factors: seq<Factor>) {
    forall i, j | 0 <= i < j < |factors| :: factors[i].evidence != factors[j].evidence
  }

  ghost predicate EvidenceSpent(factors: seq<Factor>, boot: nat, last: map<ClientId, int>,
                                challenges: map<string, Timed<Ceremony>>, states: map<string, Timed<Ceremony>>)
  {
    && challenges.Keys <= states.Keys
    && forall i :: 0 <= i < |factors| ==>
         match factors[i].evidence
         case TotpStep(b, holder, step) => b <= boot && (b == boot ==> holder in last && step <= last[holder])
         case Passkey(state) => state in states && state !in challenges
  }

  // The live entries of a stage belong to their factor, and end in time.
  ghost predicate Staged(items: map<string, Timed<Params>>, from_: map<string, nat>, factors: seq<Factor>, span: real) {
    && (forall k :: k in from_ ==> from_[k] < |factors|)
    && (forall k :: k in items ==>
          && k in from_
          && items[k].value == factors[from_[k]].params
          && items[k].expiresAt <= factors[from_[k]].time + span)
  }

  ghost predicate Injective<K>(m: map<K, nat>) {
    forall a, b | a in m && b in m && a != b :: m[a] != m[b]
  }

  // A factor whose live entry is still at one stage has not reached the next.
  ghost predicate NotYet<K>(items: map<string, Timed<Params>>, from_: map<string, nat>, next: map<K, nat>) {
    forall k, n :: k in items && k in from_ && n in next ==> next[n] != from_[k]
  }

  ghost predicate FamiliesStaged(tokens: H.World, familyOf: map<FamilyId, nat>, factors: seq<Factor>, span: real) {
    && familyOf.Keys == tokens.families.Keys
    && forall f :: f in familyOf ==>
         && familyOf[f] < |factors|
         && tokens.families[f].client == factors[familyOf[f]].params.client
         && tokens.families[f].end <= factors[familyOf[f]].time + span
  }

  ghost predicate PipeInv(w: World, slack: real) {
    && Distinct(w.factors)
    && EvidenceSpent(w.factors, w.boot, w.last, w.challenges, w.states)
    && Staged(w.tickets, w.ticketOf, w.factors, PENDING_AUTHORIZATION_TTL + slack)
    && Staged(w.codes, w.codeOf, w.factors, PENDING_AUTHORIZATION_TTL + CODE_TTL + slack + slack)
    && FamiliesStaged(w.tokens, w.familyOf, w.factors,
                      PENDING_AUTHORIZATION_TTL + CODE_TTL + SESSION_LIFETIME + slack + slack + slack)
    && Injective(w.ticketOf) && Injective(w.codeOf) && Injective(w.familyOf)
    && NotYet(w.tickets, w.ticketOf, w.codeOf) && NotYet(w.tickets, w.ticketOf, w.familyOf)
    && NotYet(w.codes, w.codeOf, w.familyOf)
  }

  // --- one stage at a time -------------------------------------------------------------

  lemma StagedGrows(items: map<string, Timed<Params>>, from_: map<string, nat>, factors: seq<Factor>, f: Factor,
                    span: real)
    requires Staged(items, from_, factors, span)
    ensures Staged(items, from_, factors + [f], span)
  {
  }

  lemma StagedShrinks(items: map<string, Timed<Params>>, left: map<string, Timed<Params>>, from_: map<string, nat>,
                      factors: seq<Factor>, span: real)
    requires Staged(items, from_, factors, span) && SubMap(left, items)
    ensures Staged(left, from_, factors, span)
  {
  }

  lemma StagedPut(items: map<string, Timed<Params>>, from_: map<string, nat>, factors: seq<Factor>, span: real,
                  key: string, i: nat, item: Timed<Params>)
    requires Staged(items, from_, factors, span) && key !in from_
    requires i < |factors| && item.value == factors[i].params && item.expiresAt <= factors[i].time + span
    ensures Staged(items[key := item], from_[key := i], factors, span)
  {
  }

  lemma NotYetShrinks<K>(items: map<string, Timed<Params>>, left: map<string, Timed<Params>>, from_: map<string, nat>,
                         next: map<K, nat>)
    requires NotYet(items, from_, next) && left.Keys <= items.Keys
    ensures NotYet(left, from_, next)
  {
  }

  // A new entry of an earlier stage whose factor no later stage knows.
  lemma NotYetPut<K>(items: map<string, Timed<Params>>, from_: map<string, nat>, next: map<K, nat>, key: string,
                     i: nat, item: Timed<Params>)
    requires NotYet(items, from_, next) && key !in from_
    requires forall n :: n in next ==> next[n] != i
    ensures NotYet(items[key := item], from_[key := i], next)
  {
  }

  // The factor of a popped entry moves on: no other live entry has it.
  lemma NotYetMove<K>(items: map<string, Timed<Params>>, left: map<string, Timed<Params>>, from_: map<string, nat>,
                      next: map<K, nat>, key: string, to: K)
    requires NotYet(items, from_, next) && Injective(from_)
    requires key in from_ && left.Keys <= items.Keys - {key} && left.Keys <= from_.Keys
    ensures NotYet(left, from_, next[to := from_[key]])
  {
  }

  // A factor that moves from one stage to the next is at no earlier stage.
  lemma NotYetNext<J, K>(items: map<string, Timed<Params>>, from_: map<string, nat>, next: map<J, nat>,
                         after: map<K, nat>, key: J, to: K)
    requires NotYet(items, from_, next) && NotYet(items, from_, after) && key in next
    ensures NotYet(items, from_, after[to := next[key]])
  {
  }

  lemma InjectivePut<K>(m: map<K, nat>, k: K, i: nat)
    requires Injective(m) && k !in m && forall n :: n in m ==> m[n] != i
    ensures Injective(m[k := i])
  {
  }

  lemma PrunedSub<T>(m: map<string, Timed<T>>, now: real)
    ensures SubMap(Pruned(m, now), m) && Pruned(m, now).Keys <= m.Keys
  {
  }

  lemma FamiliesGrow(tokens: H.World, familyOf: map<FamilyId, nat>, factors: seq<Factor>, f: Factor, span: real)
    requires FamiliesStaged(tokens, familyOf, factors, span)
    ensures FamiliesStaged(tokens, familyOf, factors + [f], span)
  {
  }

  lemma DistinctPut(factors: seq<Factor>, f: Factor)
    requires Distinct(factors) && forall i :: 0 <= i < |factors| ==> factors[i].evidence != f.evidence
    ensures Distinct(factors + [f])
  {
  }

  predicate Proves(w: World, evidence: Evidence) {
    match evidence
    case TotpStep(b, holder, step) => b == w.boot && holder in w.last && step <= w.last[holder]
    case Passkey(state) => state in w.states && state !in w.challenges
  }

  lemma SpentPut(w: World, f: Factor)
    requires EvidenceSpent(w.factors, w.boot, w.last, w.challenges, w.states) && Proves(w, f.evidence)
    ensures EvidenceSpent(w.factors + [f], w.boot, w.last, w.challenges, w.states)
  {
  }

  lemma IndicesKnown(w: World, slack: real)
    requires PipeInv(w, slack)
    ensures forall k :: k in w.ticketOf ==> w.ticketOf[k] < |w.factors|
    ensures forall k :: k in w.codeOf ==> w.codeOf[k] < |w.factors|
    ensures forall f :: f in w.familyOf ==> w.familyOf[f] < |w.factors|
    ensures w.tickets.Keys <= w.ticketOf.Keys && w.codes.Keys <= w.codeOf.Keys
  {
  }

  // --- one handler at a time -------------------------------------------------------------

  lemma KeepApprove(w: World, slack: real, f: Factor, ticket: string, later: real)
    requires PipeInv(w, slack) && Close(f.time, later, slack) && ticket !in w.ticketOf
    requires forall i :: 0 <= i < |w.factors| ==> w.factors[i].evidence != f.evidence
    requires Proves(w, f.evidence)
    ensures PipeInv(Approve(w, f, ticket, later), slack)
  {
    hide Distinct, EvidenceSpent, Staged, FamiliesStaged, Injective, NotYet, Proves;
    var n := |w.factors|;
    var live := Pruned(w.tickets, f.time);
    var item := Timed(f.params, later + PENDING_AUTHORIZATION_TTL);
    IndicesKnown(w, slack);
    PrunedSub(w.tickets, f.time);
    DistinctPut(w.factors, f);
    SpentPut(w, f);
    StagedShrinks(w.tickets, live, w.ticketOf, w.factors, PENDING_AUTHORIZATION_TTL + slack);
    StagedGrows(live, w.ticketOf, w.factors, f, PENDING_AUTHORIZATION_TTL + slack);
    StagedPut(live, w.ticketOf, w.factors + [f], PENDING_AUTHORIZATION_TTL + slack, ticket, n, item);
    StagedGrows(w.codes, w.codeOf, w.factors, f, PENDING_AUTHORIZATION_TTL + CODE_TTL + slack + slack);
    FamiliesGrow(w.tokens, w.familyOf, w.factors, f,
                 PENDING_AUTHORIZATION_TTL + CODE_TTL + SESSION_LIFETIME + slack + slack + slack);
    InjectivePut(w.ticketOf, ticket, n);
    NotYetShrinks(w.tickets, live, w.ticketOf, w.codeOf);
    NotYetPut(live, w.ticketOf, w.codeOf, ticket, n, item);
    NotYetShrinks(w.tickets, live, w.ticketOf, w.familyOf);
    NotYetPut(live, w.ticketOf, w.familyOf, ticket, n, item);
  }

  lemma KeepSpend(w: World, slack: real, last: map<ClientId, int>)
    requires PipeInv(w, slack)
    requires forall h :: h in w.last ==> h in last && w.last[h] <= last[h]
    ensures PipeInv(w.(last := last), slack)
  {
    hide Distinct, Staged, FamiliesStaged, Injective, NotYet;
  }

  lemma KeepChallenges(w: World, slack: real, challenges: map<string, Timed<Ceremony>>,
                       states: map<string, Timed<Ceremony>>)
    requires PipeInv(w, slack) && w.states.Keys <= states.Keys && challenges.Keys <= states.Keys
    requires forall s :: s in challenges && s in w.states ==> s in w.challenges
    ensures PipeInv(w.(challenges := challenges, states := states), slack)
  {
    hide Distinct, Staged, FamiliesStaged, Injective, NotYet;
  }

  lemma KeepChallenged(w: World, slack: real, c: Ceremony, state: string, now: real)
    requires PipeInv(w, slack) && state !in w.states
    ensures PipeInv(Challenged(w, c, state, now), slack)
  {
    hide PipeInv;
    var w' := Challenged(w, c, state, now);
    StatesKnown(w, slack);
    KeepChallenges(w, slack, w'.challenges, w'.states);
  }

  lemma KeepConsumed(w: World, slack: real, state: string, purpose: Purpose, now: real)
    requires PipeInv(w, slack)
    ensures PipeInv(w.(challenges := ConsumeChallenge(w.challenges, state, purpose, now, now).0), slack)
  {
    hide PipeInv;
    StatesKnown(w, slack);
    KeepChallenges(w, slack, ConsumeChallenge(w.challenges, state, purpose, now, now).0, w.states);
  }

  // A TOTP step that was not yet spent is not the evidence of any factor.
  lemma FreshStep(w: World, slack: real, c: T.Claim)
    requires PipeInv(w, slack) && T.Spend(w.last, c).1 == T.OK
    ensures forall i :: 0 <= i < |w.factors| ==> w.factors[i].evidence != TotpStep(w.boot, c.holder, c.step)
  {
    hide Distinct, Staged, FamiliesStaged, Injective, NotYet;
  }

  lemma FreshState(w: World, slack: real, state: string)
    requires PipeInv(w, slack) && state in w.challenges
    ensures forall i :: 0 <= i < |w.factors| ==> w.factors[i].evidence != Passkey(state)
    ensures state in w.states
  {
    hide Distinct, Staged, FamiliesStaged, Injective, NotYet;
  }

  lemma KeepAuthorizePost(otp: (string, int) -> string, cfg: Config, w: World, slack: real, op: Op)
    requires PipeInv(w, slack) && Legal(w, slack, op) && op.AuthorizePost?
    ensures PipeInv(Authorized(otp, w, op), slack)
  {
    hide PipeInv;
    var (last, result) := T.CheckTotp(otp, op.roster, w.last, op.params.client, op.code, op.now);
    if !op.locked {
      KeepSpend(w, slack, last);
      if result == T.OK {
        var c := T.FindClaim(otp, op.roster, op.params.client, op.code, op.now).value;
        FreshStep(w, slack, c);
        var f := Factor(op.params, op.now, TotpStep(w.boot, c.holder, c.step), op.roster, Code(op.code));
        KeepApprove(w.(last := last), slack, f, op.ticket, op.later);
      }
    }
  }

  lemma KeepPasskeyVerify(otp: (string, int) -> string, cfg: Config, w: World, slack: real, op: Op)
    requires PipeInv(w, slack) && Legal(w, slack, op) && op.PasskeyVerify?
    ensures PipeInv(Verified(w, op), slack)
  {
    hide PipeInv;
    var (left, pending) := ConsumeChallenge(w.challenges, op.state, Authenticate, op.now, op.now);
    StatesKnown(w, slack);
    KeepChallenges(w, slack, left, w.states);
    if pending.Some? {
      FreshState(w, slack, op.state);
      var w1 := w.(challenges := left);
      if op.credential == pending.value.client && op.signed
        && op.credential == T.SeedOwner(op.roster, op.params.client) {
        var f := Factor(op.params, op.now, Passkey(op.state), op.roster, Assertion(op.credential, op.signed));
        KeepApprove(w1, slack, f, op.ticket, op.later);
      }
    }
  }

  lemma StatesKnown(w: World, slack: real)
    requires PipeInv(w, slack)
    ensures w.challenges.Keys <= w.states.Keys
  {
    hide Distinct, Staged, FamiliesStaged, Injective, NotYet;
  }

  // A ticket turned into a code, both stores still to be swept.
  lemma KeepCode(w: World, slack: real, left: map<string, Timed<Params>>, ticket: string, code: string,
                 item: Timed<Params>)
    requires PipeInv(w, slack) && ticket in w.tickets && code !in w.codeOf
    requires SubMap(left, w.tickets) && left.Keys <= w.tickets.Keys - {ticket}
    requires item.value == w.tickets[ticket].value && item.expiresAt <= w.tickets[ticket].expiresAt + slack + CODE_TTL
    requires ticket in w.ticketOf
    ensures PipeInv(w.(tickets := left, codes := w.codes[code := item],
                       codeOf := w.codeOf[code := w.ticketOf[ticket]]), slack)
  {
    hide Distinct, EvidenceSpent, FamiliesStaged, Injective, NotYet, Staged;
    var i := w.ticketOf[ticket];
    IndicesKnown(w, slack);
    TicketEntry(w, slack, ticket);
    StagedShrinks(w.tickets, left, w.ticketOf, w.factors, PENDING_AUTHORIZATION_TTL + slack);
    NotYetShrinks(w.tickets, left, w.ticketOf, w.familyOf);
    StagedPut(w.codes, w.codeOf, w.factors, PENDING_AUTHORIZATION_TTL + CODE_TTL + slack + slack, code, i, item);
    InjectivePut(w.codeOf, code, i);
    NotYetMove(w.tickets, left, w.ticketOf, w.codeOf, ticket, code);
    NotYetPut(w.codes, w.codeOf, w.familyOf, code, i, item);
  }

  // Entries of the first two stages go.
  lemma KeepForgotten(w: World, slack: real, tickets: map<string, Timed<Params>>, codes: map<string, Timed<Params>>)
    requires PipeInv(w, slack) && SubMap(tickets, w.tickets) && SubMap(codes, w.codes)
    ensures PipeInv(w.(tickets := tickets, codes := codes), slack)
  {
    hide Distinct, EvidenceSpent, FamiliesStaged, Injective, NotYet, Staged;
    StagedShrinks(w.tickets, tickets, w.ticketOf, w.factors, PENDING_AUTHORIZATION_TTL + slack);
    StagedShrinks(w.codes, codes, w.codeOf, w.factors, PENDING_AUTHORIZATION_TTL + CODE_TTL + slack + slack);
    NotYetShrinks(w.tickets, tickets, w.ticketOf, w.codeOf);
    NotYetShrinks(w.tickets, tickets, w.ticketOf, w.familyOf);
    NotYetShrinks(w.codes, codes, w.codeOf, w.familyOf);
  }

  lemma KeepFinalize(otp: (string, int) -> string, cfg: Config, w: World, slack: real, op: Op)
    requires PipeInv(w, slack) && Legal(w, slack, op) && op.Finalize?
    ensures PipeInv(Finalized(w, op), slack)
  {
    hide PipeInv, H.Step, H.Legal;
    var (left, params) := ConsumeTicket(w.tickets, op.ticket, op.now, op.now);
    PrunedSub(w.tickets, op.now);
    if params.Some? && op.ticket in w.ticketOf {
      var item := Timed(params.value, op.later + CODE_TTL);
      var codes := w.codes[op.code := item];
      KeepCode(w, slack, left, op.ticket, op.code, item);
      PrunedSub(codes, op.later);
      var w1 := w.(tickets := left, codes := codes, codeOf := w.codeOf[op.code := w.ticketOf[op.ticket]]);
      KeepForgotten(w1, slack, left, Pruned(codes, op.later));
    } else {
      KeepForgotten(w, slack, left, w.codes);
    }
  }

  // A live ticket is its factor's, in time, and its factor has no code and no family yet.
  lemma TicketEntry(w: World, slack: real, ticket: string)
    requires PipeInv(w, slack) && ticket in w.tickets
    ensures ticket in w.ticketOf && w.ticketOf[ticket] < |w.factors|
    ensures w.tickets[ticket].value == w.factors[w.ticketOf[ticket]].params
    ensures w.tickets[ticket].expiresAt <= w.factors[w.ticketOf[ticket]].time + PENDING_AUTHORIZATION_TTL + slack
    ensures forall n :: n in w.codeOf ==> w.codeOf[n] != w.ticketOf[ticket]
    ensures forall f :: f in w.familyOf ==> w.familyOf[f] != w.ticketOf[ticket]
  {
    hide Distinct, EvidenceSpent, Injective;
  }

  // A live code is its factor's, in time, and its factor has no family yet.
  lemma CodeEntry(w: World, slack: real, code: string)
    requires PipeInv(w, slack) && code in w.codes
    ensures code in w.codeOf && w.codeOf[code] < |w.factors|
    ensures w.codes[code].value == w.factors[w.codeOf[code]].params
    ensures w.codes[code].expiresAt
            <= w.factors[w.codeOf[code]].time + PENDING_AUTHORIZATION_TTL + CODE_TTL + slack + slack
    ensures forall f :: f in w.familyOf ==> w.familyOf[f] != w.codeOf[code]
  {
    hide Distinct, EvidenceSpent, Injective;
  }

  // No operation but the opening of a family changes the sign-ins on record.
  lemma OtherOpsOpenNothing(w: H.World, cfg: Config, op: H.Op)
    requires op.IssueOAuth? ==> op.family.None?
    ensures H.Step(w, cfg, op).families == w.families
  {
    hide H.Apply, H.Kills, H.RevokedBy, H.RevokedNamedBy;
  }

  lemma OpeningRecorded(w: H.World, cfg: Config, op: H.Op)
    requires op.IssueOAuth? && op.family.Some?
    ensures H.Step(w, cfg, op).families == w.families[op.family.value := H.SignIn(op.client,
            op.start + SESSION_LIFETIME)]
  {
    hide H.Apply, H.Kills, H.RevokedBy, H.RevokedNamedBy;
  }

  lemma FamiliesSame(before: H.World, after: H.World, familyOf: map<FamilyId, nat>, factors: seq<Factor>, span: real)
    requires FamiliesStaged(before, familyOf, factors, span) && after.families == before.families
    ensures FamiliesStaged(after, familyOf, factors, span)
  {
  }

  lemma FamiliesPut(before: H.World, after: H.World, familyOf: map<FamilyId, nat>, factors: seq<Factor>, span: real,
                    f: FamilyId, i: nat, signIn: H.SignIn)
    requires FamiliesStaged(before, familyOf, factors, span) && after.families == before.families[f := signIn]
    requires i < |factors| && signIn.client == factors[i].params.client && signIn.end <= factors[i].time + span
    ensures FamiliesStaged(after, familyOf[f := i], factors, span)
  {
  }

  lemma KeepExchange(otp: (string, int) -> string, cfg: Config, w: World, slack: real, op: Op)
    requires PipeInv(w, slack) && Legal(w, slack, op) && op.ExchangeCode?
    ensures PipeInv(Exchanged(cfg, w, op), slack)
  {
    hide Distinct, EvidenceSpent, FamiliesStaged, Injective, NotYet, Staged, H.Step;
    var left := w.codes - {op.code};
    var span := PENDING_AUTHORIZATION_TTL + CODE_TTL + SESSION_LIFETIME + slack + slack + slack;
    IndicesKnown(w, slack);
    StagedShrinks(w.codes, left, w.codeOf, w.factors, PENDING_AUTHORIZATION_TTL + CODE_TTL + slack + slack);
    NotYetShrinks(w.codes, left, w.codeOf, w.familyOf);
    if Redeems(w.codes, op.code, op.client, op.redirect, op.verifier, op.now) {
      CodeEntry(w, slack, op.code);
      var i := w.codeOf[op.code];
      var issue := Opening(op);
      OpeningRecorded(w.tokens, cfg, issue);
      FamiliesPut(w.tokens, H.Step(w.tokens, cfg, issue), w.familyOf, w.factors, span, op.family, i,
                  H.SignIn(op.client, op.start + SESSION_LIFETIME));
      FamilyFresh(w, slack, op.family);
      InjectivePut(w.familyOf, op.family, i);
      NotYetMove(w.codes, left, w.codeOf, w.familyOf, op.code, op.family);
      NotYetNext(w.tickets, w.ticketOf, w.codeOf, w.familyOf, op.code, op.family);
    }
  }

  lemma FamilyFresh(w: World, slack: real, f: FamilyId)
    requires PipeInv(w, slack) && f !in w.tokens.families
    ensures f !in w.familyOf
  {
    hide Distinct, EvidenceSpent, Injective, NotYet, Staged;
  }

  lemma KeepTokenOp(w: World, cfg: Config, slack: real, op: H.Op)
    requires PipeInv(w, slack) && (op.IssueOAuth? ==> op.family.None?)
    ensures PipeInv(w.(tokens := H.Step(w.tokens, cfg, op)), slack)
  {
    hide Distinct, EvidenceSpent, FamiliesStaged, Injective, NotYet, Staged, H.Step;
    OtherOpsOpenNothing(w.tokens, cfg, op);
    FamiliesSame(w.tokens, H.Step(w.tokens, cfg, op), w.familyOf, w.factors,
                 PENDING_AUTHORIZATION_TTL + CODE_TTL + SESSION_LIFETIME + slack + slack + slack);
  }

  lemma SpentForgotten(w: World)
    requires EvidenceSpent(w.factors, w.boot, w.last, w.challenges, w.states)
    ensures EvidenceSpent(w.factors, w.boot + 1, map[], map[], w.states)
  {
  }

  lemma KeepBoot(w: World, slack: real)
    requires PipeInv(w, slack)
    ensures PipeInv(w.(boot := w.boot + 1, last := map[], challenges := map[]), slack)
  {
    hide Distinct, EvidenceSpent, FamiliesStaged, Injective, NotYet, Staged;
    SpentForgotten(w);
  }

  lemma KeepReboot(w: World, slack: real)
    requires PipeInv(w, slack)
    ensures PipeInv(Rebooted(w), slack)
  {
    hide PipeInv;
    KeepForgotten(w, slack, map[], map[]);
    KeepBoot(w.(tickets := map[], codes := map[]), slack);
  }

  lemma KeepPipe(otp: (string, int) -> string, cfg: Config, w: World, slack: real, op: Op)
    requires PipeInv(w, slack) && Legal(w, slack, op)
    ensures PipeInv(Step(otp, cfg, w, op), slack)
  {
    hide PipeInv, H.Step, H.Legal, Authorized, Verified, Finalized, Exchanged;
    match op
    case AuthorizePost(_, _, _, _, _, _, _) => KeepAuthorizePost(otp, cfg, w, slack, op);
    case OtherTotp(roster, client, code, now) =>
      KeepSpend(w, slack, T.CheckTotp(otp, roster, w.last, client, code, now).0);
    case PasskeyOptions(roster, client, purpose, state, now) =>
      KeepChallenged(w, slack, Ceremony(purpose, T.SeedOwner(roster, client)), state, now);
    case OtherOptions(ceremony, state, now) => KeepChallenged(w, slack, ceremony, state, now);
    case PasskeyVerify(_, _, _, _, _, _, _, _) => KeepPasskeyVerify(otp, cfg, w, slack, op);
    case OtherVerify(state, purpose, now) => KeepConsumed(w, slack, state, purpose, now);
    case Finalize(_, _, _, _) => KeepFinalize(otp, cfg, w, slack, op);
    case ExchangeCode(_, _, _, _, _, _, _, _, _, _, _) => KeepExchange(otp, cfg, w, slack, op);
    case TokenOp(t) => KeepTokenOp(w, cfg, slack, t);
    case Reboot(now) =>
      KeepReboot(w, slack);
      KeepTokenOp(Rebooted(w), cfg, slack, H.Restart(now));
  }

  lemma TokensUntouched(otp: (string, int) -> string, w: World, op: Op)
    ensures op.AuthorizePost? ==> Authorized(otp, w, op).tokens == w.tokens
    ensures op.PasskeyVerify? ==> Verified(w, op).tokens == w.tokens
    ensures op.Finalize? ==> Finalized(w, op).tokens == w.tokens
  {
    hide T.CheckTotp, T.FindClaim, IssueTicket, ConsumeTicket, IssueCode, ConsumeChallenge;
  }

  // The pipeline only ever does to the token store what the token store may see.
  lemma KeepTokens(otp: (string, int) -> string, cfg: Config, w: World, slack: real, op: Op)
    requires Inv.Inv(w.tokens) && Legal(w, slack, op)
    ensures Inv.Inv(Step(otp, cfg, w, op).tokens)
  {
    hide Inv.Inv, H.Step, Authorized, Verified, Finalized, IssueChallenge, ConsumeChallenge, Redeems;
    TokensUntouched(otp, w, op);
    match op
    case ExchangeCode(_, _, _, _, _, _, _, _, _, _, _) => Inv.StepInv(w.tokens, cfg, Opening(op));
    case TokenOp(t) => Inv.StepInv(w.tokens, cfg, t);
    case Reboot(now) => Inv.StepInv(w.tokens, cfg, H.Restart(now));
    case _ =>
  }

  lemma StepInv(otp: (string, int) -> string, cfg: Config, w: World, slack: real, op: Op)
    requires PipeInv(w, slack) && Inv.Inv(w.tokens) && Legal(w, slack, op)
    ensures PipeInv(Step(otp, cfg, w, op), slack) && Inv.Inv(Step(otp, cfg, w, op).tokens)
  {
    hide *;
    KeepPipe(otp, cfg, w, slack, op);
    KeepTokens(otp, cfg, w, slack, op);
  }

  lemma {:induction false} RunInv(otp: (string, int) -> string, cfg: Config, w: World, slack: real, ops: seq<Op>)
    requires PipeInv(w, slack) && Inv.Inv(w.tokens) && LegalRun(otp, cfg, slack, w, ops)
    ensures PipeInv(Run(otp, cfg, w, ops), slack) && Inv.Inv(Run(otp, cfg, w, ops).tokens)
    decreases |ops|
  {
    hide PipeInv, Inv.Inv, Step;
    if ops != [] {
      StepInv(otp, cfg, w, slack, ops[0]);
      RunInv(otp, cfg, Step(otp, cfg, w, ops[0]), slack, ops[1..]);
    }
  }

  // --- what a second factor is worth --------------------------------------------------------

  // A TOTP factor was a code of the seed owner of its client, for a step of the window at its
  // time; a passkey factor answered in time, with a good signature and a credential of the
  // client that guards its client, a challenge issued for that client to sign in.
  ghost predicate Genuine(otp: (string, int) -> string, f: Factor, states: map<string, Timed<Ceremony>>) {
    match f.evidence
    case TotpStep(_, holder, step) =>
      && T.SeedHolder(f.roster, f.params.client) == Some(holder) && holder in f.roster
      && f.proof.Code? && otp(f.roster[holder].seed, step) == f.proof.code
      && T.StepAt(f.time) - 1 <= step <= T.StepAt(f.time) + 1
    case Passkey(state) =>
      var owner := T.SeedOwner(f.roster, f.params.client);
      && state in states && states[state].value == Ceremony(Authenticate, owner)
      && f.time <= states[state].expiresAt
      && f.proof == Assertion(owner, true)
  }

  ghost predicate AllGenuine(otp: (string, int) -> string, factors: seq<Factor>, states: map<string, Timed<Ceremony>>) {
    forall i :: 0 <= i < |factors| ==> Genuine(otp, factors[i], states)
  }

  ghost predicate GenuineInv(otp: (string, int) -> string, w: World) {
    SubMap(w.challenges, w.states) && AllGenuine(otp, w.factors, w.states)
  }

  lemma GenuineChallenge(otp: (string, int) -> string, w: World, c: Ceremony, state: string, now: real)
    requires GenuineInv(otp, w) && state !in w.states
    ensures GenuineInv(otp, Challenged(w, c, state, now))
  {
    hide T.SeedHolder, T.StepAt;
    PrunedSub(w.challenges, now);
  }

  lemma GenuineAppend(otp: (string, int) -> string, w: World, f: Factor, ticket: string, later: real)
    requires GenuineInv(otp, w) && Genuine(otp, f, w.states)
    ensures GenuineInv(otp, Approve(w, f, ticket, later))
  {
    hide Genuine;
  }

  lemma GenuineAuthorize(otp: (string, int) -> string, cfg: Config, w: World, op: Op)
    requires GenuineInv(otp, w) && op.AuthorizePost?
    ensures GenuineInv(otp, Authorized(otp, w, op))
  {
    hide GenuineInv, H.Step;
    var (last, result) := T.CheckTotp(otp, op.roster, w.last, op.params.client, op.code, op.now);
    GenuineSame(otp, w, w.(last := last));
    if !op.locked && result == T.OK {
      var c := T.FindClaim(otp, op.roster, op.params.client, op.code, op.now).value;
      var f := Factor(op.params, op.now, TotpStep(w.boot, c.holder, c.step), op.roster, Code(op.code));
      GenuineAppend(otp, w.(last := last), f, op.ticket, op.later);
    }
  }

  lemma AssertionGenuine(otp: (string, int) -> string, f: Factor, states: map<string, Timed<Ceremony>>, c: Ceremony)
    requires f.evidence.Passkey? && f.evidence.state in states && f.time <= states[f.evidence.state].expiresAt
    requires states[f.evidence.state].value == c && c.purpose == Authenticate
    requires c.client == T.SeedOwner(f.roster, f.params.client) && f.proof == Assertion(c.client, true)
    ensures Genuine(otp, f, states)
  {
  }

  lemma GenuineVerify(otp: (string, int) -> string, cfg: Config, w: World, op: Op)
    requires GenuineInv(otp, w) && op.PasskeyVerify?
    ensures GenuineInv(otp, Verified(w, op))
  {
    hide H.Step, Genuine, AllGenuine;
    var (left, pending) := ConsumeChallenge(w.challenges, op.state, Authenticate, op.now, op.now);
    var w1 := w.(challenges := left);
    GenuineSame(otp, w, w1);
    var owner := T.SeedOwner(op.roster, op.params.client);
    if pending.Some? && op.credential == pending.value.client && op.signed && op.credential == owner {
      var f := Factor(op.params, op.now, Passkey(op.state), op.roster, Assertion(op.credential, op.signed));
      AssertionGenuine(otp, f, w.states, pending.value);
      GenuineAppend(otp, w1, f, op.ticket, op.later);
    }
  }

  // Everything else leaves the factors alone, and forgets challenges at most.
  lemma GenuineSame(otp: (string, int) -> string, w: World, w': World)
    requires GenuineInv(otp, w) && w'.factors == w.factors && w'.states == w.states
        && SubMap(w'.challenges, w.challenges)
    ensures GenuineInv(otp, w')
  {
    hide Genuine;
  }

  lemma GenuineStep(otp: (string, int) -> string, cfg: Config, w: World, slack: real, op: Op)
    requires GenuineInv(otp, w) && Legal(w, slack, op)
    ensures GenuineInv(otp, Step(otp, cfg, w, op))
  {
    hide GenuineInv, H.Step, Authorized, Verified, Challenged, H.Legal;
    match op
    case AuthorizePost(_, _, _, _, _, _, _) => GenuineAuthorize(otp, cfg, w, op);
    case PasskeyOptions(roster, client, purpose, state, now) =>
      GenuineChallenge(otp, w, Ceremony(purpose, T.SeedOwner(roster, client)), state, now);
    case OtherOptions(ceremony, state, now) => GenuineChallenge(otp, w, ceremony, state, now);
    case PasskeyVerify(_, _, _, _, _, _, _, _) => GenuineVerify(otp, cfg, w, op);
    case _ => GenuineSame(otp, w, Step(otp, cfg, w, op));
  }

  lemma {:induction false} RunGenuine(otp: (string, int) -> string, cfg: Config, w: World, slack: real, ops: seq<Op>)
    requires GenuineInv(otp, w) && LegalRun(otp, cfg, slack, w, ops)
    ensures GenuineInv(otp, Run(otp, cfg, w, ops))
    decreases |ops|
  {
    hide GenuineInv, Step, Legal;
    if ops != [] {
      GenuineStep(otp, cfg, w, slack, ops[0]);
      RunGenuine(otp, cfg, Step(otp, cfg, w, ops[0]), slack, ops[1..]);
    }
  }

  lemma StartInv(otp: (string, int) -> string, start: real, slack: real)
    ensures PipeInv(Init(start), slack) && Inv.Inv(Init(start).tokens) && GenuineInv(otp, Init(start))
  {
    Inv.InitInv(start);
  }

  // --- the theorems ------------------------------------------------------------------------

  // `f` carries what the request `op` did, which was not locked out.
  predicate OfRequest(f: Factor, op: Op) {
    || (op.AuthorizePost? && !op.locked && f.evidence.TotpStep?
        && f == Factor(op.params, op.now, f.evidence, op.roster, Code(op.code)))
    || (op.PasskeyVerify?
        && f == Factor(op.params, op.now, Passkey(op.state), op.roster, Assertion(op.credential, op.signed)))
  }

  // A factor is recorded only for a request, with its client, the client records it was
  // checked against, its clock reading and its code or response.
  lemma FactorIsRequest(otp: (string, int) -> string, cfg: Config, w: World, op: Op)
    ensures var after := Step(otp, cfg, w, op).factors;
            after == w.factors || exists f :: OfRequest(f, op) && after == w.factors + [f]
  {
    hide Authorized, Verified;
    if op.AuthorizePost? {
      AuthorizeIsRequest(otp, cfg, w, op);
    } else if op.PasskeyVerify? {
      VerifyIsRequest(otp, cfg, w, op);
    } else {
      hide H.Step, ConsumeTicket, IssueCode, IssueChallenge, ConsumeChallenge, T.CheckTotp, Redeems, OfRequest;
    }
  }

  lemma AuthorizeIsRequest(otp: (string, int) -> string, cfg: Config, w: World, op: Op)
    requires op.AuthorizePost?
    ensures var after := Authorized(otp, w, op).factors;
            after == w.factors || exists f :: OfRequest(f, op) && after == w.factors + [f]
  {
    hide H.Step, IssueTicket, T.FindClaim, T.Spend, OfRequest;
    var (last, result) := T.CheckTotp(otp, op.roster, w.last, op.params.client, op.code, op.now);
    if !op.locked && result == T.OK {
      var c := T.FindClaim(otp, op.roster, op.params.client, op.code, op.now).value;
      TotpOfRequest(op, TotpStep(w.boot, c.holder, c.step));
    }
  }

  lemma VerifyIsRequest(otp: (string, int) -> string, cfg: Config, w: World, op: Op)
    requires op.PasskeyVerify?
    ensures var after := Verified(w, op).factors;
            after == w.factors || exists f :: OfRequest(f, op) && after == w.factors + [f]
  {
    hide H.Step, IssueTicket, ConsumeChallenge, T.SeedOwner, OfRequest;
    AssertionOfRequest(op);
  }

  lemma TotpOfRequest(op: Op, evidence: Evidence)
    requires op.AuthorizePost? && !op.locked && evidence.TotpStep?
    ensures OfRequest(Factor(op.params, op.now, evidence, op.roster, Code(op.code)), op)
  {
  }

  lemma AssertionOfRequest(op: Op)
    requires op.PasskeyVerify?
    ensures OfRequest(Factor(op.params, op.now, Passkey(op.state), op.roster, Assertion(op.credential, op.signed)), op)
  {
  }

  // Each refresh family comes from one second factor of its client, different families from
  // different factors, and different factors from different TOTP steps of a boot or different
  // passkey challenges; every one of these factors is genuine.
  ghost predicate Descended(otp: (string, int) -> string, w: World) {
    && w.familyOf.Keys == w.tokens.families.Keys
    && (forall f :: f in w.familyOf ==>
          && w.familyOf[f] < |w.factors|
          && w.tokens.families[f].client == w.factors[w.familyOf[f]].params.client)
    && (forall f, g | f in w.familyOf && g in w.familyOf && f != g :: w.familyOf[f] != w.familyOf[g])
    && (forall i, j | 0 <= i < j < |w.factors| :: w.factors[i].evidence != w.factors[j].evidence)
    && (forall i :: 0 <= i < |w.factors| ==> Genuine(otp, w.factors[i], w.states))
  }

  lemma InvDescended(otp: (string, int) -> string, w: World, slack: real)
    requires PipeInv(w, slack) && GenuineInv(otp, w)
    ensures Descended(otp, w)
  {
    hide Genuine, EvidenceSpent, Staged, NotYet;
  }

  // So it is in every run.
  lemma Lineage(otp: (string, int) -> string, cfg: Config, slack: real, start: real, ops: seq<Op>)
    requires LegalRun(otp, cfg, slack, Init(start), ops)
    ensures Descended(otp, Run(otp, cfg, Init(start), ops))
  {
    StartInv(otp, start, slack);
    hide *;
    RunInv(otp, cfg, Init(start), slack, ops);
    RunGenuine(otp, cfg, Init(start), slack, ops);
    InvDescended(otp, Run(otp, cfg, Init(start), ops), slack);
  }

  // Families never outnumber second factors.
  lemma FamiliesCounted(otp: (string, int) -> string, cfg: Config, slack: real, start: real, ops: seq<Op>)
    requires LegalRun(otp, cfg, slack, Init(start), ops)
    ensures |Run(otp, cfg, Init(start), ops).tokens.families| <= |Run(otp, cfg, Init(start), ops).factors|
  {
    Lineage(otp, cfg, slack, start, ops);
    var w := Run(otp, cfg, Init(start), ops);
    InjectiveBound(w.familyOf, |w.factors|);
    assert |w.familyOf.Keys| == |w.tokens.families.Keys|;
  }

  lemma {:induction false} InjectiveBound<K>(m: map<K, nat>, n: nat)
    requires Injective(m) && forall k :: k in m ==> m[k] < n
    ensures |m| <= n
  {
    if n == 0 {
      assert m.Keys == {};
    } else if k :| k in m && m[k] == n - 1 {
      InjectiveBound(m - {k}, n - 1);
      assert |m| == |m - {k}| + 1 by { assert m.Keys == (m - {k}).Keys + {k}; }
    } else {
      InjectiveBound(m, n - 1);
    }
  }

  // A bearer of a family that is accepted at `now`: it is in time of its second factor, which
  // was genuine, and is accepted as the client that passed it.
  ghost predicate Traced(otp: (string, int) -> string, w: World, slack: real, bearer: Secret, now: real)
    requires Sha256(bearer) in w.tokens.store.oauth && w.tokens.store.oauth[Sha256(bearer)].family.Some?
  {
    var f := w.tokens.store.oauth[Sha256(bearer)].family.value;
    && f in w.familyOf && w.familyOf[f] < |w.factors|
    && var factor := w.factors[w.familyOf[f]];
       && now <= factor.time + 600.0 + 60.0 + 86400.0 + slack + slack + slack
       && M.Accepts(w.tokens.store, bearer, now) == Some(factor.params.client)
       && Genuine(otp, factor, w.states)
  }

  lemma InvTraced(otp: (string, int) -> string, w: World, slack: real, bearer: Secret, now: real)
    requires PipeInv(w, slack) && Inv.Inv(w.tokens) && GenuineInv(otp, w)
    requires Sha256(bearer) in w.tokens.store.oauth && w.tokens.store.oauth[Sha256(bearer)].family.Some?
    requires M.Accepts(w.tokens.store, bearer, now).Some?
    ensures Traced(otp, w, slack, bearer, now)
  {
    hide Genuine, EvidenceSpent, Staged, NotYet, Injective, Distinct, Inv.Inv, M.Accepts;
    TokenBound(w.tokens, bearer, now);
  }

  // Whatever refreshes and restarts happened, a bearer of a family is accepted no later than
  // the time of its second factor plus ticket, code and session lifetimes (and the clock
  // slack of the three handlers).
  lemma EndToEndBound(otp: (string, int) -> string, cfg: Config, slack: real, start: real, ops: seq<Op>,
                      bearer: Secret, now: real)
    requires LegalRun(otp, cfg, slack, Init(start), ops)
    requires var s := Run(otp, cfg, Init(start), ops).tokens.store;
             && Sha256(bearer) in s.oauth && s.oauth[Sha256(bearer)].family.Some?
             && M.Accepts(s, bearer, now).Some?
    ensures Traced(otp, Run(otp, cfg, Init(start), ops), slack, bearer, now)
  {
    StartInv(otp, start, slack);
    hide *;
    RunInv(otp, cfg, Init(start), slack, ops);
    RunGenuine(otp, cfg, Init(start), slack, ops);
    InvTraced(otp, Run(otp, cfg, Init(start), ops), slack, bearer, now);
  }

  lemma TokenBound(w: H.World, bearer: Secret, now: real)
    requires Inv.Inv(w) && Sha256(bearer) in w.store.oauth && w.store.oauth[Sha256(bearer)].family.Some?
    requires M.Accepts(w.store, bearer, now).Some?
    ensures var f := w.store.oauth[Sha256(bearer)].family.value;
            f in w.families && now <= w.families[f].end && M.Accepts(w.store, bearer, now) == Some(w.families[f].client)
  {
  }

  // A code is exchanged only by the client, at the redirect and with the verifier that the
  // authorization request it descends from named.
  lemma ExchangeNeedsVerifier(otp: (string, int) -> string, cfg: Config, slack: real, start: real, ops: seq<Op>, op: Op)
    requires LegalRun(otp, cfg, slack, Init(start), ops) && op.ExchangeCode?
    requires var w := Run(otp, cfg, Init(start), ops);
             Legal(w, slack, op) && op.family in Step(otp, cfg, w, op).familyOf
    ensures var w := Run(otp, cfg, Init(start), ops);
            && op.code in w.codeOf && w.codeOf[op.code] < |w.factors|
            && w.factors[w.codeOf[op.code]].params == Params(op.client, op.redirect, S256(op.verifier), "S256")
            && Step(otp, cfg, w, op).familyOf[op.family] == w.codeOf[op.code]
  {
    hide H.Step, PipeInv, Inv.Inv;
    StartInv(otp, start, slack);
    RunInv(otp, cfg, Init(start), slack, ops);
    var w := Run(otp, cfg, Init(start), ops);
    hide Run, LegalRun;
    FamilyFresh(w, slack, op.family);
    if op.code in w.codes {
      CodeEntry(w, slack, op.code);
    }
  }
}
