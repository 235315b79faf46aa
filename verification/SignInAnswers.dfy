/** What each step of the sign-in answers, written out, and that a sign-in whose steps come in time
    goes through whatever else the server does meanwhile. */
module SignInAnswers {
  import opened Prelude
  import opened TokenTypes
  import opened OneShotStores
  import opened SignIn
  import T = Totp
  import H = TokenHistory
  import A = TokenAnswers
  import M = TokenModel

  // --- one step at a time ------------------------------------------------------------------

  // The second factor of a request is good: a code that is accepted while nobody is locked out, or a
  // signed answer, in time, to a challenge that its own owner got to sign in.
  ghost predicate Passes(otp: (string, int) -> string, w: World, op: Op) {
    match op
    case AuthorizePost(roster, params, code, locked, _, now, _) =>
      !locked && T.CheckTotp(otp, roster, w.last, params.client, code, now).1 == T.OK
    case PasskeyVerify(roster, params, state, credential, signed, _, now, _) =>
      && state in w.challenges && now <= w.challenges[state].expiresAt
      && w.challenges[state].value == Ceremony(Authenticate, credential) && signed
      && credential == T.SeedOwner(roster, params.client)
    case _ => false
  }


  // A good factor gets a ticket for 600 s with the request's parameters; any other request leaves
  // tickets, codes and tokens alone. Either way a passkey challenge is spent, and a locked-out
  // request spends no TOTP step.
  lemma TicketIff(otp: (string, int) -> string, cfg: Config, w: World, op: Op)
    requires op.AuthorizePost? || op.PasskeyVerify?
    ensures var w' := Step(otp, cfg, w, op);
            && (if Passes(otp, w, op) then
                  && op.ticket in w'.tickets && w'.tickets[op.ticket] == Timed(op.params, op.later + 600.0)
                  && op.ticket in w'.ticketOf && w'.ticketOf[op.ticket] == |w.factors| == |w'.factors| - 1
                else w'.tickets == w.tickets && w'.factors == w.factors)
            && w'.codes == w.codes && w'.codeOf == w.codeOf && w'.tokens == w.tokens
            && (op.PasskeyVerify? ==> op.state !in w'.challenges)
            && (op.AuthorizePost? && op.locked ==> w' == w)
  {
    hide H.Step, T.CheckTotp, T.FindClaim, T.SeedOwner;
  }

  // A passkey challenge is good for 180 s, for whoever guards the client; the others in time are kept.
  lemma ChallengeIff(otp: (string, int) -> string, cfg: Config, w: World, op: Op, other: string)
    requires op.PasskeyOptions?
    ensures var w' := Step(otp, cfg, w, op);
            && op.state in w'.challenges
            && w'.challenges[op.state] == Timed(Ceremony(op.purpose, T.SeedOwner(op.roster, op.client)), op.now + 180.0)
            && (other in w.challenges && other != op.state ==>
                  (other in w'.challenges <==> op.now <= w.challenges[other].expiresAt))
            && w'.tickets == w.tickets && w'.codes == w.codes && w'.factors == w.factors && w'.tokens == w.tokens
  {
    hide H.Step, T.SeedOwner;
  }

  // A ticket in time is turned into a code for 60 s; the ticket is gone either way.
  lemma CodeIff(otp: (string, int) -> string, cfg: Config, w: World, slack: real, op: Op)
    requires PipeInv(w, slack) && Legal(w, slack, op) && op.Finalize?
    ensures var w' := Step(otp, cfg, w, op);
            && op.ticket !in w'.tickets
            && (if op.ticket in w.tickets && op.now <= w.tickets[op.ticket].expiresAt then
                  && op.code in w'.codes && w'.codes[op.code] == Timed(w.tickets[op.ticket].value, op.later + 60.0)
                  && op.ticket in w.ticketOf && op.code in w'.codeOf && w'.codeOf[op.code] == w.ticketOf[op.ticket]
                else w'.codes == w.codes)
            && w'.factors == w.factors && w'.tokens == w.tokens
  {
    IndicesKnown(w, slack);
    FinalizedExactly(w, op);
    hide PipeInv, H.Step, H.Legal, Finalized;
  }

  lemma TicketTaken(m: map<string, Timed<Params>>, ticket: string, now: real)
    ensures var (left, params) := ConsumeTicket(m, ticket, now, now);
            && ticket !in left
            && params == if ticket in m && now <= m[ticket].expiresAt then Some(m[ticket].value) else None
  {
  }

  lemma CodeMade(m: map<string, Timed<Params>>, code: string, params: Params, now: real)
    ensures var after := IssueCode(m, code, params, now, now);
            code in after && after[code] == Timed(params, now + 60.0)
  {
  }

  lemma FinalizedExactly(w: World, op: Op)
    requires w.tickets.Keys <= w.ticketOf.Keys && op.Finalize?
    ensures var w' := Finalized(w, op);
            && op.ticket !in w'.tickets
            && (if op.ticket in w.tickets && op.now <= w.tickets[op.ticket].expiresAt then
                  && op.code in w'.codes && w'.codes[op.code] == Timed(w.tickets[op.ticket].value, op.later + 60.0)
                  && op.ticket in w.ticketOf && op.code in w'.codeOf && w'.codeOf[op.code] == w.ticketOf[op.ticket]
                else w'.codes == w.codes)
            && w'.factors == w.factors && w'.tokens == w.tokens
  {
    TicketTaken(w.tickets, op.ticket, op.now);
    if op.ticket in w.tickets {
      assert op.ticket in w.ticketOf;
      CodeMade(w.codes, op.code, w.tickets[op.ticket].value, op.later);
    }
    hide ConsumeTicket, IssueCode;
  }

  // A code in time opens a family for the client, the redirect and the verifier it was issued for,
  // and for no other; the code is gone either way.
  lemma ExchangeIff(otp: (string, int) -> string, cfg: Config, w: World, slack: real, op: Op)
    requires PipeInv(w, slack) && Legal(w, slack, op) && op.ExchangeCode?
    ensures var w' := Step(otp, cfg, w, op);
            var good := op.code in w.codes && op.now <= w.codes[op.code].expiresAt && op.verifier != ""
                && w.codes[op.code].value == Params(op.client, op.redirect, S256(op.verifier), "S256");
            && op.code !in w'.codes
            && (if good then
                  && w'.tokens == H.Step(w.tokens, cfg, H.IssueOAuth(op.client, Some(op.family), op.access,
                                                                     op.refresh, op.start, op.mintNow, op.cleanNow))
                  && op.code in w.codeOf && op.family in w'.familyOf && w'.familyOf[op.family] == w.codeOf[op.code]
                else w'.tokens == w.tokens)
            && w'.factors == w.factors && w'.tickets == w.tickets
  {
    IndicesKnown(w, slack);
    RedeemsIff(w.codes, op);
    if op.code in w.codes {
      assert op.code in w.codeOf;
    }
    hide PipeInv, H.Step, Legal, Redeems;
    assert Step(otp, cfg, w, op) == Exchanged(cfg, w, op);
    hide Step;
  }

  lemma RedeemsIff(codes: map<string, Timed<Params>>, op: Op)
    requires op.ExchangeCode?
    ensures Redeems(codes, op.code, op.client, op.redirect, op.verifier, op.now) <==>
              && op.code in codes && op.now <= codes[op.code].expiresAt && op.verifier != ""
              && codes[op.code].value == Params(op.client, op.redirect, S256(op.verifier), "S256")
  {
  }

  // --- in the meantime -------------------------------------------------------------------------

  // `op` is no restart, does not present `ticket`, and reads no clock past `until`.
  predicate SparesTicket(op: Op, ticket: string, until: real) {
    match op
    case AuthorizePost(_, _, _, _, _, now, _) => now <= until
    case PasskeyVerify(_, _, _, _, _, _, now, _) => now <= until
    case Finalize(t, _, now, _) => t != ticket && now <= until
    case Reboot(_) => false
    case _ => true
  }

  predicate SparesCode(op: Op, code: string, until: real) {
    match op
    case Finalize(_, _, _, later) => later <= until
    case ExchangeCode(c, _, _, _, _, _, _, _, _, _, _) => c != code
    case Reboot(_) => false
    case _ => true
  }

  ghost predicate HeldTicket(w: World, ticket: string, item: Timed<Params>, i: nat) {
    && ticket in w.tickets && w.tickets[ticket] == item
    && ticket in w.ticketOf && w.ticketOf[ticket] == i
  }

  ghost predicate HeldCode(w: World, code: string, item: Timed<Params>, i: nat) {
    && code in w.codes && w.codes[code] == item
    && code in w.codeOf && w.codeOf[code] == i
  }

  // What most operations leave alone.
  lemma TicketsLeft(otp: (string, int) -> string, cfg: Config, w: World, op: Op)
    requires !op.AuthorizePost? && !op.PasskeyVerify? && !op.Finalize? && !op.Reboot?
    ensures Step(otp, cfg, w, op).tickets == w.tickets && Step(otp, cfg, w, op).ticketOf == w.ticketOf
  {
    hide H.Step, T.CheckTotp, T.SeedOwner, Redeems, ConsumeChallenge, Challenged, Authorized, Verified, Finalized,
         Rebooted;
    if !op.ExchangeCode? {
      hide Exchanged;
      ChallengesOnly(w);
    }
  }

  lemma ChallengesOnly(w: World)
    ensures forall c, state, now :: Challenged(w, c, state, now).tickets == w.tickets
                                    && Challenged(w, c, state, now).ticketOf == w.ticketOf
                                    && Challenged(w, c, state, now).codes == w.codes
                                    && Challenged(w, c, state, now).codeOf == w.codeOf
  {
    hide IssueChallenge;
  }

  lemma CodesLeft(otp: (string, int) -> string, cfg: Config, w: World, op: Op)
    requires !op.Finalize? && !op.ExchangeCode? && !op.Reboot?
    ensures Step(otp, cfg, w, op).codes == w.codes && Step(otp, cfg, w, op).codeOf == w.codeOf
  {
    if op.AuthorizePost? || op.PasskeyVerify? {
      TicketIff(otp, cfg, w, op);
      hide Step, Passes;
    } else {
      hide H.Step, T.CheckTotp, T.SeedOwner, ConsumeChallenge, Challenged, Authorized, Verified, Finalized, Exchanged,
           Rebooted;
      ChallengesOnly(w);
    }
  }

  lemma TicketSpared(otp: (string, int) -> string, cfg: Config, w: World, slack: real, op: Op, ticket: string,
                     item: Timed<Params>, i: nat)
    requires HeldTicket(w, ticket, item, i) && Legal(w, slack, op) && SparesTicket(op, ticket, item.expiresAt)
    ensures HeldTicket(Step(otp, cfg, w, op), ticket, item, i)
  {
    if op.AuthorizePost? || op.PasskeyVerify? {
      ApprovedBesides(otp, cfg, w, op, ticket);
      hide Step, H.Legal;
    } else if op.Finalize? {
      hide IssueCode, H.Step, H.Legal;
    } else {
      TicketsLeft(otp, cfg, w, op);
      hide Step, Legal;
    }
  }

  // Other tickets in time are kept.
  lemma ApproveKeeps(w: World, f: Factor, mine: string, later: real, ticket: string)
    requires mine != ticket && ticket in w.tickets && f.time <= w.tickets[ticket].expiresAt && ticket in w.ticketOf
    ensures var w' := Approve(w, f, mine, later);
            && ticket in w'.tickets && w'.tickets[ticket] == w.tickets[ticket]
            && ticket in w'.ticketOf && w'.ticketOf[ticket] == w.ticketOf[ticket]
  {
  }

  lemma ApprovedBesides(otp: (string, int) -> string, cfg: Config, w: World, op: Op, ticket: string)
    requires (op.AuthorizePost? || op.PasskeyVerify?) && op.ticket != ticket
    requires ticket in w.tickets && op.now <= w.tickets[ticket].expiresAt && ticket in w.ticketOf
    ensures var w' := Step(otp, cfg, w, op);
            && ticket in w'.tickets && w'.tickets[ticket] == w.tickets[ticket]
            && ticket in w'.ticketOf && w'.ticketOf[ticket] == w.ticketOf[ticket]
  {
    hide T.FindClaim, H.Step, H.Legal, T.SeedOwner, ConsumeChallenge, Approve;
    if op.AuthorizePost? {
      var (last, result) := T.CheckTotp(otp, op.roster, w.last, op.params.client, op.code, op.now);
      if !op.locked && result == T.OK {
        var c := T.FindClaim(otp, op.roster, op.params.client, op.code, op.now).value;
        var f := Factor(op.params, op.now, TotpStep(w.boot, c.holder, c.step), op.roster, Code(op.code));
        ApproveKeeps(w.(last := last), f, op.ticket, op.later, ticket);
      }
    } else {
      var w1 := w.(challenges := ConsumeChallenge(w.challenges, op.state, Authenticate, op.now, op.now).0);
      var f := Factor(op.params, op.now, Passkey(op.state), op.roster, Assertion(op.credential, op.signed));
      ApproveKeeps(w1, f, op.ticket, op.later, ticket);
    }
  }

  lemma CodeSpared(otp: (string, int) -> string, cfg: Config, w: World, slack: real, op: Op, code: string,
                   item: Timed<Params>, i: nat)
    requires HeldCode(w, code, item, i) && Legal(w, slack, op) && SparesCode(op, code, item.expiresAt)
    ensures HeldCode(Step(otp, cfg, w, op), code, item, i)
  {
    if op.Finalize? {
      hide ConsumeTicket, H.Step, H.Legal;
    } else if op.ExchangeCode? {
      hide Redeems, H.Step, H.Legal;
    } else {
      CodesLeft(otp, cfg, w, op);
      hide Step, Legal;
    }
  }

  // A ticket that is not presented stays until its time, through anything but a restart ...
  lemma {:induction false} TicketStays(otp: (string, int) -> string, cfg: Config, w: World, slack: real, ops: seq<Op>,
                                       ticket: string, item: Timed<Params>, i: nat)
    requires HeldTicket(w, ticket, item, i) && LegalRun(otp, cfg, slack, w, ops)
    requires forall k :: 0 <= k < |ops| ==> SparesTicket(ops[k], ticket, item.expiresAt)
    ensures HeldTicket(Run(otp, cfg, w, ops), ticket, item, i)
    decreases |ops|
  {
    hide HeldTicket, Step, Legal, SparesTicket;
    if ops != [] {
      TicketSpared(otp, cfg, w, slack, ops[0], ticket, item, i);
      TicketStays(otp, cfg, Step(otp, cfg, w, ops[0]), slack, ops[1..], ticket, item, i);
    }
  }

  // ... and so does a code.
  lemma {:induction false} CodeStays(otp: (string, int) -> string, cfg: Config, w: World, slack: real, ops: seq<Op>,
                                     code: string, item: Timed<Params>, i: nat)
    requires HeldCode(w, code, item, i) && LegalRun(otp, cfg, slack, w, ops)
    requires forall k :: 0 <= k < |ops| ==> SparesCode(ops[k], code, item.expiresAt)
    ensures HeldCode(Run(otp, cfg, w, ops), code, item, i)
    decreases |ops|
  {
    hide HeldCode, Step, Legal, SparesCode;
    if ops != [] {
      CodeSpared(otp, cfg, w, slack, ops[0], code, item, i);
      CodeStays(otp, cfg, Step(otp, cfg, w, ops[0]), slack, ops[1..], code, item, i);
    }
  }

  // --- the whole way -----------------------------------------------------------------------------

  // From a request with a good factor, the page that its ticket opens within 600 s gets the code.
  lemma TicketToCode(otp: (string, int) -> string, cfg: Config, w: World, slack: real, op: Op, ops: seq<Op>, fin: Op)
    requires PipeInv(w, slack) && Inv.Inv(w.tokens) && LegalRun(otp, cfg, slack, w, [op] + ops + [fin])
    requires (op.AuthorizePost? || op.PasskeyVerify?) && Passes(otp, w, op)
    requires forall k :: 0 <= k < |ops| ==> SparesTicket(ops[k], op.ticket, op.later + 600.0)
    requires fin.Finalize? && fin.ticket == op.ticket && fin.now <= op.later + 600.0
    ensures HeldCode(Run(otp, cfg, w, [op] + ops + [fin]), fin.code, Timed(op.params, fin.later + 60.0), |w.factors|)
  {
    var w1, item := Step(otp, cfg, w, op), Timed(op.params, op.later + 600.0);
    var w2 := Run(otp, cfg, w1, ops);
    InTurn(otp, cfg, w, slack, op, ops, fin);
    StepInv(otp, cfg, w, slack, op);
    RunInv(otp, cfg, w1, slack, ops);
    TicketIff(otp, cfg, w, op);
    hide Step, Run, LegalRun, Legal, PipeInv, Inv.Inv, Passes, SparesTicket;
    TicketStays(otp, cfg, w1, slack, ops, op.ticket, item, |w.factors|);
    CodeIff(otp, cfg, w2, slack, fin);
  }

  lemma InTurn(otp: (string, int) -> string, cfg: Config, w: World, slack: real, a: Op, ops: seq<Op>, b: Op)
    requires LegalRun(otp, cfg, slack, w, [a] + ops + [b])
    ensures var w1 := Step(otp, cfg, w, a);
            var w2 := Run(otp, cfg, w1, ops);
            && Legal(w, slack, a) && LegalRun(otp, cfg, slack, w1, ops) && Legal(w2, slack, b)
            && Run(otp, cfg, w, [a] + ops + [b]) == Step(otp, cfg, w2, b)
  {
    hide Step, Legal;
    assert ([a] + ops + [b])[1..] == ops + [b];
    LastStep(otp, cfg, Step(otp, cfg, w, a), slack, ops, b);
  }

  lemma {:induction false} LastStep(otp: (string, int) -> string, cfg: Config, w: World, slack: real, ops: seq<Op>,
                                    b: Op)
    requires LegalRun(otp, cfg, slack, w, ops + [b])
    ensures LegalRun(otp, cfg, slack, w, ops) && Legal(Run(otp, cfg, w, ops), slack, b)
    ensures Run(otp, cfg, w, ops + [b]) == Step(otp, cfg, Run(otp, cfg, w, ops), b)
    decreases |ops|
  {
    hide Step, Legal;
    if ops == [] {
      assert ([] + [b])[1..] == [] && ops + [b] == [b];
    } else {
      assert (ops + [b])[1..] == ops[1..] + [b] && (ops + [b])[0] == ops[0];
      LastStep(otp, cfg, Step(otp, cfg, w, ops[0]), slack, ops[1..], b);
    }
  }

  // And the client that exchanges the code within 60 s, with the verifier it chose, has opened the
  // family of that factor: its bearer is accepted for 24 h, and for no longer.
  lemma CodeToTokens(otp: (string, int) -> string, cfg: Config, w: World, slack: real, ops: seq<Op>, exch: Op,
                     code: string, params: Params, end: real, i: nat, t: real)
    requires PipeInv(w, slack) && Inv.Inv(w.tokens) && LegalRun(otp, cfg, slack, w, ops + [exch]) && ValidConfig(cfg)
    requires HeldCode(w, code, Timed(params, end), i)
    requires forall k :: 0 <= k < |ops| ==> SparesCode(ops[k], code, end)
    requires exch.ExchangeCode? && exch.code == code && exch.now <= end && exch.verifier != ""
    requires params == Params(exch.client, exch.redirect, S256(exch.verifier), "S256")
    requires exch.start <= exch.mintNow && exch.cleanNow <= exch.start + 86400.0
    ensures var w' := Run(otp, cfg, w, ops + [exch]);
            && exch.family in w'.familyOf && w'.familyOf[exch.family] == i
            && M.Accepts(w'.tokens.store, exch.access, t)
               == if t <= exch.start + 86400.0 then Some(exch.client) else None
  {
    var w1 := Run(otp, cfg, w, ops);
    LastStep(otp, cfg, w, slack, ops, exch);
    RunInv(otp, cfg, w, slack, ops);
    CodeStays(otp, cfg, w, slack, ops, code, Timed(params, end), i);
    ExchangeIff(otp, cfg, w1, slack, exch);
    Opened(otp, cfg, w1, slack, exch, t);
  }

  lemma Opened(otp: (string, int) -> string, cfg: Config, w: World, slack: real, op: Op, t: real)
    requires Inv.Inv(w.tokens) && Legal(w, slack, op) && op.ExchangeCode? && ValidConfig(cfg)
    requires op.start <= op.mintNow && op.cleanNow <= op.start + 86400.0
    ensures var s := H.Step(w.tokens, cfg, Opening(op)).store;
            M.Accepts(s, op.access, t) == if t <= op.start + 86400.0 then Some(op.client) else None
  {
    A.SignInPair(w.tokens, cfg, Opening(op));
    Inv.StepInv(w.tokens, cfg, Opening(op));
    A.AcceptedIff(H.Step(w.tokens, cfg, Opening(op)).store, op.access, t);
  }
}
