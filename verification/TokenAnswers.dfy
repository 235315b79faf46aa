/** What the token store answers, written out: which bearers it accepts and until when, which
    refresh tokens it exchanges, and that nothing but the calls meant to end a token ends it
    early. */
module TokenAnswers {
  import opened Prelude
  import opened TokenTypes
  import opened TokenModel
  import opened TokenHistory
  import opened TokenInvariant
  import opened TokenTheorems

  // --- validation ------------------------------------------------------------------------

  predicate Until(e: Expiry, t: real) {
    match e
    case Never => true
    case At(time) => t <= time
  }

  // A bearer is accepted exactly when it is held and not past its expiry, as the client it was
  // issued to.
  lemma AcceptedIff(s: Store, token: Secret, t: real)
    ensures token in s.tokens ==>
              Accepts(s, token, t) == if Until(s.tokens[token].expiresAt, t) then Some(s.tokens[token].client) else None
    ensures token !in s.tokens && Sha256(token) in s.oauth ==>
              Accepts(s, token, t) ==
              if t <= s.oauth[Sha256(token)].expiresAt then Some(s.oauth[Sha256(token)].client) else None
    ensures token !in s.tokens && Sha256(token) !in s.oauth ==> Accepts(s, token, t) == None
  {
  }

  // --- dashboard and named bearers -----------------------------------------------------------

  // The expiry a bearer is issued with at `now`: 24 h, or the configured lifetime of named ones,
  // of which 0 means none.
  function IssuedUntil(cfg: Config, name: Option<string>, now: real): Expiry {
    if name.None? then At(now + 86400.0)
    else if cfg.namedTtl == 0 then Never
    else At(now + cfg.namedTtl as real)
  }

  // The unexpired named tokens of `client` at `now`.
  function LiveNamed(s: Store, client: ClientId, now: real): set<Secret> {
    set t | t in s.tokens && s.tokens[t].client == client && s.tokens[t].name.Some? && Until(s.tokens[t].expiresAt, now)
  }

  // A bearer is refused only when it is named and its client has three unexpired named ones.
  lemma RefusedIff(s: Store, cfg: Config, client: ClientId, name: Option<string>, token: Secret,
                   countNow: real, now: real, cleanNow: real)
    ensures TokenModel.Issue(s, cfg, client, name, token, countNow, now, cleanNow).1.None? <==>
              name.Some? && |LiveNamed(s, client, countNow)| >= 3
    ensures name.None? ==> TokenModel.Issue(s, cfg, client, name, token, countNow, now, cleanNow).1 == Some(86400)
    ensures name.Some? && |LiveNamed(s, client, countNow)| < 3 ==>
              TokenModel.Issue(s, cfg, client, name, token, countNow, now, cleanNow).1 == Some(cfg.namedTtl)
  {
    assert NamedOf(Cleanup(s, countNow).tokens, client) == LiveNamed(s, client, countNow);
  }

  predicate Issued(s: Store, cfg: Config, op: Op)
    requires op.Issue?
  {
    TokenModel.Issue(s, cfg, op.client, op.name, op.token, op.countNow, op.now, op.cleanNow).1.Some?
  }

  // An issued bearer is held, unless it has expired by the sweep that follows; a named one is in the
  // file too.
  lemma IssuedBearer(w: World, cfg: Config, op: Op)
    requires op.Issue? && Issued(w.store, cfg, op)
    ensures var s, b := Step(w, cfg, op).store, Bearer(op.client, op.name, IssuedUntil(cfg, op.name, op.now), op.now);
            && (op.token in s.tokens <==> Until(b.expiresAt, op.cleanNow))
            && (op.token in s.tokens ==> s.tokens[op.token] == b)
            && (op.token in s.tokens && op.name.Some? ==> op.token in s.db.named && s.db.named[op.token] == b)
  {
    hide NamedOf;
  }

  predicate NoLater(e: Expiry, than: Expiry) {
    than.At? ==> e.At? && e.time <= than.time
  }

  // `token`, if held, is what `b` says, or stops earlier.
  ghost predicate AtMost(s: Store, token: Secret, b: Bearer) {
    token in s.tokens ==>
      && s.tokens[token].client == b.client && s.tokens[token].name == b.name
      && NoLater(s.tokens[token].expiresAt, b.expiresAt)
  }

  // `after` has bearers of `before` only, none with more time, but for `issued`.
  ghost predicate Dwindled(before: map<Secret, Bearer>, after: map<Secret, Bearer>, issued: set<Secret>) {
    forall t :: t in after && t !in issued ==>
      && t in before && after[t].client == before[t].client && after[t].name == before[t].name
      && NoLater(after[t].expiresAt, before[t].expiresAt)
  }

  lemma GrantsDwindle(s: Store, cfg: Config, op: Op)
    requires op.IssueOAuth? || op.RefreshGrant? || op.Tidy?
    ensures SubMap(Apply(s, cfg, op).tokens, s.tokens)
  {
  }

  lemma IssueDwindles(s: Store, cfg: Config, op: Op)
    requires op.Issue?
    ensures Dwindled(s.tokens, Apply(s, cfg, op).tokens, {op.token})
  {
    hide NamedOf;
  }

  lemma RevokeDwindles(s: Store, cfg: Config, op: Op)
    requires op.Revoke? || op.RevokeNamed? || op.Validate?
    ensures Dwindled(s.tokens, Apply(s, cfg, op).tokens, {})
  {
    hide PrefixMatches;
  }

  lemma RestartDwindles(w: World, cfg: Config, op: Op)
    requires Inv(w) && op.Restart?
    ensures SubMap(Apply(w.store, cfg, op).tokens, w.store.tokens)
  {
    hide Inv;
    RestartSurvivors(w, op.now);
  }

  lemma TokensDwindle(w: World, cfg: Config, op: Op)
    requires Inv(w)
    ensures Dwindled(w.store.tokens, Step(w, cfg, op).store.tokens, if op.Issue? then {op.token} else {})
  {
    hide Inv, Kills, RevokedBy, RevokedNamedBy;
    if op.IssueOAuth? || op.RefreshGrant? || op.Tidy? {
      GrantsDwindle(w.store, cfg, op);
    } else if op.Issue? {
      IssueDwindles(w.store, cfg, op);
    } else if op.Restart? {
      RestartDwindles(w, cfg, op);
    } else if op.Revoke? || op.RevokeNamed? || op.Validate? {
      RevokeDwindles(w.store, cfg, op);
    } else {
      ClientsKeepTokens(w.store, cfg, op);
    }
    hide Apply;
  }

  lemma ClientsKeepTokens(s: Store, cfg: Config, op: Op)
    requires op.RevokeFamily? || op.RevokeClient? || op.PruneUnknown?
    ensures Apply(s, cfg, op).tokens == s.tokens
  {
  }

  lemma BearerShrinks(w: World, cfg: Config, op: Op, token: Secret, b: Bearer)
    requires Inv(w) && Legal(w, op) && token in w.issued && AtMost(w.store, token, b)
    ensures token in Step(w, cfg, op).issued && AtMost(Step(w, cfg, op).store, token, b)
  {
    hide Inv, Apply, Kills, RevokedBy, RevokedNamedBy;
    TokensDwindle(w, cfg, op);
  }

  lemma {:induction false} BearerNeverGrows(w: World, cfg: Config, ops: seq<Op>, token: Secret, b: Bearer)
    requires Inv(w) && LegalRun(w, cfg, ops) && token in w.issued && AtMost(w.store, token, b)
    ensures token in Run(w, cfg, ops).issued && AtMost(Run(w, cfg, ops).store, token, b)
    decreases |ops|
  {
    hide Inv, AtMost, Step, Legal;
    if ops != [] {
      StepInv(w, cfg, ops[0]);
      BearerShrinks(w, cfg, ops[0], token, b);
      BearerNeverGrows(Step(w, cfg, ops[0]), cfg, ops[1..], token, b);
    }
  }

  // --- OAuth bearers ---------------------------------------------------------------------------

  // `after` has OAuth bearers of `before` only, none with more time, but for `issued`.
  ghost predicate OAuthDwindled(before: map<Hash, Access>, after: map<Hash, Access>, issued: set<Hash>) {
    forall h :: h in after && h !in issued ==>
      && h in before && after[h].client == before[h].client && after[h].family == before[h].family
      && after[h].expiresAt <= before[h].expiresAt
  }

  // The OAuth bearer a call mints, if any.
  ghost function MintedAccess(w: World, op: Op): set<Hash> {
    if op.IssueOAuth? || Rotates(w.store, op) then {Sha256(MintedSecret(op))} else {}
  }

  function MintedSecret(op: Op): Secret {
    match op
    case IssueOAuth(_, _, access, _, _, _, _) => access
    case RefreshGrant(_, _, access, _, _, _, _) => access
    case _ => ""
  }

  lemma IssueOAuthDwindles(s: Store, cfg: Config, op: Op)
    requires op.IssueOAuth?
    ensures OAuthDwindled(s.oauth, Apply(s, cfg, op).oauth, {Sha256(op.access)})
  {
  }

  lemma RotationDwindles(s: Store, cfg: Config, op: Op)
    requires Rotates(s, op)
    ensures OAuthDwindled(s.oauth, Apply(s, cfg, op).oauth, {Sha256(op.access)})
  {
  }

  lemma OthersDwindle(s: Store, cfg: Config, op: Op)
    requires !op.IssueOAuth? && !op.RefreshGrant? && !op.Restart? && !op.Issue?
    ensures OAuthDwindled(s.oauth, Apply(s, cfg, op).oauth, {})
  {
    if op.RevokeNamed? {
      RevokeNamedTokensOnly(s, op.prefix, op.client, op.now);
      hide TokenModel.RevokeNamed;
    }
    hide PrefixMatches, Holders;
  }

  lemma RejectionDwindles(s: Store, cfg: Config, op: Op)
    requires op.RefreshGrant? && !Rotates(s, op)
    ensures OAuthDwindled(s.oauth, Apply(s, cfg, op).oauth, {})
  {
  }

  lemma OAuthDwindles(w: World, cfg: Config, op: Op)
    requires Inv(w)
    ensures OAuthDwindled(w.store.oauth, Step(w, cfg, op).store.oauth, MintedAccess(w, op))
  {
    hide Inv, Kills, RevokedBy, RevokedNamedBy, Rotates;
    if op.IssueOAuth? {
      IssueOAuthDwindles(w.store, cfg, op);
    } else if Rotates(w.store, op) {
      RotationOnlyByRefresh(w.store, op);
      RotationDwindles(w.store, cfg, op);
    } else if op.RefreshGrant? {
      RejectionDwindles(w.store, cfg, op);
    } else if op.Restart? {
      RestartSurvivors(w, op.now);
    } else if op.Issue? {
      IssueOnlyDrops(w.store, cfg, op.client, op.name, op.token, op.countNow, op.now, op.cleanNow);
      hide TokenModel.Issue;
    } else {
      OthersDwindle(w.store, cfg, op);
      hide Apply;
    }
  }

  lemma RotationOnlyByRefresh(s: Store, op: Op)
    requires Rotates(s, op)
    ensures op.RefreshGrant?
  {
  }

  // A dashboard bearer never becomes an OAuth bearer.
  lemma {:induction false} NeverOAuth(w: World, cfg: Config, ops: seq<Op>, token: Secret)
    requires Inv(w) && LegalRun(w, cfg, ops) && token in w.issued && Sha256(token) !in w.store.oauth
    ensures Sha256(token) !in Run(w, cfg, ops).store.oauth
    decreases |ops|
  {
    hide Inv;
    if ops != [] {
      StepInv(w, cfg, ops[0]);
      OAuthDwindles(w, cfg, ops[0]);
      FreshAccess(w, ops[0], token);
      hide Step, Legal, MintedAccess;
      NeverOAuth(Step(w, cfg, ops[0]), cfg, ops[1..], token);
    }
  }

  lemma FreshAccess(w: World, op: Op, token: Secret)
    requires Legal(w, op) && token in w.issued
    ensures Sha256(token) !in MintedAccess(w, op)
  {
  }

  // Over every run, whatever happens in it: a dashboard bearer is accepted for 24 h at most, a named
  // one for its configured lifetime at most, and only as the client it was issued to.
  lemma BearerEnds(w: World, cfg: Config, op: Op, ops: seq<Op>, t: real)
    requires Inv(w) && op.Issue? && Legal(w, op) && Issued(w.store, cfg, op) && LegalRun(Step(w, cfg, op), cfg, ops)
    requires Accepts(Run(Step(w, cfg, op), cfg, ops).store, op.token, t).Some?
    ensures Until(IssuedUntil(cfg, op.name, op.now), t)
    ensures Accepts(Run(Step(w, cfg, op), cfg, ops).store, op.token, t) == Some(op.client)
  {
    var w1, b := Step(w, cfg, op), Bearer(op.client, op.name, IssuedUntil(cfg, op.name, op.now), op.now);
    IssuedBearer(w, cfg, op);
    StepInv(w, cfg, op);
    BearerNeverGrows(w1, cfg, ops, op.token, b);
    SeparateFact(w1, op.token);
    NeverOAuth(w1, cfg, ops, op.token);
    AcceptedIff(Run(w1, cfg, ops).store, op.token, t);
  }

  // --- revocation --------------------------------------------------------------------------------

  // Revoking a held bearer leaves it until its expiry or 8 s, whichever comes first, takes a named
  // one out of the file, and touches no other.
  lemma RevokedBearer(w: World, cfg: Config, token: Secret, r: real)
    requires token in w.store.tokens
    ensures var before, s := w.store.tokens[token], Step(w, cfg, Op.Revoke(token, r)).store;
            && TokenModel.Revoke(w.store, token, r).1
            && token in s.tokens && s.tokens[token].client == before.client
            && (forall t :: Until(s.tokens[token].expiresAt, t) <==> Until(before.expiresAt, t) && t <= r + 8.0)
            && (before.name.Some? ==> token !in s.db.named)
            && (forall other :: other in w.store.tokens && other != token ==>
                  other in s.tokens && s.tokens[other] == w.store.tokens[other])
            && s.oauth == w.store.oauth && s.refresh == w.store.refresh
  {
  }

  lemma {:induction false} EndsBy(w: World, cfg: Config, token: Secret, end: real, ops: seq<Op>, t: real)
    requires Inv(w) && token in w.store.tokens && LegalRun(w, cfg, ops)
    requires Until(w.store.tokens[token].expiresAt, t) ==> t <= end
    requires Accepts(Run(w, cfg, ops).store, token, t).Some?
    ensures t <= end
  {
    HeldIssued(w, token);
    SeparateFact(w, token);
    hide Inv, Step, Accepts;
    BearerNeverGrows(w, cfg, ops, token, w.store.tokens[token]);
    NeverOAuth(w, cfg, ops, token);
    AcceptedIff(Run(w, cfg, ops).store, token, t);
  }

  // Over every run: once revoked at `r`, a bearer is accepted no later than `r + 8`.
  lemma RevokedEnds(w: World, cfg: Config, token: Secret, r: real, ops: seq<Op>, t: real)
    requires Inv(w) && token in w.store.tokens && LegalRun(Step(w, cfg, Op.Revoke(token, r)), cfg, ops)
    requires Accepts(Run(Step(w, cfg, Op.Revoke(token, r)), cfg, ops).store, token, t).Some?
    ensures t <= r + 8.0
  {
    var op := Op.Revoke(token, r);
    RevokedBearer(w, cfg, token, r);
    StepInv(w, cfg, op);
    hide Inv, Step, Accepts, Run, LegalRun;
    EndsBy(Step(w, cfg, op), cfg, token, r + 8.0, ops, t);
  }

  lemma HeldIssued(w: World, token: Secret)
    requires Inv(w) && token in w.store.tokens
    ensures token in w.issued
  {
  }

  // The held named tokens of `client` that start with `prefix`.
  function Named(s: Store, prefix: string, client: ClientId): set<Secret> {
    set t | t in s.tokens && |prefix| <= |t| && t[..|prefix|] == prefix
            && s.tokens[t].client == client && s.tokens[t].name.Some?
  }

  // Revocation by prefix revokes a token exactly when the prefix has 6 characters or more and singles
  // out one held named token of the client; that token is then revoked as above, and otherwise
  // nothing changes.
  lemma RevokedByPrefix(w: World, cfg: Config, prefix: string, client: ClientId, r: real)
    ensures var (s, found) := TokenModel.RevokeNamed(w.store, prefix, client, r);
            && (found <==> |prefix| >= 6 && |Named(w.store, prefix, client)| == 1)
            && (!found ==> s == w.store)
            && (found ==> exists t :: t in Named(w.store, prefix, client) && s == TokenModel.Revoke(w.store, t, r).0)
  {
    assert PrefixMatches(w.store, prefix, client) == Named(w.store, prefix, client);
  }

  // So over every run: the token that a prefix singles out is accepted no later than `r + 8`.
  lemma PrefixRevokedEnds(w: World, cfg: Config, prefix: string, client: ClientId, token: Secret, r: real,
                          ops: seq<Op>, t: real)
    requires Inv(w) && |prefix| >= 6 && Named(w.store, prefix, client) == {token}
    requires LegalRun(Step(w, cfg, Op.RevokeNamed(prefix, client, r)), cfg, ops)
    requires Accepts(Run(Step(w, cfg, Op.RevokeNamed(prefix, client, r)), cfg, ops).store, token, t).Some?
    ensures t <= r + 8.0
  {
    var op := Op.RevokeNamed(prefix, client, r);
    RevokedByPrefix(w, cfg, prefix, client, r);
    RevokedBearer(w, cfg, token, r);
    SameAsRevoke(w, cfg, prefix, client, token, r);
    hide Inv, Step, Accepts, Run, LegalRun, TokenModel.RevokeNamed, TokenModel.Revoke;
    StepInv(w, cfg, op);
    EndsBy(Step(w, cfg, op), cfg, token, r + 8.0, ops, t);
  }

  lemma SameAsRevoke(w: World, cfg: Config, prefix: string, client: ClientId, token: Secret, r: real)
    requires |prefix| >= 6 && Named(w.store, prefix, client) == {token}
    ensures token in w.store.tokens
    ensures Step(w, cfg, Op.RevokeNamed(prefix, client, r)).store == Step(w, cfg, Op.Revoke(token, r)).store
  {
    RevokedByPrefix(w, cfg, prefix, client, r);
    assert token in Named(w.store, prefix, client);
    hide Named, RevokedBy, RevokedNamedBy, Kills, TokenModel.RevokeNamed, TokenModel.Revoke;
  }

  // --- nothing else ends a bearer early --------------------------------------------------------------

  // `op` is not aimed at the bearer `token`, and reads no clock past its expiry.
  ghost predicate Spares(w: World, op: Op, token: Secret)
    requires token in w.store.tokens
  {
    var b := w.store.tokens[token];
    && !(op.Revoke? && op.token == token)
    && !(op.RevokeNamed? && op.client == b.client && b.name.Some?)
    && (op.Restart? ==> b.name.Some? && token !in w.revokedNamed)
    && (b.expiresAt.At? ==> Latest(op, w.latest) < b.expiresAt.time)
  }

  lemma SparedByIssue(s: Store, cfg: Config, op: Op, token: Secret)
    requires op.Issue? && token in s.tokens && op.token != token
    requires Until(s.tokens[token].expiresAt, op.countNow) && Until(s.tokens[token].expiresAt, op.cleanNow)
    ensures token in Apply(s, cfg, op).tokens && Apply(s, cfg, op).tokens[token] == s.tokens[token]
  {
    hide NamedOf;
  }

  lemma SparedByGrant(s: Store, cfg: Config, op: Op, token: Secret)
    requires (op.IssueOAuth? || op.RefreshGrant?) && token in s.tokens && Until(s.tokens[token].expiresAt, op.cleanNow)
    ensures token in Apply(s, cfg, op).tokens && Apply(s, cfg, op).tokens[token] == s.tokens[token]
  {
  }

  lemma SparedByOthers(s: Store, cfg: Config, op: Op, token: Secret)
    requires op.Tidy? || op.Validate? || op.Revoke? || op.RevokeFamily? || op.RevokeClient? || op.PruneUnknown?
    requires token in s.tokens && !(op.Revoke? && op.token == token)
    requires (op.Tidy? || op.Validate?) ==> Until(s.tokens[token].expiresAt, op.now)
    ensures token in Apply(s, cfg, op).tokens && Apply(s, cfg, op).tokens[token] == s.tokens[token]
  {
  }

  lemma SparedByPrefix(s: Store, cfg: Config, op: Op, token: Secret)
    requires op.RevokeNamed? && token in s.tokens && !(op.client == s.tokens[token].client
                                                       && s.tokens[token].name.Some?)
    ensures token in Apply(s, cfg, op).tokens && Apply(s, cfg, op).tokens[token] == s.tokens[token]
  {
  }

  lemma BearerSpared(w: World, cfg: Config, op: Op, token: Secret)
    requires Inv(w) && Legal(w, op) && token in w.store.tokens && Spares(w, op, token)
    ensures var s := Step(w, cfg, op).store; token in s.tokens && s.tokens[token] == w.store.tokens[token]
    ensures token in Step(w, cfg, op).revokedNamed <==> token in w.revokedNamed
  {
    hide Inv, Kills, RevokedBy, PrefixMatches;
    HeldIssued(w, token);
    if op.Issue? {
      SparedByIssue(w.store, cfg, op, token);
    } else if op.IssueOAuth? || op.RefreshGrant? {
      SparedByGrant(w.store, cfg, op, token);
    } else if op.RevokeNamed? {
      SparedByPrefix(w.store, cfg, op, token);
    } else if op.Restart? {
      RestartSurvivors(w, op.now);
    } else {
      SparedByOthers(w.store, cfg, op, token);
    }
    hide Apply;
    RevokedNamedSpared(w, op, token);
    hide RevokedNamedBy;
  }

  lemma RevokedNamedSpared(w: World, op: Op, token: Secret)
    requires token in w.store.tokens && !(op.Revoke? && op.token == token)
    requires !(op.RevokeNamed? && op.client == w.store.tokens[token].client && w.store.tokens[token].name.Some?)
    ensures token in RevokedNamedBy(w, op) <==> token in w.revokedNamed
  {
  }

  ghost predicate SparesAll(w: World, cfg: Config, ops: seq<Op>, token: Secret)
    decreases |ops|
  {
    ops == [] || (token in w.store.tokens && Spares(w, ops[0], token)
                  && SparesAll(Step(w, cfg, ops[0]), cfg, ops[1..], token))
  }

  // A held bearer that no call is aimed at stays as it is, whatever else happens, until its expiry; a
  // named one through restarts too.
  lemma {:induction false} BearerStays(w: World, cfg: Config, ops: seq<Op>, token: Secret)
    requires Inv(w) && LegalRun(w, cfg, ops) && token in w.store.tokens && SparesAll(w, cfg, ops, token)
    ensures var s := Run(w, cfg, ops).store; token in s.tokens && s.tokens[token] == w.store.tokens[token]
    decreases |ops|
  {
    hide Inv, Step, Legal, Spares;
    if ops != [] {
      StepInv(w, cfg, ops[0]);
      BearerSpared(w, cfg, ops[0], token);
      BearerStays(Step(w, cfg, ops[0]), cfg, ops[1..], token);
    }
  }

  // --- refresh tokens ----------------------------------------------------------------------------------

  // What `refresh` answers, case by case.
  lemma RefreshAnswer(s: Store, cfg: Config, op: Op)
    requires op.RefreshGrant?
    ensures var h := Sha256(op.presented);
            var reply := ReplyTo(s, cfg, op);
            if h !in s.refresh || s.refresh[h].client != op.client then reply == Rejected(Invalid, None)
            else
              var rt := s.refresh[h];
              if rt.used && op.now < rt.familyEnd then
                reply == if rt.replay.Some? && op.now - rt.usedAt <= 60.0 then Granted(rt.replay.value)
                         else Rejected(Reused, Some(rt.family))
              else if op.now <= rt.expiresAt && op.now < rt.familyEnd then
                && reply.Granted? && reply.grant.access == op.access && reply.grant.refresh == Some(op.refresh)
                && SecondsLeft(rt.familyEnd - op.mintNow, reply.grant.expiresIn)
              else reply == Rejected(Expired, Some(rt.family))
  {
    if Sha256(op.presented) in s.refresh {
      ExpiresInIs(s.refresh[Sha256(op.presented)].familyEnd, op.mintNow);
    }
    hide ExpiresIn, SecondsLeft;
  }

  // `n` is `left` to the nearest second, a half to the even one, kept within 0 and a day.
  predicate SecondsLeft(left: real, n: int) {
    if left >= 86400.0 then n == 86400
    else if left <= 0.0 then n == 0
    else && 0 <= n <= 86400 && left - 0.5 <= n as real <= left + 0.5
         && ((n as real == left - 0.5 || n as real == left + 0.5) ==> n % 2 == 0)
  }

  lemma ExpiresInIs(end: real, now: real)
    ensures SecondsLeft(end - now, ExpiresIn(end, now))
  {
    var left := end - now;
    var f := left.Floor;
    assert f as real <= left < (f + 1) as real;
  }

  // A refresh token just minted: in memory and in the file, unused, good for its idle lifetime
  // within the family.
  ghost predicate FreshRefresh(s: Store, cfg: Config, secret: Secret, client: ClientId, f: FamilyId, end: real,
                               now: real)
  {
    var until := if now + cfg.refreshTtl as real <= end then now + cfg.refreshTtl as real else end;
    && Sha256(secret) in s.refresh
    && s.refresh[Sha256(secret)] == Refresh(client, f, until, now, end, false, 0.0, None)
    && Sha256(secret) in s.db.refresh
    && s.db.refresh[Sha256(secret)] == RefreshRow(client, f, until, now, false, Some(end))
  }

  // A bearer just minted: in memory and in the file, good for a day within its family.
  ghost predicate FreshAccessToken(s: Store, secret: Secret, client: ClientId, f: Option<FamilyId>, end: real,
                                   now: real)
  {
    var a := Access(client, f, if now + 86400.0 <= end then now + 86400.0 else end, now);
    && Sha256(secret) in s.oauth && s.oauth[Sha256(secret)] == a
    && Sha256(secret) in s.db.oauth && s.db.oauth[Sha256(secret)] == a
  }

  // A sign-in hands out a pair that ends with the sign-in, 24 h after `start`.
  lemma SignInPair(w: World, cfg: Config, op: Op)
    requires op.IssueOAuth? && Legal(w, op) && ValidConfig(cfg)
    ensures var s := Step(w, cfg, op).store;
            && (op.cleanNow <= op.now + 86400.0 && op.cleanNow <= op.start + 86400.0 ==>
                  FreshAccessToken(s, op.access, op.client, op.family, op.start + 86400.0, op.now))
            && (op.family.Some? && op.cleanNow <= op.now + cfg.refreshTtl as real
                && op.cleanNow <= op.start + 86400.0 ==>
                  FreshRefresh(s, cfg, op.refresh, op.client, op.family.value, op.start + 86400.0, op.now))
  {
  }

  // A rotation hands out a pair of the same client and family, with a new idle lifetime and the old end.
  lemma RotatedPair(w: World, cfg: Config, op: Op)
    requires Inv(w) && Legal(w, op) && Rotates(w.store, op)
    ensures var s, rt := Step(w, cfg, op).store, w.store.refresh[Sha256(op.presented)];
            && (op.cleanNow <= op.mintNow + 86400.0 && op.cleanNow <= rt.familyEnd ==>
                  FreshAccessToken(s, op.access, rt.client, Some(rt.family), rt.familyEnd, op.mintNow))
            && (op.cleanNow <= op.mintNow + cfg.refreshTtl as real && op.cleanNow <= rt.familyEnd ==>
                  FreshRefresh(s, cfg, op.refresh, rt.client, rt.family, rt.familyEnd, op.mintNow))
  {
    hide Inv, Kills, RevokedBy, RevokedNamedBy;
    IssuedFacts(w, Sha256(op.presented));
    RotatesTo(w.store, cfg, op);
    hide Apply, Rotates;
  }

  lemma RotatesTo(s: Store, cfg: Config, op: Op)
    requires Rotates(s, op) && Sha256(op.presented) != Sha256(op.refresh)
    ensures var s', rt := Apply(s, cfg, op), s.refresh[Sha256(op.presented)];
            && (op.cleanNow <= op.mintNow + 86400.0 && op.cleanNow <= rt.familyEnd ==>
                  FreshAccessToken(s', op.access, rt.client, Some(rt.family), rt.familyEnd, op.mintNow))
            && (op.cleanNow <= op.mintNow + cfg.refreshTtl as real && op.cleanNow <= rt.familyEnd ==>
                  FreshRefresh(s', cfg, op.refresh, rt.client, rt.family, rt.familyEnd, op.mintNow))
  {
  }

  // So a token just minted is exchanged exactly until the end of its idle lifetime, and within its
  // family.
  lemma FreshIsExchanged(s: Store, cfg: Config, secret: Secret, client: ClientId, f: FamilyId, end: real, now: real,
                         op: Op)
    requires FreshRefresh(s, cfg, secret, client, f, end, now)
    requires op.RefreshGrant? && op.presented == secret && op.client == client
    ensures ReplyTo(s, cfg, op).Granted? <==> op.now <= now + cfg.refreshTtl as real && op.now < end
    ensures ReplyTo(s, cfg, op).Granted? ==> ReplyTo(s, cfg, op).grant.access == op.access
  {
    RefreshAnswer(s, cfg, op);
  }

  lemma RotationIsExchanged(w: World, cfg: Config, op: Op, next: Op)
    requires Inv(w) && Legal(w, op) && Rotates(w.store, op)
    requires var end := w.store.refresh[Sha256(op.presented)].familyEnd;
             op.cleanNow <= op.mintNow + cfg.refreshTtl as real && op.cleanNow <= end
    requires next.RefreshGrant? && next.presented == op.refresh && next.client == op.client
    ensures var end := w.store.refresh[Sha256(op.presented)].familyEnd;
            ReplyTo(Step(w, cfg, op).store, cfg, next).Granted? <==>
              next.now <= op.mintNow + cfg.refreshTtl as real && next.now < end
  {
    RotatedPair(w, cfg, op);
    var rt := w.store.refresh[Sha256(op.presented)];
    hide Inv, Step, Legal;
    FreshIsExchanged(Step(w, cfg, op).store, cfg, op.refresh, rt.client, rt.family, rt.familyEnd, op.mintNow, next);
  }

  lemma SignInIsExchanged(w: World, cfg: Config, op: Op, next: Op)
    requires op.IssueOAuth? && op.family.Some? && Legal(w, op) && ValidConfig(cfg)
    requires op.cleanNow <= op.now + cfg.refreshTtl as real && op.cleanNow <= op.start + 86400.0
    requires next.RefreshGrant? && next.presented == op.refresh && next.client == op.client
    ensures ReplyTo(Step(w, cfg, op).store, cfg, next).Granted? <==>
              next.now <= op.now + cfg.refreshTtl as real && next.now < op.start + 86400.0
  {
    SignInPair(w, cfg, op);
    var f, end := op.family.value, op.start + 86400.0;
    hide Step, Legal;
    FreshIsExchanged(Step(w, cfg, op).store, cfg, op.refresh, op.client, f, end, op.now, next);
  }

  // --- nothing else ends an OAuth token early ------------------------------------------------------------

  // `op` is not aimed at tokens of this client and family.
  ghost predicate SparesFamily(w: World, cfg: Config, op: Op, client: ClientId, f: Option<FamilyId>) {
    && !(op.RevokeClient? && op.client == client)
    && !(op.PruneUnknown? && client !in op.known)
    && !(op.RevokeFamily? && f == Some(op.doomed))
    && (f.Some? ==> f.value !in Step(w, cfg, op).killed)
  }

  ghost predicate SparesAccess(w: World, cfg: Config, op: Op, h: Hash)
    requires h in w.store.oauth
  {
    var a := w.store.oauth[h];
    && SparesFamily(w, cfg, op, a.client, a.family)
    && !(op.Revoke? && Sha256(op.token) == h)
    && (op.Restart? ==> h !in w.revoked)
    && Latest(op, w.latest) < a.expiresAt
  }

  // The bearer `h` is as it was.
  ghost predicate SameAccess(s: Store, s': Store, h: Hash)
    requires h in s.oauth
  {
    h in s'.oauth && s'.oauth[h] == s.oauth[h]
  }

  lemma AccessAfterGrant(s: Store, cfg: Config, op: Op, h: Hash)
    requires h in s.oauth && (op.IssueOAuth? || Rotates(s, op))
    requires h != Sha256(MintedSecret(op)) && op.cleanNow <= s.oauth[h].expiresAt
    ensures SameAccess(s, Apply(s, cfg, op), h)
  {
  }

  lemma AccessAfterIssue(s: Store, cfg: Config, op: Op, h: Hash)
    requires h in s.oauth && op.Issue? && op.countNow <= s.oauth[h].expiresAt && op.cleanNow <= s.oauth[h].expiresAt
    ensures SameAccess(s, Apply(s, cfg, op), h)
  {
    hide NamedOf;
  }

  lemma AccessAfterRejection(s: Store, cfg: Config, op: Op, h: Hash)
    requires h in s.oauth && op.RefreshGrant? && !Rotates(s, op)
    requires forall g :: g in s.refresh && s.oauth[h].family == Some(s.refresh[g].family) ==>
               op.now < s.refresh[g].familyEnd && ReplyTo(s, cfg, op) != Rejected(Reused, Some(s.refresh[g].family))
    ensures SameAccess(s, Apply(s, cfg, op), h)
  {
  }

  lemma AccessAfterRevocation(s: Store, cfg: Config, op: Op, h: Hash)
    requires h in s.oauth && (op.Tidy? || op.Validate? || op.Revoke? || op.RevokeFamily? || op.RevokeClient?
                              || op.PruneUnknown?)
    requires !(op.RevokeClient? && op.client == s.oauth[h].client)
        && !(op.PruneUnknown? && s.oauth[h].client !in op.known)
    requires !(op.RevokeFamily? && s.oauth[h].family == Some(op.doomed)) && !(op.Revoke? && Sha256(op.token) == h)
    requires (op.Tidy? || op.Validate?) ==> op.now <= s.oauth[h].expiresAt
    ensures SameAccess(s, Apply(s, cfg, op), h)
  {
    hide Holders;
    HoldersHave(s, h);
  }

  lemma HoldersHave(s: Store, h: Hash)
    requires h in s.oauth
    ensures s.oauth[h].client in Holders(s)
  {
  }

  lemma RejectionKeepsFamily(w: World, cfg: Config, op: Op, h: Hash)
    requires Inv(w) && h in w.store.oauth && op.RefreshGrant? && op.now < w.store.oauth[h].expiresAt
    requires w.store.oauth[h].family.Some? ==> w.store.oauth[h].family.value !in Kills(w, cfg, op)
    ensures forall g :: g in w.store.refresh && w.store.oauth[h].family == Some(w.store.refresh[g].family) ==>
              op.now < w.store.refresh[g].familyEnd
                  && ReplyTo(w.store, cfg, op) != Rejected(Reused, Some(w.store.refresh[g].family))
  {
    if w.store.oauth[h].family.Some? {
      FamilyEnds(w, h);
    }
    hide Inv, ReplyTo;
  }

  // A bearer of a family stops no later than every refresh token of it.
  lemma FamilyEnds(w: World, h: Hash)
    requires Inv(w) && h in w.store.oauth && w.store.oauth[h].family.Some?
    ensures forall g :: g in w.store.refresh && w.store.oauth[h].family == Some(w.store.refresh[g].family) ==>
              w.store.oauth[h].expiresAt <= w.store.refresh[g].familyEnd
  {
  }

  lemma AccessSpared(w: World, cfg: Config, op: Op, h: Hash)
    requires Inv(w) && Legal(w, op) && h in w.store.oauth && SparesAccess(w, cfg, op, h)
    ensures SameAccess(w.store, Step(w, cfg, op).store, h)
    ensures h in Step(w, cfg, op).revoked <==> h in w.revoked
  {
    hide Inv, RevokedNamedBy, Rotates;
    IssuedFacts(w, h);
    if op.IssueOAuth? || Rotates(w.store, op) {
      OnlyRefreshRotates(w.store, op);
      AccessAfterGrant(w.store, cfg, op, h);
    } else if op.RefreshGrant? {
      RejectionKeepsFamily(w, cfg, op, h);
      AccessAfterRejection(w.store, cfg, op, h);
    } else if op.Issue? {
      AccessAfterIssue(w.store, cfg, op, h);
    } else if op.RevokeNamed? {
      RevokeNamedTokensOnly(w.store, op.prefix, op.client, op.now);
      hide TokenModel.RevokeNamed;
    } else if op.Restart? {
      RestartSurvivors(w, op.now);
    } else {
      AccessAfterRevocation(w.store, cfg, op, h);
    }
    hide Apply, Kills;
  }

  lemma OnlyRefreshRotates(s: Store, op: Op)
    ensures Rotates(s, op) ==> op.RefreshGrant?
  {
  }

  ghost predicate AllSpareAccess(w: World, cfg: Config, ops: seq<Op>, h: Hash)
    decreases |ops|
  {
    ops == [] || (h in w.store.oauth && SparesAccess(w, cfg, ops[0], h)
                  && AllSpareAccess(Step(w, cfg, ops[0]), cfg, ops[1..], h))
  }

  // An OAuth bearer that no call is aimed at stays as it is until its expiry, through restarts too.
  lemma {:induction false} AccessStays(w: World, cfg: Config, ops: seq<Op>, h: Hash)
    requires Inv(w) && LegalRun(w, cfg, ops) && h in w.store.oauth && AllSpareAccess(w, cfg, ops, h)
    ensures SameAccess(w.store, Run(w, cfg, ops).store, h)
    decreases |ops|
  {
    hide Inv, Step, Legal, SparesAccess;
    if ops != [] {
      StepInv(w, cfg, ops[0]);
      AccessSpared(w, cfg, ops[0], h);
      AccessStays(Step(w, cfg, ops[0]), cfg, ops[1..], h);
    }
  }

  // --- nor a refresh token -----------------------------------------------------------------------------

  // The unused refresh token `h` is as it was; the time of use that it never had is not kept.
  ghost predicate SameRefresh(s: Store, s': Store, h: Hash)
    requires h in s.refresh
  {
    h in s'.refresh && s'.refresh[h] == s.refresh[h].(usedAt := s'.refresh[h].usedAt, replay := s'.refresh[h].replay)
  }

  ghost predicate SparesRefresh(w: World, cfg: Config, op: Op, h: Hash)
    requires h in w.store.refresh
  {
    var rt := w.store.refresh[h];
    && SparesFamily(w, cfg, op, rt.client, Some(rt.family))
    && !(op.RefreshGrant? && Sha256(op.presented) == h && op.client == rt.client)
    && Latest(op, w.latest) < rt.expiresAt
  }

  lemma RefreshAfterGrant(s: Store, cfg: Config, op: Op, h: Hash)
    requires h in s.refresh && (op.IssueOAuth? || Rotates(s, op)) && op.cleanNow <= s.refresh[h].expiresAt
    requires h != Sha256(op.refresh) && (op.RefreshGrant? ==> Sha256(op.presented) != h)
    ensures SameRefresh(s, Apply(s, cfg, op), h)
  {
  }

  lemma RefreshAfterIssue(s: Store, cfg: Config, op: Op, h: Hash)
    requires h in s.refresh && op.Issue? && op.countNow <= s.refresh[h].expiresAt
        && op.cleanNow <= s.refresh[h].expiresAt
    ensures SameRefresh(s, Apply(s, cfg, op), h)
  {
    hide NamedOf;
  }

  lemma RefreshAfterRejection(s: Store, cfg: Config, op: Op, h: Hash)
    requires h in s.refresh && op.RefreshGrant? && !Rotates(s, op)
    requires Sha256(op.presented) == h ==> op.client != s.refresh[h].client
    requires ReplyTo(s, cfg, op) != Rejected(Reused, Some(s.refresh[h].family))
    requires forall g :: g in s.refresh && s.refresh[g].family == s.refresh[h].family ==>
        op.now < s.refresh[g].familyEnd
    ensures SameRefresh(s, Apply(s, cfg, op), h)
  {
  }

  lemma RefreshAfterRevocation(s: Store, cfg: Config, op: Op, h: Hash)
    requires h in s.refresh && (op.Tidy? || op.Validate? || op.Revoke? || op.RevokeFamily? || op.RevokeClient?
                                || op.PruneUnknown?)
    requires !(op.RevokeClient? && op.client == s.refresh[h].client)
        && !(op.PruneUnknown? && s.refresh[h].client !in op.known)
    requires !(op.RevokeFamily? && s.refresh[h].family == op.doomed)
    requires op.Revoke? && op.token !in s.tokens && Sha256(op.token) in s.oauth ==>
               s.oauth[Sha256(op.token)].family != Some(s.refresh[h].family)
    requires op.Tidy? ==> op.now <= s.refresh[h].expiresAt
    ensures SameRefresh(s, Apply(s, cfg, op), h)
  {
    hide Holders;
  }

  lemma SameEnds(w: World, h: Hash)
    requires Inv(w) && h in w.store.refresh
    ensures forall g :: g in w.store.refresh && w.store.refresh[g].family == w.store.refresh[h].family ==>
              w.store.refresh[h].expiresAt <= w.store.refresh[g].familyEnd
  {
  }

  lemma RefreshSpared(w: World, cfg: Config, op: Op, h: Hash)
    requires Inv(w) && Legal(w, op) && h in w.store.refresh && SparesRefresh(w, cfg, op, h)
    ensures SameRefresh(w.store, Step(w, cfg, op).store, h)
  {
    hide Inv, RevokedBy, RevokedNamedBy, Rotates;
    IssuedFacts(w, h);
    SameEnds(w, h);
    if op.IssueOAuth? || Rotates(w.store, op) {
      OnlyRefreshRotates(w.store, op);
      RotatesByOwner(w.store, op);
      RefreshAfterGrant(w.store, cfg, op, h);
    } else if op.RefreshGrant? {
      RefreshAfterRejection(w.store, cfg, op, h);
    } else if op.Issue? {
      RefreshAfterIssue(w.store, cfg, op, h);
    } else if op.RevokeNamed? {
      RevokeNamedTokensOnly(w.store, op.prefix, op.client, op.now);
      hide TokenModel.RevokeNamed;
    } else if op.Restart? {
      RestartSurvivors(w, op.now);
    } else {
      RefreshAfterRevocation(w.store, cfg, op, h);
    }
    hide Apply, Kills;
  }

  lemma RotatesByOwner(s: Store, op: Op)
    ensures Rotates(s, op) ==> Sha256(op.presented) in s.refresh && s.refresh[Sha256(op.presented)].client == op.client
  {
  }

  ghost predicate AllSpareRefresh(w: World, cfg: Config, ops: seq<Op>, h: Hash)
    decreases |ops|
  {
    ops == [] || (h in w.store.refresh && SparesRefresh(w, cfg, ops[0], h)
                  && AllSpareRefresh(Step(w, cfg, ops[0]), cfg, ops[1..], h))
  }

  // An unused refresh token that is not presented, and whose family nothing is aimed at, can be
  // exchanged until its expiry, through restarts too.
  lemma {:induction false} RefreshStays(w: World, cfg: Config, ops: seq<Op>, h: Hash)
    requires Inv(w) && LegalRun(w, cfg, ops) && h in w.store.refresh && AllSpareRefresh(w, cfg, ops, h)
    ensures SameRefresh(w.store, Run(w, cfg, ops).store, h)
    decreases |ops|
  {
    hide Inv, Step, Legal, SparesRefresh;
    if ops != [] {
      StepInv(w, cfg, ops[0]);
      RefreshSpared(w, cfg, ops[0], h);
      RefreshStays(Step(w, cfg, ops[0]), cfg, ops[1..], h);
    }
  }

  // --- a retry is answered for a minute --------------------------------------------------------------

  // `h`, if remembered, is rotated out, and its pair, if still held, was bought at `r`.
  ghost predicate SpentAt(s: Store, h: Hash, r: real) {
    h in s.refresh ==> s.refresh[h].used && (s.refresh[h].replay.Some? ==> s.refresh[h].usedAt == r)
  }

  lemma RotatedAt(w: World, cfg: Config, op: Op)
    requires Legal(w, op) && Rotates(w.store, op) && Sha256(op.presented) != Sha256(op.refresh)
    ensures SpentAt(Step(w, cfg, op).store, Sha256(op.presented), op.now)
  {
    hide Kills, RevokedBy, RevokedNamedBy;
  }

  lemma SpentAfterGrant(s: Store, cfg: Config, op: Op, h: Hash, r: real)
    requires SpentAt(s, h, r) && (op.IssueOAuth? || Rotates(s, op)) && Sha256(op.refresh) != h
    ensures SpentAt(Apply(s, cfg, op), h, r)
  {
  }

  lemma SpentAfterIssue(s: Store, cfg: Config, op: Op, h: Hash, r: real)
    requires SpentAt(s, h, r) && op.Issue?
    ensures SpentAt(Apply(s, cfg, op), h, r)
  {
    hide NamedOf;
  }

  lemma SpentAfterOthers(s: Store, cfg: Config, op: Op, h: Hash, r: real)
    requires SpentAt(s, h, r) && !op.Issue? && !op.IssueOAuth? && !op.Restart? && !Rotates(s, op)
    ensures SpentAt(Apply(s, cfg, op), h, r)
  {
    if op.RevokeNamed? {
      RevokeNamedTokensOnly(s, op.prefix, op.client, op.now);
      hide TokenModel.RevokeNamed;
    }
    hide Holders, PrefixMatches;
  }

  lemma SpentKept(w: World, cfg: Config, op: Op, h: Hash, r: real)
    requires Inv(w) && Legal(w, op) && SpentAt(w.store, h, r) && h.secret in w.issued
    ensures SpentAt(Step(w, cfg, op).store, h, r) && h.secret in Step(w, cfg, op).issued
  {
    hide Inv, Kills, RevokedBy, RevokedNamedBy, Rotates;
    if op.IssueOAuth? || Rotates(w.store, op) {
      OnlyRefreshRotates(w.store, op);
      SpentAfterGrant(w.store, cfg, op, h, r);
    } else if op.Issue? {
      SpentAfterIssue(w.store, cfg, op, h, r);
    } else if op.Restart? {
      RestartSurvivors(w, op.now);
    } else {
      SpentAfterOthers(w.store, cfg, op, h, r);
    }
    hide Apply, SpentAt;
  }

  lemma {:induction false} SpentStays(w: World, cfg: Config, ops: seq<Op>, h: Hash, r: real)
    requires Inv(w) && LegalRun(w, cfg, ops) && SpentAt(w.store, h, r) && h.secret in w.issued
    ensures SpentAt(Run(w, cfg, ops).store, h, r)
    decreases |ops|
  {
    hide Inv, Step, Legal, SpentAt;
    if ops != [] {
      StepInv(w, cfg, ops[0]);
      SpentKept(w, cfg, ops[0], h, r);
      SpentStays(Step(w, cfg, ops[0]), cfg, ops[1..], h, r);
    }
  }

  // Over every run: a token rotated at `op.now` buys nothing for anybody who presents it more than
  // 60 s later.
  lemma RetryEnds(w: World, cfg: Config, op: Op, ops: seq<Op>, again: Op)
    requires Inv(w) && Legal(w, op) && Rotates(w.store, op) && LegalRun(Step(w, cfg, op), cfg, ops)
    requires again.RefreshGrant? && again.presented == op.presented && again.now > op.now + 60.0
    ensures ReplyTo(Run(Step(w, cfg, op), cfg, ops).store, cfg, again).Rejected?
  {
    var h, w1 := Sha256(op.presented), Step(w, cfg, op);
    IssuedFacts(w, h);
    StepInv(w, cfg, op);
    RotatedAt(w, cfg, op);
    hide Inv, Step, Legal;
    SpentStays(w1, cfg, ops, h, op.now);
    RefreshAnswer(Run(w1, cfg, ops).store, cfg, again);
  }

  // --- what goes ------------------------------------------------------------------------------------

  // A sweep removes exactly what has expired, and the pairs held for over a minute.
  lemma SweptExactly(s: Store, now: real, t: Secret, h: Hash)
    ensures var s' := Cleanup(s, now);
            && (t in s'.tokens <==> t in s.tokens && Until(s.tokens[t].expiresAt, now))
            && (h in s'.oauth <==> h in s.oauth && now <= s.oauth[h].expiresAt)
            && (h in s'.refresh <==> h in s.refresh && now <= s.refresh[h].expiresAt)
            && SubMap(s'.tokens, s.tokens) && SubMap(s'.oauth, s.oauth)
            && (h in s'.refresh ==>
                  s'.refresh[h] == if now - s.refresh[h].usedAt <= 60.0 then s.refresh[h]
                                   else s.refresh[h].(replay := None))
            && SubMap(s'.db.named, s.db.named) && SubMap(s'.db.oauth, s.db.oauth) && SubMap(s'.db.refresh, s.db.refresh)
  {
  }

  // Revoking a family removes exactly its tokens ...
  lemma FamilyRevoked(s: Store, f: FamilyId, h: Hash)
    ensures var s' := TokenModel.RevokeFamily(s, f);
            && (h in s'.oauth <==> h in s.oauth && s.oauth[h].family != Some(f))
            && (h in s'.refresh <==> h in s.refresh && s.refresh[h].family != f)
            && SubMap(s'.oauth, s.oauth) && SubMap(s'.refresh, s.refresh) && s'.tokens == s.tokens
  {
  }

  // ... and revoking a client exactly its OAuth tokens; the count is that of its bearers.
  lemma ClientRevoked(s: Store, client: ClientId, h: Hash)
    ensures var (s', n) := TokenModel.RevokeClient(s, client);
            && (h in s'.oauth <==> h in s.oauth && s.oauth[h].client != client)
            && (h in s'.refresh <==> h in s.refresh && s.refresh[h].client != client)
            && SubMap(s'.oauth, s.oauth) && SubMap(s'.refresh, s.refresh) && s'.tokens == s.tokens
            && n == |set g | g in s.oauth && s.oauth[g].client == client|
  {
  }

  // Pruning counts the clients that lost a token.
  lemma PrunedCount(s: Store, known: set<ClientId>)
    ensures TokenModel.PruneUnknown(s, known).1
         == |(set g | g in s.oauth && s.oauth[g].client !in known :: s.oauth[g].client)
             + (set g | g in s.refresh && s.refresh[g].client !in known :: s.refresh[g].client)|
  {
    assert Holders(s) - known == (set g | g in s.oauth && s.oauth[g].client !in known :: s.oauth[g].client)
                                 + (set g | g in s.refresh && s.refresh[g].client !in known :: s.refresh[g].client);
  }
}
