/** Runs of the token store: every operation, in any order, with restarts in between,
    next to a history of what was issued, exchanged and revoked. */
module TokenHistory {
  import opened Prelude
  import opened TokenTypes
  import opened TokenModel

  /** A sign-in: whose it is and when it ends, fixed when its family opens. */
  datatype SignIn = SignIn(client: ClientId, end: real)

  datatype Exchange = Exchange(client: ClientId, family: FamilyId, grant: Grant)

  datatype World = World(
    store: Store,
    issued: set<Secret>,                  // every raw token ever minted
    families: map<FamilyId, SignIn>,      // every sign-in ever opened
    killed: set<FamilyId>,                // sign-ins revoked on purpose
    exchanges: map<Hash, Exchange>,       // the pair each rotated-out token bought
    revoked: map<Hash, real>,             // revoked OAuth bearers and their deadline
    revokedNamed: map<Secret, real>,      // revoked dashboard bearers and their deadline
    latest: real)                         // latest clock reading so far

  datatype Op =
    | Issue(client: ClientId, name: Option<string>, token: Secret, countNow: real, now: real, cleanNow: real)
    | IssueOAuth(client: ClientId, family: Option<FamilyId>, access: Secret, refresh: Secret, start: real, now: real,
                 cleanNow: real)
    | RefreshGrant(presented: Secret, client: ClientId, access: Secret, refresh: Secret, now: real, mintNow: real,
                   cleanNow: real)
    | RevokeFamily(doomed: FamilyId)
    | RevokeClient(client: ClientId)
    | PruneUnknown(known: set<ClientId>)
    | Validate(token: Secret, now: real)
    | Revoke(token: Secret, now: real)
    | RevokeNamed(prefix: string, client: ClientId, now: real)
    | Tidy(now: real)                     // list_named, count_named
    | Restart(now: real)

  ghost function Init(now: real): World {
    World(EMPTY, {}, map[], {}, map[], map[], map[], now)
  }

  // Fresh random values: never minted before, and distinct.
  ghost predicate Legal(w: World, op: Op) {
    match op
    case Issue(_, _, token, _, _, _) => token !in w.issued
    case IssueOAuth(_, family, access, refresh, _, _, _) =>
      && access !in w.issued && refresh !in w.issued && access != refresh
      && (family.Some? ==> family.value !in w.families)
    case RefreshGrant(_, _, access, refresh, _, _, _) =>
      access !in w.issued && refresh !in w.issued && access != refresh
    case _ => true
  }

  ghost function Apply(s: Store, cfg: Config, op: Op): Store {
    match op
    case Issue(client, name, token, countNow, now, cleanNow) =>
      TokenModel.Issue(s, cfg, client, name, token, countNow, now, cleanNow).0
    case IssueOAuth(client, family, access, refresh, start, now, cleanNow) =>
      TokenModel.IssueOAuth(s, cfg, client, family, access, refresh, start, now, cleanNow).0
    case RefreshGrant(presented, client, access, refresh, now, mintNow, cleanNow) =>
      TokenModel.RefreshGrant(s, cfg, presented, client, access, refresh, now, mintNow, cleanNow).0
    case RevokeFamily(family) => TokenModel.RevokeFamily(s, family)
    case RevokeClient(client) => TokenModel.RevokeClient(s, client).0
    case PruneUnknown(known) => TokenModel.PruneUnknown(s, known).0
    case Validate(token, now) => TokenModel.Validate(s, token, now).0
    case Revoke(token, now) => TokenModel.Revoke(s, token, now).0
    case RevokeNamed(prefix, client, now) => TokenModel.RevokeNamed(s, prefix, client, now).0
    case Tidy(now) => Cleanup(s, now)
    case Restart(now) => TokenModel.Restart(s.db, now)
  }

  // The reply to a refresh call.
  function ReplyTo(s: Store, cfg: Config, op: Op): RefreshReply
    requires op.RefreshGrant?
  {
    TokenModel.RefreshGrant(s, cfg, op.presented, op.client, op.access, op.refresh, op.now, op.mintNow, op.cleanNow).1
  }

  // Does `op` rotate the token it presents: the one branch of refresh that mints.
  predicate Rotates(s: Store, op: Op) {
    && op.RefreshGrant?
    && Sha256(op.presented) in s.refresh
    && var rt := s.refresh[Sha256(op.presented)];
       rt.client == op.client && !rt.used && op.now <= rt.expiresAt && op.now < rt.familyEnd
  }

  // --- history -----------------------------------------------------------------

  function Minted(op: Op): set<Secret> {
    match op
    case Issue(_, _, token, _, _, _) => {token}
    case IssueOAuth(_, _, access, refresh, _, _, _) => {access, refresh}
    case RefreshGrant(_, _, access, refresh, _, _, _) => {access, refresh}
    case _ => {}
  }

  ghost function Kills(w: World, cfg: Config, op: Op): set<FamilyId> {
    match op
    case RefreshGrant(_, _, _, _, _, _, _) =>
      var reply := ReplyTo(w.store, cfg, op);
      if reply.Rejected? && reply.reason == Reused && reply.family.Some? then {reply.family.value} else {}
    case RevokeFamily(family) => if family in w.families then {family} else {}
    case RevokeClient(client) => set f | f in w.families && w.families[f].client == client
    case PruneUnknown(known) => set f | f in w.families && w.families[f].client !in known
    case Revoke(token, _) =>
      var h := Sha256(token);
      if token !in w.store.tokens && h in w.store.oauth && w.store.oauth[h].family.Some?
      then {w.store.oauth[h].family.value} else {}
    case _ => {}
  }

  function Latest(op: Op, before: real): real {
    match op
    case Issue(_, _, _, a, b, c) => MaxReal(MaxReal(before, a), MaxReal(b, c))
    case IssueOAuth(_, _, _, _, a, b, c) => MaxReal(MaxReal(before, a), MaxReal(b, c))
    case RefreshGrant(_, _, _, _, a, b, c) => MaxReal(MaxReal(before, a), MaxReal(b, c))
    case RevokeFamily(_) => before
    case RevokeClient(_) => before
    case PruneUnknown(_) => before
    case Validate(_, now) => MaxReal(before, now)
    case Revoke(_, now) => MaxReal(before, now)
    case RevokeNamed(_, _, now) => MaxReal(before, now)
    case Tidy(now) => MaxReal(before, now)
    case Restart(now) => MaxReal(before, now)
  }

  ghost function RevokedBy(w: World, op: Op): map<Hash, real> {
    if op.Revoke? && op.token !in w.store.tokens && Sha256(op.token) in w.store.oauth && Sha256(op.token) !in w.revoked
    then w.revoked[Sha256(op.token) := op.now + REVOKE_GRACE_SECONDS]
    else w.revoked
  }

  ghost function RevokedNamedBy(w: World, op: Op): map<Secret, real> {
    if op.Revoke? && op.token in w.store.tokens && op.token !in w.revokedNamed
    then w.revokedNamed[op.token := op.now + REVOKE_GRACE_SECONDS]
    else if op.RevokeNamed? && |op.prefix| >= 6 && |PrefixMatches(w.store, op.prefix, op.client)| == 1 then
      var t :| t in PrefixMatches(w.store, op.prefix, op.client);
      if t in w.revokedNamed then w.revokedNamed else w.revokedNamed[t := op.now + REVOKE_GRACE_SECONDS]
    else w.revokedNamed
  }

  ghost function Step(w: World, cfg: Config, op: Op): World {
    World(
      Apply(w.store, cfg, op),
      w.issued + Minted(op),
      if op.IssueOAuth? && op.family.Some?
        then w.families[op.family.value := SignIn(op.client, op.start + SESSION_LIFETIME)] else w.families,
      w.killed + Kills(w, cfg, op),
      if Rotates(w.store, op)
        then w.exchanges[Sha256(op.presented) :=
               Exchange(op.client, w.store.refresh[Sha256(op.presented)].family,
                        Grant(op.access, ExpiresIn(w.store.refresh[Sha256(op.presented)].familyEnd, op.mintNow),
                              Some(op.refresh)))]
        else w.exchanges,
      RevokedBy(w, op),
      RevokedNamedBy(w, op),
      Latest(op, w.latest))
  }

  ghost predicate LegalRun(w: World, cfg: Config, ops: seq<Op>)
    decreases |ops|
  {
    ops == [] || (Legal(w, ops[0]) && LegalRun(Step(w, cfg, ops[0]), cfg, ops[1..]))
  }

  ghost function Run(w: World, cfg: Config, ops: seq<Op>): World
    decreases |ops|
  {
    if ops == [] then w else Run(Step(w, cfg, ops[0]), cfg, ops[1..])
  }
}
