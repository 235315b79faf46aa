/** What each `TokenStore` operation does to memory and to the SQLite file.
    Random values and clock readings are parameters; a locked method is one step. */
module TokenModel {
  import opened Prelude
  import opened TokenTypes
  import Legacy = LegacySessions

  const EMPTY := Store(map[], map[], map[], Db(map[], map[], map[]))

  // Python's `round`: to the nearest integer, ties to even.
  function Round(x: real): int {
    var f := x.Floor;
    if x - f as real < 0.5 then f
    else if x - f as real > 0.5 then f + 1
    else if f % 2 == 0 then f else f + 1
  }

  function ExpiresIn(familyEnd: real, now: real): int {
    var left := Round(familyEnd - now);
    var floored := if left < 0 then 0 else left;
    if floored < 86400 then floored else 86400
  }

  function Row(rt: Refresh): RefreshRow {
    RefreshRow(rt.client, rt.family, rt.expiresAt, rt.createdAt, rt.used, Some(rt.familyEnd))
  }

  // --- housekeeping ----------------------------------------------------------

  // The pair held for a retry is dropped once the retry grace is over.
  function Settle(rt: Refresh, now: real): Refresh {
    if rt.replay.Some? && now - rt.usedAt > REFRESH_REUSE_GRACE then rt.(replay := None) else rt
  }

  function Cleanup(s: Store, now: real): Store {
    Store(
      map t | t in s.tokens && !Past(s.tokens[t].expiresAt, now) :: s.tokens[t],
      map h | h in s.oauth && !(now > s.oauth[h].expiresAt) :: s.oauth[h],
      map h | h in s.refresh && !(now > s.refresh[h].expiresAt) :: Settle(s.refresh[h], now),
      Db(s.db.named - (set t | t in s.tokens && Past(s.tokens[t].expiresAt, now) && s.tokens[t].name.Some?),
         s.db.oauth - (set h | h in s.oauth && now > s.oauth[h].expiresAt),
         s.db.refresh - (set h | h in s.refresh && now > s.refresh[h].expiresAt)))
  }

  // --- bearers ---------------------------------------------------------------

  function NamedOf(tokens: map<Secret, Bearer>, client: ClientId): set<Secret> {
    set t | t in tokens && tokens[t].client == client && tokens[t].name.Some?
  }

  function BearerTtl(cfg: Config, name: Option<string>): int {
    if name.Some? then cfg.namedTtl else 86400
  }

  function AddBearer(s: Store, cfg: Config, client: ClientId, name: Option<string>, token: Secret, now: real): Store {
    var ttl := BearerTtl(cfg, name);
    var expiry := if name.Some? && ttl == 0 then Never else At(now + ttl as real);
    var b := Bearer(client, name, expiry, now);
    s.(tokens := s.tokens[token := b],
       db := if name.Some? then s.db.(named := s.db.named[token := b]) else s.db)
  }

  // `issue`; None is TokenCapExceeded. A named token is counted (which cleans up) first.
  function Issue(s: Store, cfg: Config, client: ClientId, name: Option<string>, token: Secret,
                 countNow: real, now: real, cleanNow: real): (Store, Option<int>)
  {
    var s0 := if name.Some? then Cleanup(s, countNow) else s;
    if name.Some? && |NamedOf(s0.tokens, client)| >= NAMED_TOKEN_CAP then (s0, None)
    else (Cleanup(AddBearer(s0, cfg, client, name, token, now), cleanNow), Some(BearerTtl(cfg, name)))
  }

  // --- OAuth grants ----------------------------------------------------------

  function MintAccess(s: Store, client: ClientId, family: Option<FamilyId>, end: real, now: real, access: Secret)
    : Store
  {
    var a := Access(client, family, MinReal(now + TOKEN_TTL, end), now);
    s.(oauth := s.oauth[Sha256(access) := a], db := s.db.(oauth := s.db.oauth[Sha256(access) := a]))
  }

  function MintRefresh(s: Store, cfg: Config, client: ClientId, family: FamilyId, end: real, now: real, refresh: Secret)
    : Store
  {
    var rt := Refresh(client, family, MinReal(now + cfg.refreshTtl as real, end), now, end, false, 0.0, None);
    s.(refresh := s.refresh[Sha256(refresh) := rt], db := s.db.(refresh := s.db.refresh[Sha256(refresh) := Row(rt)]))
  }

  function Mint(s: Store, cfg: Config, client: ClientId, family: Option<FamilyId>, end: real, now: real,
                access: Secret, refresh: Secret): (Store, Grant)
  {
    var s1 := MintAccess(s, client, family, end, now, access);
    if family.None? then (s1, Grant(access, ExpiresIn(end, now), None))
    else (MintRefresh(s1, cfg, client, family.value, end, now, refresh),
          Grant(access, ExpiresIn(end, now), Some(refresh)))
  }

  // `issue_oauth`; `family` is the fresh family id when a refresh token is wanted.
  function IssueOAuth(s: Store, cfg: Config, client: ClientId, family: Option<FamilyId>, access: Secret,
                      refresh: Secret,
                      start: real, now: real, cleanNow: real): (Store, Grant)
  {
    var (s1, grant) := Mint(s, cfg, client, family, start + SESSION_LIFETIME, now, access, refresh);
    (Cleanup(s1, cleanNow), grant)
  }

  datatype Reason = Invalid | Expired | Reused
  datatype RefreshReply = Granted(grant: Grant) | Rejected(reason: Reason, family: Option<FamilyId>)

  function MarkUsed(s: Store, h: Hash, now: real): Store
    requires h in s.refresh
  {
    var rt := s.refresh[h].(used := true, usedAt := now, expiresAt := s.refresh[h].familyEnd);
    s.(refresh := s.refresh[h := rt], db := s.db.(refresh := s.db.refresh[h := Row(rt)]))
  }

  function HoldReplay(s: Store, h: Hash, grant: Grant): Store
    requires h in s.refresh
  {
    s.(refresh := s.refresh[h := s.refresh[h].(replay := Some(grant))])
  }

  // The rotation of `refresh`: mark the presented token, mint the pair, keep it for a retry.
  function Rotate(s: Store, cfg: Config, h: Hash, now: real, mintNow: real, access: Secret, refresh: Secret)
    : (Store, Grant)
    requires h in s.refresh
  {
    var rt := s.refresh[h];
    var (s1, grant) := Mint(MarkUsed(s, h, now), cfg, rt.client, Some(rt.family), rt.familyEnd, mintNow, access,
                            refresh);
    (HoldReplay(s1, h, grant), grant)
  }

  function RefreshGrant(s: Store, cfg: Config, presented: Secret, client: ClientId, access: Secret, refresh: Secret,
                        now: real, mintNow: real, cleanNow: real): (Store, RefreshReply)
  {
    var h := Sha256(presented);
    if h !in s.refresh || s.refresh[h].client != client then (s, Rejected(Invalid, None))
    else
      var rt := s.refresh[h];
      if rt.used && now < rt.familyEnd then
        if rt.replay.Some? && now - rt.usedAt <= REFRESH_REUSE_GRACE then (s, Granted(rt.replay.value))
        else (RevokeFamily(s, rt.family), Rejected(Reused, Some(rt.family)))
      else if now > rt.expiresAt || now >= rt.familyEnd then
        (if now >= rt.familyEnd then RevokeFamily(s, rt.family) else DropRefresh(s, h),
         Rejected(Expired, Some(rt.family)))
      else
        var (s1, grant) := Rotate(s, cfg, h, now, mintNow, access, refresh);
        (Cleanup(s1, cleanNow), Granted(grant))
  }

  // --- revocation ------------------------------------------------------------

  function DropRefresh(s: Store, h: Hash): Store {
    s.(refresh := s.refresh - {h}, db := s.db.(refresh := s.db.refresh - {h}))
  }

  function DropOAuth(s: Store, h: Hash): Store {
    s.(oauth := s.oauth - {h}, db := s.db.(oauth := s.db.oauth - {h}))
  }

  function RevokeFamily(s: Store, f: FamilyId): Store {
    Store(
      s.tokens,
      map h | h in s.oauth && s.oauth[h].family != Some(f) :: s.oauth[h],
      map h | h in s.refresh && s.refresh[h].family != f :: s.refresh[h],
      Db(s.db.named,
         map h | h in s.db.oauth && s.db.oauth[h].family != Some(f) :: s.db.oauth[h],
         map h | h in s.db.refresh && s.db.refresh[h].family != f :: s.db.refresh[h]))
  }

  function DropClients(s: Store, cs: set<ClientId>): Store {
    Store(
      s.tokens,
      map h | h in s.oauth && s.oauth[h].client !in cs :: s.oauth[h],
      map h | h in s.refresh && s.refresh[h].client !in cs :: s.refresh[h],
      Db(s.db.named,
         map h | h in s.db.oauth && s.db.oauth[h].client !in cs :: s.db.oauth[h],
         map h | h in s.db.refresh && s.db.refresh[h].client !in cs :: s.db.refresh[h]))
  }

  function RevokeClient(s: Store, client: ClientId): (Store, nat) {
    (DropClients(s, {client}), |set h | h in s.oauth && s.oauth[h].client == client|)
  }

  // Clients that hold OAuth material.
  function Holders(s: Store): set<ClientId> {
    (set h | h in s.oauth :: s.oauth[h].client) + (set h | h in s.refresh :: s.refresh[h].client)
  }

  function PruneUnknown(s: Store, known: set<ClientId>): (Store, nat) {
    (DropClients(s, Holders(s) - known), |Holders(s) - known|)
  }

  function RevokeOAuth(s: Store, h: Hash, now: real): (Store, bool) {
    if h !in s.oauth then (s, false)
    else
      var a := s.oauth[h];
      var deadline := now + REVOKE_GRACE_SECONDS;
      var s1 := s.(oauth := if a.expiresAt > deadline then s.oauth[h := a.(expiresAt := deadline)] else s.oauth,
                   db := s.db.(oauth := s.db.oauth - {h}));
      (if a.family.None? then s1 else
         s1.(refresh := map g | g in s1.refresh && s1.refresh[g].family != a.family.value :: s1.refresh[g],
             db := s1.db.(refresh := map g | g in s1.db.refresh
                          && s1.db.refresh[g].family != a.family.value :: s1.db.refresh[g])),
       true)
  }

  predicate Later(e: Expiry, time: real) {
    e.At? ==> e.time > time
  }

  function Revoke(s: Store, token: Secret, now: real): (Store, bool) {
    if token !in s.tokens then RevokeOAuth(s, Sha256(token), now)
    else
      var b := s.tokens[token];
      var deadline := now + REVOKE_GRACE_SECONDS;
      (s.(tokens := if Later(b.expiresAt, deadline) then s.tokens[token := b.(expiresAt := At(deadline))] else s.tokens,
          db := if b.name.Some? then s.db.(named := s.db.named - {token}) else s.db),
       true)
  }

  // `revoke_named`: the prefix must single out one named token of the client.
  function PrefixMatches(s: Store, prefix: string, client: ClientId): set<Secret> {
    set t | t in s.tokens && prefix <= t && s.tokens[t].client == client && s.tokens[t].name.Some?
  }

  ghost function RevokeNamed(s: Store, prefix: string, client: ClientId, now: real): (Store, bool) {
    var matches := PrefixMatches(s, prefix, client);
    if |prefix| < 6 || |matches| != 1 then (s, false)
    else
      var t :| t in matches;
      Revoke(s, t, now)
  }

  // --- validation and restart ------------------------------------------------

  function Validate(s: Store, token: Secret, now: real): (Store, Option<ClientId>) {
    if token in s.tokens then
      var b := s.tokens[token];
      if Past(b.expiresAt, now) then
        (s.(tokens := s.tokens - {token},
            db := if b.name.Some? then s.db.(named := s.db.named - {token}) else s.db), None)
      else (s, Some(b.client))
    else
      var h := Sha256(token);
      if h !in s.oauth then (s, None)
      else if now > s.oauth[h].expiresAt then (DropOAuth(s, h), None)
      else (s, Some(s.oauth[h].client))
  }

  // Does `validate` accept `token` at `now`, and for whom.
  function Accepts(s: Store, token: Secret, now: real): Option<ClientId> {
    Validate(s, token, now).1
  }

  function Loaded(row: RefreshRow): Refresh
    requires row.familyEnd.Some?
  {
    Refresh(row.client, row.family, row.expiresAt, row.createdAt, row.familyEnd.value, row.used, 0.0, None)
  }

  // `_init_db`: migrate the file, drop what has expired, load the rest.
  function Restart(file: Db, now: real): Store {
    var db := Legacy.Bounded(file);
    var kept := Db(
      map t | t in db.named && Later(db.named[t].expiresAt, now) :: db.named[t],
      map h | h in db.oauth && db.oauth[h].expiresAt > now :: db.oauth[h],
      map h | h in db.refresh && db.refresh[h].expiresAt > now :: db.refresh[h]);
    assert forall h :: h in kept.refresh ==> kept.refresh[h].familyEnd.Some? by {
      forall h | h in kept.refresh ensures kept.refresh[h].familyEnd.Some? { Legacy.BoundedRefresh(file, h); }
    }
    Store(kept.named, kept.oauth, map h | h in kept.refresh :: Loaded(kept.refresh[h]), kept)
  }
}
