/** What every token-store operation keeps, proved table by table. */
module TokenInvariant {
  import opened Prelude
  import opened TokenTypes
  import opened TokenModel
  import opened TokenHistory
  import Legacy = LegacySessions

  // --- the invariant -------------------------------------------------------------

  ghost predicate TokensIssued(tokens: map<Secret, Bearer>, revokedNamed: map<Secret, real>, issued: set<Secret>) {
    && (forall t :: t in tokens ==> t in issued)
    && (forall t :: t in revokedNamed ==> t in issued)
  }

  ghost predicate OAuthIssued(oauth: map<Hash, Access>, revoked: map<Hash, real>, issued: set<Secret>) {
    && (forall h :: h in oauth ==> h.secret in issued)
    && (forall h :: h in revoked ==> h.secret in issued)
  }

  ghost predicate RefreshIssued(refresh: map<Hash, Refresh>, exchanges: map<Hash, Exchange>, issued: set<Secret>) {
    && (forall h :: h in refresh ==> h.secret in issued)
    && (forall h :: h in exchanges ==> h.secret in issued)
  }

  // One client and one absolute end per family, which no token outlives.
  ghost predicate AccessBounded(oauth: map<Hash, Access>, families: map<FamilyId, SignIn>) {
    forall h :: h in oauth && oauth[h].family.Some? ==>
      var a := oauth[h];
      && a.family.value in families
      && a.client == families[a.family.value].client
      && a.expiresAt <= families[a.family.value].end
  }

  ghost predicate RefreshBounded(refresh: map<Hash, Refresh>, families: map<FamilyId, SignIn>) {
    forall h :: h in refresh ==>
      var rt := refresh[h];
      && rt.family in families
      && rt.client == families[rt.family].client
      && rt.familyEnd == families[rt.family].end
      && rt.expiresAt <= rt.familyEnd
      && (rt.used ==> rt.expiresAt == rt.familyEnd)
  }

  // At most one refresh token of a family can still be exchanged.
  ghost predicate Linear(refresh: map<Hash, Refresh>) {
    forall g, h | g in refresh && h in refresh && !refresh[g].used && !refresh[h].used
                  && refresh[g].family == refresh[h].family :: g == h
  }

  // The history of exchanges and the `used` marks agree.
  ghost predicate Exchanged(refresh: map<Hash, Refresh>, exchanges: map<Hash, Exchange>) {
    forall h :: h in refresh ==>
      && (refresh[h].used <==> h in exchanges)
      && (refresh[h].replay.Some? ==> h in exchanges && refresh[h].replay == Some(exchanges[h].grant))
      && (h in exchanges ==> exchanges[h].family == refresh[h].family)
  }

  ghost predicate ExchangesKnown(exchanges: map<Hash, Exchange>, families: map<FamilyId, SignIn>) {
    forall h :: h in exchanges ==>
      exchanges[h].family in families && exchanges[h].client == families[exchanges[h].family].client
  }

  // A rotated-out token is forgotten only once its sign-in is revoked or over.
  ghost predicate Remembered(refresh: map<Hash, Refresh>, exchanges: map<Hash, Exchange>,
                             families: map<FamilyId, SignIn>,
                             killed: set<FamilyId>, latest: real) {
    forall h | h in exchanges ::
      || h in refresh
      || exchanges[h].family in killed
      || (exchanges[h].family in families && latest >= families[exchanges[h].family].end)
  }

  ghost predicate KilledGone(refresh: map<Hash, Refresh>, killed: set<FamilyId>, families: map<FamilyId, SignIn>) {
    && (forall f :: f in killed ==> f in families)
    && (forall h :: h in refresh ==> refresh[h].family !in killed)
  }

  // What the file holds: memory without the unnamed and the revoked bearers.
  ghost function MirrorNamed(tokens: map<Secret, Bearer>, revokedNamed: map<Secret, real>): map<Secret, Bearer> {
    map t | t in tokens && tokens[t].name.Some? && t !in revokedNamed :: tokens[t]
  }

  ghost function MirrorOAuth(oauth: map<Hash, Access>, revoked: map<Hash, real>): map<Hash, Access> {
    map h | h in oauth && h !in revoked :: oauth[h]
  }

  ghost function MirrorRefresh(refresh: map<Hash, Refresh>): map<Hash, RefreshRow> {
    map h | h in refresh :: Row(refresh[h])
  }

  ghost predicate Mirrored(w: World) {
    && w.store.db.named == MirrorNamed(w.store.tokens, w.revokedNamed)
    && w.store.db.oauth == MirrorOAuth(w.store.oauth, w.revoked)
    && w.store.db.refresh == MirrorRefresh(w.store.refresh)
  }

  // A revoked bearer that is still in memory stops at its revocation deadline.
  ghost predicate GracedOAuth(oauth: map<Hash, Access>, revoked: map<Hash, real>) {
    forall h :: h in revoked && h in oauth ==> oauth[h].expiresAt <= revoked[h]
  }

  ghost predicate GracedNamed(tokens: map<Secret, Bearer>, revokedNamed: map<Secret, real>) {
    forall t :: t in revokedNamed && t in tokens ==> !Later(tokens[t].expiresAt, revokedNamed[t])
  }

  ghost predicate Capped(tokens: map<Secret, Bearer>) {
    forall c :: |NamedOf(tokens, c)| <= NAMED_TOKEN_CAP
  }

  ghost predicate BearersInv(w: World) {
    && TokensIssued(w.store.tokens, w.revokedNamed, w.issued)
    && GracedNamed(w.store.tokens, w.revokedNamed)
    && Capped(w.store.tokens)
  }

  ghost predicate AccessInv(w: World) {
    && OAuthIssued(w.store.oauth, w.revoked, w.issued)
    && AccessBounded(w.store.oauth, w.families)
    && GracedOAuth(w.store.oauth, w.revoked)
  }

  ghost predicate RefreshInv(w: World) {
    && RefreshIssued(w.store.refresh, w.exchanges, w.issued)
    && RefreshBounded(w.store.refresh, w.families)
    && Linear(w.store.refresh)
    && Exchanged(w.store.refresh, w.exchanges)
    && ExchangesKnown(w.exchanges, w.families)
    && Remembered(w.store.refresh, w.exchanges, w.families, w.killed, w.latest)
    && KilledGone(w.store.refresh, w.killed, w.families)
  }

  // A dashboard bearer is never also an OAuth bearer.
  ghost predicate Separate(tokens: map<Secret, Bearer>, oauth: map<Hash, Access>) {
    forall t :: t in tokens ==> Sha256(t) !in oauth
  }

  ghost predicate Inv(w: World) {
    BearersInv(w) && AccessInv(w) && RefreshInv(w) && Mirrored(w) && Separate(w.store.tokens, w.store.oauth)
  }

  // What the invariant says of the refresh tokens held.
  lemma RefreshFacts(w: World)
    requires Inv(w)
    ensures RefreshBounded(w.store.refresh, w.families) && KilledGone(w.store.refresh, w.killed, w.families)
  {
  }

  lemma FileRows(w: World)
    requires Inv(w)
    ensures forall h :: h in w.store.db.oauth ==> h in w.store.oauth
    ensures w.store.db.refresh.Keys == w.store.refresh.Keys
  {
  }

  lemma FileMirrors(w: World)
    requires Inv(w)
    ensures Mirrored(w)
  {
  }

  lemma FamilyKnown(w: World, h: Hash)
    requires Inv(w) && h in w.store.oauth && w.store.oauth[h].family.Some?
    ensures w.store.oauth[h].family.value in w.families
  {
  }

  lemma SoleUnused(w: World, h: Hash)
    requires Inv(w) && h in w.store.refresh && !w.store.refresh[h].used
    ensures forall g :: g in w.store.refresh && w.store.refresh[g].family == w.store.refresh[h].family && g != h ==>
                          w.store.refresh[g].used
  {
  }

  lemma InitInv(now: real)
    ensures Inv(Init(now))
  {
    forall c ensures NamedOf(map[], c) == {} {}
  }

  // --- operations that only take away ----------------------------------------------

  // `rt'` is what is left of `rt`: at most the pair held for a retry is gone.
  ghost predicate Fades(rt': Refresh, rt: Refresh) {
    && rt' == rt.(usedAt := rt'.usedAt, replay := rt'.replay)
    && (rt'.replay == None || rt'.replay == rt.replay)
  }

  ghost predicate Shrinks(w: World, w': World) {
    && w'.issued == w.issued && w'.families == w.families && w'.exchanges == w.exchanges
    && w.killed <= w'.killed && w'.killed <= w'.families.Keys && w.latest <= w'.latest
    && SubMap(w'.store.tokens, w.store.tokens)
    && SubMap(w'.store.oauth, w.store.oauth)
    && (forall h :: h in w'.store.refresh ==> h in w.store.refresh && Fades(w'.store.refresh[h], w.store.refresh[h]))
    && w'.revoked == w.revoked && w'.revokedNamed == w.revokedNamed
  }

  lemma NamedShrinks(w: World, w': World)
    requires Capped(w.store.tokens) && SubMap(w'.store.tokens, w.store.tokens)
    ensures Capped(w'.store.tokens)
  {
    forall c ensures |NamedOf(w'.store.tokens, c)| <= NAMED_TOKEN_CAP {
      SubsetSize(NamedOf(w'.store.tokens, c), NamedOf(w.store.tokens, c));
    }
  }

  lemma ShrinkKeepsInv(w: World, w': World)
    requires Inv(w) && Shrinks(w, w')
    requires Mirrored(w')
    requires forall h :: h in w.store.refresh && w.store.refresh[h].used && h !in w'.store.refresh ==>
               w.store.refresh[h].family in w'.killed || w'.latest >= w.store.refresh[h].familyEnd
    requires forall h :: h in w'.store.refresh ==> w'.store.refresh[h].family !in w'.killed
    ensures Inv(w')
  {
    NamedShrinks(w, w');
  }

  ghost function Tidied(w: World, now: real): World {
    w.(store := Cleanup(w.store, now), latest := MaxReal(w.latest, now))
  }

  lemma TidyMirror(w: World, now: real)
    requires Mirrored(w)
    ensures Mirrored(Tidied(w, now))
  {
    var w' := Tidied(w, now);
    assert w'.store.db.named == MirrorNamed(w'.store.tokens, w'.revokedNamed);
    assert w'.store.db.oauth == MirrorOAuth(w'.store.oauth, w'.revoked);
    assert w'.store.db.refresh == MirrorRefresh(w'.store.refresh);
  }

  lemma TidyShrinks(w: World, now: real)
    requires Inv(w)
    ensures Shrinks(w, Tidied(w, now))
  {
  }

  lemma TidyForgets(w: World, now: real)
    requires Inv(w)
    ensures forall h :: h in w.store.refresh && w.store.refresh[h].used && h !in Tidied(w, now).store.refresh ==>
                          Tidied(w, now).latest >= w.store.refresh[h].familyEnd
  {
  }

  lemma TidyInv(w: World, now: real)
    requires Inv(w)
    ensures Inv(Tidied(w, now))
  {
    TidyMirror(w, now);
    TidyShrinks(w, now);
    TidyForgets(w, now);
    ShrinkKeepsInv(w, Tidied(w, now));
  }

  // Memory and file drop the OAuth rows that satisfy a predicate over client and family.
  ghost predicate Culled(w: World, w': World) {
    && w' == w.(store := w'.store, killed := w'.killed, latest := w'.latest)
    && w.killed <= w'.killed && w'.killed <= w.families.Keys && w.latest <= w'.latest
    && w'.store.tokens == w.store.tokens && w'.store.db.named == w.store.db.named
    && SubMap(w'.store.oauth, w.store.oauth) && SubMap(w'.store.refresh, w.store.refresh)
    && SubMap(w'.store.db.oauth, w.store.db.oauth) && SubMap(w'.store.db.refresh, w.store.db.refresh)
    && (forall h :: h in w.store.db.oauth ==> (h in w'.store.db.oauth <==> h in w'.store.oauth))
    && (forall h :: h in w.store.db.refresh ==> (h in w'.store.db.refresh <==> h in w'.store.refresh))
  }

  lemma CullMirror(w: World, w': World)
    requires Mirrored(w) && Culled(w, w')
    ensures Mirrored(w')
  {
    assert w'.store.db.named == MirrorNamed(w'.store.tokens, w'.revokedNamed);
    assert w'.store.db.oauth == MirrorOAuth(w'.store.oauth, w'.revoked);
    assert w'.store.db.refresh == MirrorRefresh(w'.store.refresh);
  }

  lemma CullKeepsInv(w: World, w': World)
    requires Inv(w) && Culled(w, w')
    requires forall h :: h in w.store.refresh && w.store.refresh[h].used && h !in w'.store.refresh ==>
               w.store.refresh[h].family in w'.killed || w'.latest >= w.store.refresh[h].familyEnd
    requires forall h :: h in w'.store.refresh ==> w'.store.refresh[h].family !in w'.killed
    ensures Inv(w')
  {
    CullMirror(w, w');
    ShrinkKeepsInv(w, w');
  }

  lemma MirrorRows(w: World)
    requires Mirrored(w)
    ensures forall h :: h in w.store.db.refresh ==>
        h in w.store.refresh && w.store.db.refresh[h] == Row(w.store.refresh[h])
    ensures forall h :: h in w.store.db.oauth ==> h in w.store.oauth && w.store.db.oauth[h] == w.store.oauth[h]
    ensures w.store.db.refresh.Keys == w.store.refresh.Keys
  {
  }

  lemma RevokeFamilyInv(w: World, f: FamilyId, killed: set<FamilyId>, latest: real)
    requires Inv(w) && w.latest <= latest
    requires killed == w.killed || (f in w.families && killed == w.killed + {f})
    requires || killed != w.killed
             || (forall h | h in w.store.refresh && w.store.refresh[h].family == f && w.store.refresh[h].used ::
                   f in w.killed || latest >= w.store.refresh[h].familyEnd)
    ensures Inv(w.(store := TokenModel.RevokeFamily(w.store, f), killed := killed, latest := latest))
  {
    MirrorRows(w);
    CullKeepsInv(w, w.(store := TokenModel.RevokeFamily(w.store, f), killed := killed, latest := latest));
  }

  lemma DropClientsInv(w: World, cs: set<ClientId>, killed: set<FamilyId>)
    requires Inv(w)
    requires forall f :: f in killed ==> f in w.families
    requires forall h :: h in w.store.refresh ==> (w.store.refresh[h].client in cs
                                                   <==> w.store.refresh[h].family in killed)
    ensures Inv(w.(store := DropClients(w.store, cs), killed := w.killed + killed))
  {
    MirrorRows(w);
    CullKeepsInv(w, w.(store := DropClients(w.store, cs), killed := w.killed + killed));
  }

  lemma DropRefreshInv(w: World, h: Hash, latest: real)
    requires Inv(w) && w.latest <= latest
    requires h in w.store.refresh && !w.store.refresh[h].used
    ensures Inv(w.(store := DropRefresh(w.store, h), latest := latest))
  {
    hide Inv;
    RefreshFacts(w);
    FileRows(w);
    CullKeepsInv(w, w.(store := DropRefresh(w.store, h), latest := latest));
  }

  lemma DropOAuthInv(w: World, h: Hash, latest: real)
    requires Inv(w) && w.latest <= latest
    ensures Inv(w.(store := DropOAuth(w.store, h), latest := latest))
  {
    CullKeepsInv(w, w.(store := DropOAuth(w.store, h), latest := latest));
  }

  lemma LaterInv(w: World, latest: real)
    requires Inv(w) && w.latest <= latest
    ensures Inv(w.(latest := latest))
  {
    CullKeepsInv(w, w.(latest := latest));
  }

  // --- operations that mint --------------------------------------------------------

  lemma PutNamed(tokens: map<Secret, Bearer>, revokedNamed: map<Secret, real>, t: Secret, b: Bearer)
    requires t !in tokens && t !in revokedNamed
    ensures MirrorNamed(tokens[t := b], revokedNamed) ==
            if b.name.Some? then MirrorNamed(tokens, revokedNamed)[t := b] else MirrorNamed(tokens, revokedNamed)
  {
  }

  lemma PutOAuth(oauth: map<Hash, Access>, revoked: map<Hash, real>, h: Hash, a: Access)
    requires h !in revoked
    ensures MirrorOAuth(oauth[h := a], revoked) == MirrorOAuth(oauth, revoked)[h := a]
  {
  }

  lemma PutRefresh(refresh: map<Hash, Refresh>, h: Hash, rt: Refresh)
    ensures MirrorRefresh(refresh[h := rt]) == MirrorRefresh(refresh)[h := Row(rt)]
  {
  }

  lemma PutCount(tokens: map<Secret, Bearer>, t: Secret, b: Bearer, c: ClientId)
    requires t !in tokens
    ensures NamedOf(tokens[t := b], c) ==
            if b.name.Some? && c == b.client then NamedOf(tokens, c) + {t} else NamedOf(tokens, c)
  {
  }

  lemma PutCapped(tokens: map<Secret, Bearer>, t: Secret, b: Bearer)
    requires Capped(tokens) && t !in tokens
    requires b.name.Some? ==> |NamedOf(tokens, b.client)| < NAMED_TOKEN_CAP
    ensures Capped(tokens[t := b])
  {
    var after := tokens[t := b];
    forall c ensures |NamedOf(after, c)| <= NAMED_TOKEN_CAP {
      PutCount(tokens, t, b, c);
    }
  }

  lemma KeepBearer(w: World, cfg: Config, client: ClientId, name: Option<string>, token: Secret, now: real)
    requires Inv(w) && token !in w.issued
    requires name.Some? ==> |NamedOf(w.store.tokens, client)| < NAMED_TOKEN_CAP
    ensures Inv(w.(store := AddBearer(w.store, cfg, client, name, token, now), issued := w.issued + {token}))
  {
    var b := AddBearer(w.store, cfg, client, name, token, now).tokens[token];
    PutNamed(w.store.tokens, w.revokedNamed, token, b);
    PutCapped(w.store.tokens, token, b);
    KeepIssued(w, {token});
  }

  // A new sign-in.
  lemma KeepOpen(w: World, f: FamilyId, signIn: SignIn)
    requires Inv(w) && f !in w.families
    ensures Inv(w.(families := w.families[f := signIn]))
  {
  }

  lemma KeepAccess(w: World, client: ClientId, family: Option<FamilyId>, end: real, now: real, access: Secret)
    requires Inv(w) && access !in w.issued
    requires family.Some? ==> family.value in w.families && w.families[family.value] == SignIn(client, end)
    ensures Inv(w.(store := MintAccess(w.store, client, family, end, now, access), issued := w.issued + {access}))
  {
    var w' := w.(store := MintAccess(w.store, client, family, end, now, access), issued := w.issued + {access});
    PutOAuth(w.store.oauth, w.revoked, Sha256(access), w'.store.oauth[Sha256(access)]);
    KeepIssued(w, {access});
  }

  // A new unused refresh token in a live family that has no other unused one.
  lemma AddedRefresh(w: World, w': World, h: Hash)
    requires RefreshInv(w) && h !in w.store.refresh && h !in w.exchanges && h.secret in w'.issued
        && w.issued <= w'.issued
    requires h in w'.store.refresh && w'.store.refresh == w.store.refresh[h := w'.store.refresh[h]]
    requires w'.exchanges == w.exchanges && w'.families == w.families && w'.killed == w.killed && w'.latest == w.latest
    requires var rt := w'.store.refresh[h];
             && rt.family in w.families && rt.family !in w.killed
             && rt.client == w.families[rt.family].client && rt.familyEnd == w.families[rt.family].end
             && rt.expiresAt <= rt.familyEnd && !rt.used && rt.replay.None?
             && forall g :: g in w.store.refresh && w.store.refresh[g].family == rt.family ==> w.store.refresh[g].used
    ensures RefreshInv(w')
  {
    assert RefreshBounded(w'.store.refresh, w'.families);
    assert Linear(w'.store.refresh);
    assert Exchanged(w'.store.refresh, w'.exchanges);
  }

  // A refresh token rewritten in place, used and holding nothing but the pair it bought.
  lemma RewrittenRefresh(w: World, w': World, h: Hash)
    requires RefreshInv(w) && h in w.store.refresh && h in w'.exchanges
    requires h in w'.store.refresh && w'.store.refresh == w.store.refresh[h := w'.store.refresh[h]]
    requires w'.exchanges == w.exchanges[h := w'.exchanges[h]]
    requires w'.families == w.families && w'.killed == w.killed && w'.latest == w.latest && w'.issued == w.issued
    requires var old_, rt := w.store.refresh[h], w'.store.refresh[h];
             && rt.client == old_.client && rt.family == old_.family && rt.familyEnd == old_.familyEnd
             && rt.used && rt.expiresAt == rt.familyEnd
             && rt.replay in {None, Some(w'.exchanges[h].grant)}
             && w'.exchanges[h].family == rt.family && w'.exchanges[h].client == rt.client
    ensures RefreshInv(w')
  {
    assert RefreshBounded(w'.store.refresh, w'.families);
    assert Linear(w'.store.refresh);
    assert Exchanged(w'.store.refresh, w'.exchanges);
  }

  lemma KeepRefresh(w: World, cfg: Config, client: ClientId, f: FamilyId, end: real, now: real, refresh: Secret)
    requires Inv(w) && refresh !in w.issued
    requires f in w.families && f !in w.killed && w.families[f] == SignIn(client, end)
    requires forall h :: h in w.store.refresh && w.store.refresh[h].family == f ==> w.store.refresh[h].used
    ensures Inv(w.(store := MintRefresh(w.store, cfg, client, f, end, now, refresh), issued := w.issued + {refresh}))
  {
    var w' := w.(store := MintRefresh(w.store, cfg, client, f, end, now, refresh), issued := w.issued + {refresh});
    PutRefresh(w.store.refresh, Sha256(refresh), w'.store.refresh[Sha256(refresh)]);
    KeepIssued(w, {refresh});
    AddedRefresh(w, w', Sha256(refresh));
  }

  lemma KeepMint(w: World, cfg: Config, client: ClientId, family: Option<FamilyId>, end: real, now: real,
                 access: Secret, refresh: Secret)
    requires Inv(w) && access !in w.issued && refresh !in w.issued && access != refresh
    requires family.Some? ==>
               && family.value in w.families && family.value !in w.killed
                 && w.families[family.value] == SignIn(client, end)
               && forall h :: h in w.store.refresh && w.store.refresh[h].family == family.value ==>
                 w.store.refresh[h].used
    ensures Inv(w.(store := Mint(w.store, cfg, client, family, end, now, access, refresh).0,
                   issued := w.issued + {access, refresh}))
  {
    KeepAccess(w, client, family, end, now, access);
    var w1 := w.(store := MintAccess(w.store, client, family, end, now, access), issued := w.issued + {access});
    assert w1.issued + {refresh} == w.issued + {access, refresh};
    if family.Some? {
      KeepRefresh(w1, cfg, client, family.value, end, now, refresh);
    } else {
      KeepIssued(w1, {refresh});
    }
  }

  lemma KeepIssued(w: World, more: set<Secret>)
    requires Inv(w)
    ensures Inv(w.(issued := w.issued + more))
  {
  }

  // The presented token is marked as exchanged for `grant`.
  lemma KeepMark(w: World, h: Hash, now: real, grant: Grant)
    requires Inv(w) && h in w.store.refresh && !w.store.refresh[h].used
    ensures Inv(w.(store := MarkUsed(w.store, h, now),
                   exchanges := w.exchanges[h := Exchange(w.store.refresh[h].client, w.store.refresh[h].family,
                                                          grant)]))
  {
    var w' := w.(store := MarkUsed(w.store, h, now),
                 exchanges := w.exchanges[h := Exchange(w.store.refresh[h].client, w.store.refresh[h].family, grant)]);
    PutRefresh(w.store.refresh, h, w'.store.refresh[h]);
    RewrittenRefresh(w, w', h);
  }

  lemma KeepHold(w: World, h: Hash)
    requires Inv(w) && h in w.store.refresh && h in w.exchanges
    ensures Inv(w.(store := HoldReplay(w.store, h, w.exchanges[h].grant)))
  {
    var w' := w.(store := HoldReplay(w.store, h, w.exchanges[h].grant));
    PutRefresh(w.store.refresh, h, w'.store.refresh[h]);
    RewrittenRefresh(w, w', h);
  }

  // --- revocation with a grace, expiry, restart --------------------------------------

  // The bearer keeps its revocation grace in memory and leaves the file at once.
  ghost function Shortened(w: World, h: Hash, now: real): World
    requires h in w.store.oauth
  {
    var deadline := now + REVOKE_GRACE_SECONDS;
    var a := w.store.oauth[h];
    w.(store := w.store.(oauth := if a.expiresAt > deadline then w.store.oauth[h := a.(expiresAt := deadline)]
                         else w.store.oauth,
                         db := w.store.db.(oauth := w.store.db.oauth - {h})),
       revoked := if h in w.revoked then w.revoked else w.revoked[h := deadline],
       latest := MaxReal(w.latest, now))
  }

  lemma ShortenMirror(oauth: map<Hash, Access>, revoked: map<Hash, real>, h: Hash, a: Access, deadline: real)
    requires h in oauth
    ensures MirrorOAuth(oauth[h := a], revoked[h := deadline]) == MirrorOAuth(oauth, revoked) - {h}
    ensures h in revoked ==>
              MirrorOAuth(oauth, revoked) - {h} == MirrorOAuth(oauth, revoked) == MirrorOAuth(oauth[h := a], revoked)
  {
  }

  lemma ShortenMirrorNamed(tokens: map<Secret, Bearer>, revokedNamed: map<Secret, real>, t: Secret, b: Bearer,
                           deadline: real)
    requires t in tokens && b.name == tokens[t].name
    ensures MirrorNamed(tokens[t := b], revokedNamed[t := deadline]) == MirrorNamed(tokens, revokedNamed) - {t}
    ensures t in revokedNamed || b.name.None? ==>
              MirrorNamed(tokens, revokedNamed) - {t} == MirrorNamed(tokens, revokedNamed)
                  == MirrorNamed(tokens[t := b], revokedNamed)
  {
  }

  // Cutting one bearer short keeps what is known of the bearers.
  lemma ShortenBounds(oauth: map<Hash, Access>, revoked: map<Hash, real>, issued: set<Secret>,
                      families: map<FamilyId, SignIn>,
                      h: Hash, a: Access, deadline: real)
    requires OAuthIssued(oauth, revoked, issued) && AccessBounded(oauth, families) && GracedOAuth(oauth, revoked)
        && h in oauth
    requires a == oauth[h].(expiresAt := a.expiresAt) && a.expiresAt <= oauth[h].expiresAt && a.expiresAt <= deadline
    ensures OAuthIssued(oauth[h := a], revoked, issued) && OAuthIssued(oauth[h := a], revoked[h := deadline], issued)
    ensures AccessBounded(oauth[h := a], families)
    ensures GracedOAuth(oauth[h := a], revoked) && GracedOAuth(oauth[h := a], revoked[h := deadline])
  {
  }

  lemma KeepShortened(w: World, h: Hash, now: real)
    requires Inv(w) && h in w.store.oauth
    ensures Inv(Shortened(w, h, now))
  {
    hide RefreshIssued, RefreshBounded, Linear, Exchanged, ExchangesKnown, Remembered, KilledGone, MirrorRefresh;
    hide OAuthIssued, AccessBounded, GracedOAuth, MirrorOAuth, MirrorNamed, TokensIssued, GracedNamed, Capped;
    var w' := Shortened(w, h, now);
    var a := w'.store.oauth[h];
    assert w'.store.oauth == w.store.oauth[h := a];
    ShortenMirror(w.store.oauth, w.revoked, h, a, now + REVOKE_GRACE_SECONDS);
    ShortenBounds(w.store.oauth, w.revoked, w.issued, w.families, h, a, now + REVOKE_GRACE_SECONDS);
    LaterInv(w, MaxReal(w.latest, now));
  }

  ghost function WithoutFamily(w: World, f: FamilyId): World {
    w.(store := w.store.(
         refresh := map g | g in w.store.refresh && w.store.refresh[g].family != f :: w.store.refresh[g],
         db := w.store.db.(refresh := map g | g in w.store.db.refresh
                           && w.store.db.refresh[g].family != f :: w.store.db.refresh[g])),
       killed := w.killed + {f})
  }

  lemma KeepWithoutFamily(w: World, f: FamilyId)
    requires Inv(w) && f in w.families
    ensures Inv(WithoutFamily(w, f))
  {
    MirrorRows(w);
    CullKeepsInv(w, WithoutFamily(w, f));
  }

  ghost function ShortenedNamed(w: World, t: Secret, now: real): World
    requires t in w.store.tokens
  {
    w.(store := TokenModel.Revoke(w.store, t, now).0,
       revokedNamed := if t in w.revokedNamed then w.revokedNamed else w.revokedNamed[t := now + REVOKE_GRACE_SECONDS],
       latest := MaxReal(w.latest, now))
  }

  lemma SameNamed(before: map<Secret, Bearer>, after: map<Secret, Bearer>)
    requires Capped(before) && after.Keys == before.Keys
    requires forall t :: t in before ==> after[t].client == before[t].client && after[t].name == before[t].name
    ensures Capped(after)
  {
    forall c ensures |NamedOf(after, c)| <= NAMED_TOKEN_CAP {
      assert NamedOf(after, c) == NamedOf(before, c);
    }
  }

  lemma ShortenNamedBounds(tokens: map<Secret, Bearer>, revokedNamed: map<Secret, real>, issued: set<Secret>,
                           t: Secret, b: Bearer, deadline: real)
    requires TokensIssued(tokens, revokedNamed, issued) && GracedNamed(tokens, revokedNamed) && Capped(tokens)
        && t in tokens
    requires b == tokens[t].(expiresAt := b.expiresAt) && !Later(b.expiresAt, deadline)
    requires forall time :: Later(b.expiresAt, time) ==> Later(tokens[t].expiresAt, time)
    ensures TokensIssued(tokens[t := b], revokedNamed, issued)
        && TokensIssued(tokens[t := b], revokedNamed[t := deadline], issued)
    ensures GracedNamed(tokens[t := b], revokedNamed) && GracedNamed(tokens[t := b], revokedNamed[t := deadline])
    ensures Capped(tokens[t := b])
  {
    SameNamed(tokens, tokens[t := b]);
  }

  lemma KeepShortenedNamed(w: World, t: Secret, now: real)
    requires Inv(w) && t in w.store.tokens
    ensures Inv(ShortenedNamed(w, t, now))
  {
    hide RefreshIssued, RefreshBounded, Linear, Exchanged, ExchangesKnown, Remembered, KilledGone, MirrorRefresh;
    hide OAuthIssued, AccessBounded, GracedOAuth, MirrorOAuth, MirrorNamed, TokensIssued, GracedNamed, Capped;
    var w' := ShortenedNamed(w, t, now);
    var b := w'.store.tokens[t];
    assert w'.store.tokens == w.store.tokens[t := b];
    ShortenMirrorNamed(w.store.tokens, w.revokedNamed, t, b, now + REVOKE_GRACE_SECONDS);
    ShortenNamedBounds(w.store.tokens, w.revokedNamed, w.issued, t, b, now + REVOKE_GRACE_SECONDS);
    LaterInv(w, MaxReal(w.latest, now));
  }

  lemma KeepExpiredBearer(w: World, t: Secret, latest: real)
    requires Inv(w) && t in w.store.tokens && w.latest <= latest
    ensures Inv(w.(store := w.store.(
                     tokens := w.store.tokens - {t},
                     db := if w.store.tokens[t].name.Some? then w.store.db.(named := w.store.db.named - {t})
                         else w.store.db),
                   latest := latest))
  {
    var w1 := w.(latest := latest);
    LaterInv(w, latest);
    var tokens := w.store.tokens - {t};
    assert MirrorNamed(tokens, w.revokedNamed) == MirrorNamed(w.store.tokens, w.revokedNamed) - {t};
    NamedShrinks(w1, w1.(store := w1.store.(tokens := tokens)));
  }

  lemma KeepValidate(w: World, token: Secret, now: real)
    requires Inv(w)
    ensures Inv(w.(store := TokenModel.Validate(w.store, token, now).0, latest := MaxReal(w.latest, now)))
  {
    LaterInv(w, MaxReal(w.latest, now));
    if token in w.store.tokens {
      KeepExpiredBearer(w, token, MaxReal(w.latest, now));
    } else if Sha256(token) in w.store.oauth {
      DropOAuthInv(w, Sha256(token), MaxReal(w.latest, now));
    }
  }

  lemma FileSettled(w: World)
    requires Inv(w)
    ensures Legacy.Bounded(w.store.db) == w.store.db
  {
    MirrorRows(w);
    Legacy.SettledFixed(w.store.db);
  }

  // What memory was before the restart, as the restarted server sees it.
  ghost function Survivors(w: World, now: real): Store {
    var tokens := map t | t in w.store.tokens && w.store.tokens[t].name.Some? && t !in w.revokedNamed
                          && Later(w.store.tokens[t].expiresAt, now) :: w.store.tokens[t];
    var oauth := map h | h in w.store.oauth && h !in w.revoked && w.store.oauth[h].expiresAt > now :: w.store.oauth[h];
    var refresh := map h | h in w.store.refresh && w.store.refresh[h].expiresAt > now ::
                     w.store.refresh[h].(usedAt := 0.0, replay := None);
    Store(tokens, oauth, refresh, Db(tokens, oauth, MirrorRefresh(refresh)))
  }

  lemma RestartRefresh(refresh: map<Hash, Refresh>, rows: map<Hash, RefreshRow>, now: real)
    requires rows == MirrorRefresh(refresh)
    ensures var kept := map h | h in rows && rows[h].expiresAt > now :: rows[h];
            var left := map h | h in refresh && refresh[h].expiresAt > now
              :: refresh[h].(usedAt := 0.0, replay := None);
            && kept == MirrorRefresh(left)
            && (forall h :: h in kept ==> kept[h].familyEnd.Some?)
            && left == map h | h in kept :: Loaded(kept[h])
  {
  }

  // A restart brings back exactly the unexpired named tokens, OAuth tokens and refresh
  // tokens that had not been revoked, with their `used` marks and without retry pairs.
  lemma RestartSurvivors(w: World, now: real)
    requires Inv(w)
    ensures TokenModel.Restart(w.store.db, now) == Survivors(w, now)
  {
    hide Inv;
    FileSettled(w);
    FileMirrors(w);
    var s, s' := TokenModel.Restart(w.store.db, now), Survivors(w, now);
    assert s.tokens == s'.tokens;
    assert s.oauth == s'.oauth;
    RestartRefresh(w.store.refresh, w.store.db.refresh, now);
  }

  lemma SurvivorsMirrored(w: World, now: real)
    ensures Mirrored(w.(store := Survivors(w, now)))
  {
    var s := Survivors(w, now);
    assert s.db.named == MirrorNamed(s.tokens, w.revokedNamed);
    assert s.db.oauth == MirrorOAuth(s.oauth, w.revoked);
  }

  lemma KeepRestart(w: World, now: real)
    requires Inv(w)
    ensures Inv(w.(store := TokenModel.Restart(w.store.db, now), latest := MaxReal(w.latest, now)))
  {
    RestartSurvivors(w, now);
    SurvivorsMirrored(w, now);
    SurvivorsInv(w, now);
  }

  lemma SurvivorsInv(w: World, now: real)
    requires Inv(w) && Mirrored(w.(store := Survivors(w, now)))
    ensures Inv(w.(store := Survivors(w, now), latest := MaxReal(w.latest, now)))
  {
    hide Inv;
    RefreshFacts(w);
    ShrinkKeepsInv(w, w.(store := Survivors(w, now), latest := MaxReal(w.latest, now)));
  }

  // --- every operation ---------------------------------------------------------------

  lemma KeepIssue(w: World, cfg: Config, op: Op)
    requires Inv(w) && Legal(w, op) && op.Issue?
    ensures Inv(Step(w, cfg, op))
  {
    hide Inv;
    assert w.killed + {} == w.killed;
    var w0 := w.(latest := Latest(op, w.latest));
    LaterInv(w, w0.latest);
    TidyInv(w0, op.countNow);
    var w1 := if op.name.Some? then Tidied(w0, op.countNow) else w0;
    if op.name.Some? && |NamedOf(w1.store.tokens, op.client)| >= NAMED_TOKEN_CAP {
      KeepIssued(w1, {op.token});
    } else {
      KeepBearer(w1, cfg, op.client, op.name, op.token, op.now);
      var w2 := w1.(store := AddBearer(w1.store, cfg, op.client, op.name, op.token, op.now),
                    issued := w1.issued + {op.token});
      TidyInv(w2, op.cleanNow);
    }
  }

  lemma KeepSignIn(w: World, cfg: Config, client: ClientId, family: Option<FamilyId>, access: Secret, refresh: Secret,
                   end: real, now: real)
    requires Inv(w) && access !in w.issued && refresh !in w.issued && access != refresh
    requires family.Some? ==> family.value !in w.families
    ensures Inv(w.(store := Mint(w.store, cfg, client, family, end, now, access, refresh).0,
                   issued := w.issued + {access, refresh},
                   families := if family.Some? then w.families[family.value := SignIn(client, end)] else w.families))
  {
    hide Inv;
    RefreshFacts(w);
    var w1 := if family.Some? then w.(families := w.families[family.value := SignIn(client, end)]) else w;
    if family.Some? {
      KeepOpen(w, family.value, SignIn(client, end));
    }
    KeepMint(w1, cfg, client, family, end, now, access, refresh);
  }

  lemma KeepIssueOAuth(w: World, cfg: Config, op: Op)
    requires Inv(w) && Legal(w, op) && op.IssueOAuth?
    ensures Inv(Step(w, cfg, op))
  {
    hide Inv;
    assert w.killed + {} == w.killed;
    var end := op.start + SESSION_LIFETIME;
    var w0 := w.(latest := Latest(op, w.latest));
    LaterInv(w, w0.latest);
    KeepSignIn(w0, cfg, op.client, op.family, op.access, op.refresh, end, op.now);
    TidyInv(w0.(store := Mint(w0.store, cfg, op.client, op.family, end, op.now, op.access, op.refresh).0,
                issued := w0.issued + {op.access, op.refresh},
                families := if op.family.Some? then w0.families[op.family.value := SignIn(op.client, end)]
                    else w0.families),
            op.cleanNow);
  }

  lemma KeepRotation(w: World, cfg: Config, op: Op)
    requires Inv(w) && Legal(w, op) && Rotates(w.store, op)
    ensures Inv(Step(w, cfg, op))
  {
    hide Inv;
    RefreshFacts(w);
    SoleUnused(w, Sha256(op.presented));
    assert w.killed + {} == w.killed;
    var h := Sha256(op.presented);
    var rt := w.store.refresh[h];
    var grant := Grant(op.access, ExpiresIn(rt.familyEnd, op.mintNow), Some(op.refresh));
    var w0 := w.(latest := Latest(op, w.latest));
    LaterInv(w, w0.latest);
    KeepMark(w0, h, op.now, grant);
    var w1 := w0.(store := MarkUsed(w0.store, h, op.now),
                  exchanges := w0.exchanges[h := Exchange(rt.client, rt.family, grant)]);
    KeepMint(w1, cfg, rt.client, Some(rt.family), rt.familyEnd, op.mintNow, op.access, op.refresh);
    var w2 := w1.(store := Mint(w1.store, cfg, rt.client, Some(rt.family), rt.familyEnd, op.mintNow, op.access,
                                op.refresh).0,
                  issued := w1.issued + {op.access, op.refresh});
    KeepHold(w2, h);
    TidyInv(w2.(store := HoldReplay(w2.store, h, grant)), op.cleanNow);
  }

  lemma KeepRejection(w: World, cfg: Config, op: Op)
    requires Inv(w) && Legal(w, op) && op.RefreshGrant? && !Rotates(w.store, op)
    ensures Inv(Step(w, cfg, op))
  {
    hide Inv;
    RefreshFacts(w);
    var h := Sha256(op.presented);
    var w0 := w.(latest := Latest(op, w.latest), issued := w.issued + Minted(op));
    LaterInv(w, w0.latest);
    KeepIssued(w.(latest := w0.latest), Minted(op));
    assert w.killed + {} == w.killed;
    if h in w.store.refresh && w.store.refresh[h].client == op.client {
      var rt := w.store.refresh[h];
      if rt.used && op.now < rt.familyEnd {
        if !(rt.replay.Some? && op.now - rt.usedAt <= REFRESH_REUSE_GRACE) {
          RevokeFamilyInv(w0, rt.family, w0.killed + {rt.family}, w0.latest);
        }
      } else if op.now >= rt.familyEnd {
        RevokeFamilyInv(w0, rt.family, w0.killed, w0.latest);
      } else {
        DropRefreshInv(w0, h, w0.latest);
      }
    }
  }

  lemma KeepRevoke(w: World, cfg: Config, op: Op)
    requires Inv(w) && op.Revoke?
    ensures Inv(Step(w, cfg, op))
  {
    hide Inv;
    var h := Sha256(op.token);
    assert w.killed + {} == w.killed && w.issued + {} == w.issued;
    if op.token in w.store.tokens {
      KeepShortenedNamed(w, op.token, op.now);
    } else if h in w.store.oauth {
      var w1 := Shortened(w, h, op.now);
      KeepShortened(w, h, op.now);
      if w.store.oauth[h].family.Some? {
        FamilyKnown(w, h);
        KeepWithoutFamily(w1, w.store.oauth[h].family.value);
      }
    } else {
      LaterInv(w, MaxReal(w.latest, op.now));
    }
  }

  lemma KeepRevokeNamed(w: World, cfg: Config, op: Op)
    requires Inv(w) && op.RevokeNamed?
    ensures Inv(Step(w, cfg, op))
  {
    hide Inv;
    assert w.killed + {} == w.killed && w.issued + {} == w.issued;
    var matches := PrefixMatches(w.store, op.prefix, op.client);
    if |op.prefix| < 6 || |matches| != 1 {
      LaterInv(w, MaxReal(w.latest, op.now));
    } else {
      var t :| t in matches;
      assert matches == {t} by { SingletonIs(matches, t); }
      KeepShortenedNamed(w, t, op.now);
    }
  }

  lemma KeepRevokeClient(w: World, cfg: Config, op: Op)
    requires Inv(w) && op.RevokeClient?
    ensures Inv(Step(w, cfg, op))
  {
    hide Inv, DropClients;
    RefreshFacts(w);
    assert w.issued + {} == w.issued;
    DropClientsInv(w, {op.client}, Kills(w, cfg, op));
  }

  lemma PrunedFamilies(w: World, cfg: Config, op: Op)
    requires RefreshBounded(w.store.refresh, w.families) && op.PruneUnknown?
    ensures forall h :: h in w.store.refresh ==>
              (w.store.refresh[h].client in Holders(w.store) - op.known
               <==> w.store.refresh[h].family in Kills(w, cfg, op))
    ensures forall f :: f in Kills(w, cfg, op) ==> f in w.families
  {
  }

  lemma KeepPrune(w: World, cfg: Config, op: Op)
    requires Inv(w) && op.PruneUnknown?
    ensures Inv(Step(w, cfg, op))
  {
    hide Inv, DropClients;
    RefreshFacts(w);
    assert w.issued + {} == w.issued;
    PrunedFamilies(w, cfg, op);
    hide RefreshBounded, KilledGone, Holders, Kills;
    DropClientsInv(w, Holders(w.store) - op.known, Kills(w, cfg, op));
  }

  // Every operation keeps the invariant.
  lemma StepInv(w: World, cfg: Config, op: Op)
    requires Inv(w) && Legal(w, op)
    ensures Inv(Step(w, cfg, op))
  {
    hide Inv;
    RefreshFacts(w);
    assert w.killed + {} == w.killed && w.issued + {} == w.issued;
    match op
    case Issue(_, _, _, _, _, _) => KeepIssue(w, cfg, op);
    case IssueOAuth(_, _, _, _, _, _, _) => KeepIssueOAuth(w, cfg, op);
    case RefreshGrant(_, _, _, _, _, _, _) =>
      if Rotates(w.store, op) { KeepRotation(w, cfg, op); } else { KeepRejection(w, cfg, op); }
    case RevokeFamily(f) =>
      if f in w.families {
        RevokeFamilyInv(w, f, w.killed + {f}, w.latest);
      } else {
        RevokeFamilyInv(w, f, w.killed, w.latest);
      }
    case RevokeClient(_) => KeepRevokeClient(w, cfg, op);
    case PruneUnknown(_) => KeepPrune(w, cfg, op);
    case Validate(token, now) => KeepValidate(w, token, now);
    case Revoke(_, _) => KeepRevoke(w, cfg, op);
    case RevokeNamed(_, _, _) => KeepRevokeNamed(w, cfg, op);
    case Tidy(now) => TidyInv(w, now);
    case Restart(now) => KeepRestart(w, now);
  }

  lemma {:induction false} RunInv(w: World, cfg: Config, ops: seq<Op>)
    requires Inv(w) && LegalRun(w, cfg, ops)
    ensures Inv(Run(w, cfg, ops))
    decreases |ops|
  {
    if ops != [] {
      StepInv(w, cfg, ops[0]);
      RunInv(Step(w, cfg, ops[0]), cfg, ops[1..]);
    }
  }
}
