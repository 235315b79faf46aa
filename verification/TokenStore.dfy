/** The `TokenStore` of `auth.py`: dictionaries and file tables updated in place, each
    operation proved to do what `TokenModel` says. */
module TokenStores {
  import opened Prelude
  import opened TokenTypes
  import M = TokenModel
  import Legacy = LegacySessions

  class TokenStore {
    const cfg: Config
    var tokens: map<Secret, Bearer>
    var oauth: map<Hash, Access>
    var refresh: map<Hash, Refresh>
    // The tables of the SQLite file.
    var named: map<Secret, Bearer>
    var oauthRows: map<Hash, Access>
    var refreshRows: map<Hash, RefreshRow>

    function State(): Store reads this {
      Store(tokens, oauth, refresh, Db(named, oauthRows, refreshRows))
    }

    constructor (cfg: Config)
      requires ValidConfig(cfg)
      ensures this.cfg == cfg && State() == M.EMPTY
    {
      this.cfg := cfg;
      tokens, oauth, refresh := map[], map[], map[];
      named, oauthRows, refreshRows := map[], map[], map[];
    }

    // `_init_db`: bound the sessions of older builds, load what is still valid, delete the rest.
    constructor Open(cfg: Config, file: Db, now: real)
      requires ValidConfig(cfg)
      ensures this.cfg == cfg && State() == M.Restart(file, now)
    {
      this.cfg := cfg;
      tokens, oauth, refresh := map[], map[], map[];
      named, oauthRows, refreshRows := file.named, file.oauth, file.refresh;
      new;
      BoundLegacySessions();
      BoundedHaveEnds(file);
      LoadNamed(now);
      LoadOAuth(now);
      LoadRefresh(now);
      DeleteNamed(now);
      DeleteOAuth(now);
      DeleteRefresh(now);
      RestartLoads(file, now);
      hide M.Restart, Legacy.Bounded;
    }

    // --- the migration ---------------------------------------------------------

    // SELECT MIN(created_at) of a family.
    static method FirstCreated(rows: map<Hash, RefreshRow>, family: FamilyId, member: Hash) returns (first: real)
      requires member in rows && rows[member].family == family
      ensures IsMin(first, Legacy.Created(rows, family))
    {
      first := rows[member].createdAt;
      var todo := rows.Keys;
      ghost var created := Legacy.Created(rows, family);
      while todo != {}
        invariant todo <= rows.Keys && first in created
        invariant forall h :: h in rows && h !in todo && rows[h].family == family ==> first <= rows[h].createdAt
      {
        var h :| h in todo;
        if rows[h].family == family && rows[h].createdAt < first {
          first := rows[h].createdAt;
        }
        todo := todo - {h};
      }
    }

    // SELECT MIN(family_expires_at) of a family; `None` is NULL.
    static method EarliestEnd(rows: map<Hash, RefreshRow>, family: FamilyId) returns (end: Option<real>)
      ensures end.None? <==> forall e :: e in Legacy.Ends(rows, family) ==> false
      ensures end.Some? ==> end.value == MinOf(Legacy.Ends(rows, family))
    {
      end := None;
      var todo := rows.Keys;
      ghost var ends := Legacy.Ends(rows, family);
      while todo != {}
        invariant todo <= rows.Keys && (end.Some? ==> end.value in ends)
        invariant forall h :: h in rows && h !in todo && rows[h].family == family && rows[h].familyEnd.Some? ==>
                    end.Some? && end.value <= rows[h].familyEnd.value
      {
        var h :| h in todo;
        var row := rows[h];
        if row.family == family && row.familyEnd.Some? && (end.None? || row.familyEnd.value < end.value) {
          end := row.familyEnd;
        }
        todo := todo - {h};
      }
      if end.Some? {
        MinIs(ends, end.value);
      }
    }

    // The first UPDATE.
    method GiveEnds()
      modifies this`refreshRows
      ensures refreshRows == Legacy.GiveEnds(old(refreshRows))
    {
      var rows := refreshRows;
      var todo := rows.Keys;
      while todo != {}
        invariant todo <= rows.Keys && refreshRows.Keys == rows.Keys
        invariant forall h :: h in rows ==> refreshRows[h] == if h in todo then rows[h] else Legacy.GiveEnd(rows, h)
      {
        var h :| h in todo;
        if rows[h].familyEnd.None? {
          var first := FirstCreated(rows, rows[h].family, h);
          MinIs(Legacy.Created(rows, rows[h].family), first);
          refreshRows := refreshRows[h := rows[h].(familyEnd := Some(first + SESSION_LIFETIME))];
        }
        todo := todo - {h};
      }
    }

    // The second UPDATE.
    method CapRows()
      modifies this`refreshRows
      ensures refreshRows == Legacy.CapRows(old(refreshRows))
    {
      var rows := refreshRows;
      var todo := rows.Keys;
      while todo != {}
        invariant todo <= rows.Keys && refreshRows.Keys == rows.Keys
        invariant forall h :: h in rows ==> refreshRows[h] == if h in todo then rows[h] else Legacy.CapRow(rows[h])
      {
        var h :| h in todo;
        var row := rows[h];
        if row.familyEnd.Some? && row.familyEnd.value < row.expiresAt {
          refreshRows := refreshRows[h := row.(expiresAt := row.familyEnd.value)];
        }
        todo := todo - {h};
      }
    }

    // The third UPDATE.
    method CapAccess()
      modifies this`oauthRows
      ensures oauthRows == Legacy.CapAccess(old(oauthRows), refreshRows)
    {
      var rows := oauthRows;
      var todo := rows.Keys;
      while todo != {}
        invariant todo <= rows.Keys && oauthRows.Keys == rows.Keys
        invariant forall h :: h in rows ==> oauthRows[h] == if h in todo then rows[h]
            else Legacy.CapOne(rows[h], refreshRows)
      {
        var h :| h in todo;
        var row := rows[h];
        if row.family.Some? {
          var end := EarliestEnd(refreshRows, row.family.value);
          if end.Some? && end.value < row.expiresAt {
            oauthRows := oauthRows[h := row.(expiresAt := end.value)];
          }
        }
        todo := todo - {h};
      }
    }

    // `_bound_legacy_sessions`.
    method BoundLegacySessions()
      modifies this`refreshRows, this`oauthRows
      ensures State() == old(State()).(db := Legacy.Bounded(old(State()).db))
    {
      GiveEnds();
      CapRows();
      CapAccess();
    }

    // --- loading -----------------------------------------------------------------

    method LoadNamed(now: real)
      requires tokens == map[]
      modifies this`tokens
      ensures tokens == map t | t in named && M.Later(named[t].expiresAt, now) :: named[t]
    {
      var todo := named.Keys;
      while todo != {}
        invariant todo <= named.Keys
        invariant tokens == map t | t in named && t !in todo && M.Later(named[t].expiresAt, now) :: named[t]
      {
        var t :| t in todo;
        if M.Later(named[t].expiresAt, now) {
          tokens := tokens[t := named[t]];
        }
        todo := todo - {t};
      }
    }

    method LoadOAuth(now: real)
      requires oauth == map[]
      modifies this`oauth
      ensures oauth == map h | h in oauthRows && oauthRows[h].expiresAt > now :: oauthRows[h]
    {
      var todo := oauthRows.Keys;
      while todo != {}
        invariant todo <= oauthRows.Keys
        invariant oauth == map h | h in oauthRows && h !in todo && oauthRows[h].expiresAt > now :: oauthRows[h]
      {
        var h :| h in todo;
        if oauthRows[h].expiresAt > now {
          oauth := oauth[h := oauthRows[h]];
        }
        todo := todo - {h};
      }
    }

    method LoadRefresh(now: real)
      requires refresh == map[] && forall h :: h in refreshRows ==> refreshRows[h].familyEnd.Some?
      modifies this`refresh
      ensures refresh == map h | h in refreshRows && refreshRows[h].expiresAt > now :: M.Loaded(refreshRows[h])
    {
      var todo := refreshRows.Keys;
      while todo != {}
        invariant todo <= refreshRows.Keys
        invariant refresh == map h | h in refreshRows && h !in todo
            && refreshRows[h].expiresAt > now :: M.Loaded(refreshRows[h])
      {
        var h :| h in todo;
        var row := refreshRows[h];
        if row.expiresAt > now {
          refresh := refresh[h := Refresh(row.client, row.family, row.expiresAt, row.createdAt, row.familyEnd.value,
                                          row.used, 0.0, None)];
        }
        todo := todo - {h};
      }
    }

    method DeleteNamed(now: real)
      modifies this`named
      ensures named == map t | t in old(named) && M.Later(old(named)[t].expiresAt, now) :: old(named)[t]
    {
      var expired := set t | t in named && !M.Later(named[t].expiresAt, now);
      ghost var all := expired;
      while expired != {}
        invariant expired <= all && named == old(named) - (all - expired)
      {
        var t :| t in expired;
        named := named - {t};
        expired := expired - {t};
      }
      assert named == old(named) - all;
    }

    method DeleteOAuth(now: real)
      modifies this`oauthRows
      ensures oauthRows == map h | h in old(oauthRows) && old(oauthRows)[h].expiresAt > now :: old(oauthRows)[h]
    {
      var expired := set h | h in oauthRows && oauthRows[h].expiresAt <= now;
      ghost var all := expired;
      while expired != {}
        invariant expired <= all && oauthRows == old(oauthRows) - (all - expired)
      {
        var h :| h in expired;
        oauthRows := oauthRows - {h};
        expired := expired - {h};
      }
      assert oauthRows == old(oauthRows) - all;
    }

    method DeleteRefresh(now: real)
      modifies this`refreshRows
      ensures refreshRows == map h | h in old(refreshRows) && old(refreshRows)[h].expiresAt > now :: old(refreshRows)[h]
    {
      var expired := set h | h in refreshRows && refreshRows[h].expiresAt <= now;
      ghost var all := expired;
      while expired != {}
        invariant expired <= all && refreshRows == old(refreshRows) - (all - expired)
      {
        var h :| h in expired;
        refreshRows := refreshRows - {h};
        expired := expired - {h};
      }
      assert refreshRows == old(refreshRows) - all;
    }

    // --- housekeeping ----------------------------------------------------------

    method CleanTokens(now: real)
      modifies this
      ensures State() == old(State()).(
                tokens := M.Cleanup(old(State()), now).tokens,
                    db := old(State().db).(named := M.Cleanup(old(State()), now).db.named))
    {
      var expired := set t | t in tokens && Past(tokens[t].expiresAt, now);
      ghost var all := expired;
      while expired != {}
        invariant expired <= all
        invariant tokens == old(tokens) - (all - expired)
        invariant named == old(named) - (set t | t in all - expired && old(tokens)[t].name.Some?)
        invariant State() == old(State()).(tokens := tokens, db := old(State().db).(named := named))
      {
        var t :| t in expired;
        if tokens[t].name.Some? {
          named := named - {t};
        }
        tokens := tokens - {t};
        expired := expired - {t};
      }
      assert tokens == M.Cleanup(old(State()), now).tokens;
      assert named == M.Cleanup(old(State()), now).db.named;
    }

    method CleanOAuth(now: real)
      modifies this
      ensures State() == old(State()).(
                oauth := M.Cleanup(old(State()), now).oauth,
                    db := old(State().db).(oauth := M.Cleanup(old(State()), now).db.oauth))
    {
      var expired := set h | h in oauth && now > oauth[h].expiresAt;
      ghost var all := expired;
      while expired != {}
        invariant expired <= all
        invariant oauth == old(oauth) - (all - expired)
        invariant oauthRows == old(oauthRows) - (all - expired)
        invariant State() == old(State()).(oauth := oauth, db := old(State().db).(oauth := oauthRows))
      {
        var h :| h in expired;
        DropOAuth(h);
        expired := expired - {h};
      }
      assert oauth == M.Cleanup(old(State()), now).oauth;
    }

    method CleanRefresh(now: real)
      modifies this
      ensures State() == old(State()).(
                refresh := M.Cleanup(old(State()), now).refresh,
                    db := old(State().db).(refresh := M.Cleanup(old(State()), now).db.refresh))
    {
      var expired := set h | h in refresh && now > refresh[h].expiresAt;
      ghost var all := expired;
      while expired != {}
        invariant expired <= all
        invariant refresh == old(refresh) - (all - expired)
        invariant refreshRows == old(refreshRows) - (all - expired)
        invariant State() == old(State()).(refresh := refresh, db := old(State().db).(refresh := refreshRows))
      {
        var h :| h in expired;
        DropRefresh(h);
        expired := expired - {h};
      }
      SettleReplays(now);
      assert refresh == M.Cleanup(old(State()), now).refresh;
    }

    // Raw pairs held for the retry grace are dropped once it is over.
    method SettleReplays(now: real)
      modifies this`refresh
      ensures refresh.Keys == old(refresh).Keys
      ensures forall h :: h in refresh ==> refresh[h] == M.Settle(old(refresh)[h], now)
    {
      var todo := refresh.Keys;
      while todo != {}
        invariant todo <= refresh.Keys && refresh.Keys == old(refresh).Keys
        invariant forall h :: h in refresh ==> refresh[h] == if h in todo then old(refresh)[h]
            else M.Settle(old(refresh)[h], now)
      {
        var h :| h in todo;
        if refresh[h].replay.Some? && now - refresh[h].usedAt > REFRESH_REUSE_GRACE {
          refresh := refresh[h := refresh[h].(replay := None)];
        }
        todo := todo - {h};
      }
    }

    method Cleanup(now: real)
      modifies this
      ensures State() == M.Cleanup(old(State()), now)
    {
      CleanTokens(now);
      CleanOAuth(now);
      CleanRefresh(now);
    }

    // --- bearers -----------------------------------------------------------------

    method CountNamed(client: ClientId, now: real) returns (n: nat)
      modifies this
      ensures State() == M.Cleanup(old(State()), now)
      ensures n == |M.NamedOf(tokens, client)|
    {
      Cleanup(now);
      n := |M.NamedOf(tokens, client)|;
    }

    method Issue(client: ClientId, name: Option<string>, token: Secret, countNow: real, now: real, cleanNow: real)
      returns (ttl: Option<int>)
      modifies this
      ensures (State(), ttl) == M.Issue(old(State()), cfg, client, name, token, countNow, now, cleanNow)
    {
      if name.Some? {
        var n := CountNamed(client, countNow);
        if n >= NAMED_TOKEN_CAP {
          return None;
        }
      }
      var life := if name.Some? then cfg.namedTtl else 86400;
      var expiry := if name.Some? && life == 0 then Never else At(now + life as real);
      var bearer := Bearer(client, name, expiry, now);
      tokens := tokens[token := bearer];
      if name.Some? {
        named := named[token := bearer];
      }
      Cleanup(cleanNow);
      return Some(life);
    }

    // --- OAuth grants ------------------------------------------------------------

    method MintOAuth(client: ClientId, family: Option<FamilyId>, familyEnd: real, now: real, access: Secret,
                     refreshSecret: Secret)
      returns (grant: Grant)
      modifies this
      ensures (State(), grant) == M.Mint(old(State()), cfg, client, family, familyEnd, now, access, refreshSecret)
    {
      var at := Access(client, family, MinReal(now + TOKEN_TTL, familyEnd), now);
      oauth := oauth[Sha256(access) := at];
      oauthRows := oauthRows[Sha256(access) := at];
      var minted: Option<Secret> := None;
      if family.Some? {
        var rt := Refresh(client, family.value, MinReal(now + cfg.refreshTtl as real, familyEnd), now, familyEnd,
                          false, 0.0, None);
        refresh := refresh[Sha256(refreshSecret) := rt];
        refreshRows := refreshRows[Sha256(refreshSecret) := M.Row(rt)];
        minted := Some(refreshSecret);
      }
      grant := Grant(access, M.ExpiresIn(familyEnd, now), minted);
    }

    method IssueOAuth(client: ClientId, family: Option<FamilyId>, access: Secret, refreshSecret: Secret,
                      start: real, now: real, cleanNow: real) returns (grant: Grant)
      modifies this
      ensures (State(), grant) == M.IssueOAuth(old(State()), cfg, client, family, access, refreshSecret, start, now,
                                               cleanNow)
    {
      grant := MintOAuth(client, family, start + SESSION_LIFETIME, now, access, refreshSecret);
      Cleanup(cleanNow);
    }

    method RefreshGrant(presented: Secret, client: ClientId, access: Secret, refreshSecret: Secret,
                        now: real, mintNow: real, cleanNow: real) returns (reply: M.RefreshReply)
      modifies this
      ensures (State(), reply) == M.RefreshGrant(old(State()), cfg, presented, client, access, refreshSecret, now,
                                                 mintNow, cleanNow)
    {
      var h := Sha256(presented);
      if h !in refresh || refresh[h].client != client {
        return M.Rejected(M.Invalid, None);
      }
      var rt := refresh[h];
      if rt.used && now < rt.familyEnd {
        if rt.replay.Some? && now - rt.usedAt <= REFRESH_REUSE_GRACE {
          return M.Granted(rt.replay.value);
        }
        RevokeFamily(rt.family);
        return M.Rejected(M.Reused, Some(rt.family));
      }
      if now > rt.expiresAt || now >= rt.familyEnd {
        if now >= rt.familyEnd {
          RevokeFamily(rt.family);
        } else {
          DropRefresh(h);
        }
        return M.Rejected(M.Expired, Some(rt.family));
      }
      refresh := refresh[h := rt.(used := true, usedAt := now, expiresAt := rt.familyEnd)];
      refreshRows := refreshRows[h := M.Row(refresh[h])];
      var grant := MintOAuth(rt.client, Some(rt.family), rt.familyEnd, mintNow, access, refreshSecret);
      refresh := refresh[h := refresh[h].(replay := Some(grant))];
      Cleanup(cleanNow);
      return M.Granted(grant);
    }

    // --- revocation --------------------------------------------------------------

    method DropRefresh(h: Hash)
      modifies this
      ensures State() == M.DropRefresh(old(State()), h)
    {
      refresh := refresh - {h};
      refreshRows := refreshRows - {h};
    }

    method DropOAuth(h: Hash)
      modifies this
      ensures State() == M.DropOAuth(old(State()), h)
    {
      oauth := oauth - {h};
      oauthRows := oauthRows - {h};
    }

    // Forget, in memory, the refresh tokens in `doomed`.
    method ForgetRefresh(doomed: set<Hash>)
      modifies this`refresh
      ensures refresh == old(refresh) - doomed
    {
      var left := doomed;
      while left != {}
        invariant left <= doomed
        invariant refresh == old(refresh) - (doomed - left)
      {
        var h :| h in left;
        refresh := refresh - {h};
        left := left - {h};
      }
    }

    method ForgetOAuth(doomed: set<Hash>)
      modifies this`oauth
      ensures oauth == old(oauth) - doomed
    {
      var left := doomed;
      while left != {}
        invariant left <= doomed
        invariant oauth == old(oauth) - (doomed - left)
      {
        var h :| h in left;
        oauth := oauth - {h};
        left := left - {h};
      }
    }

    method RevokeFamily(family: FamilyId)
      modifies this
      ensures State() == M.RevokeFamily(old(State()), family)
    {
      ForgetRefresh(set h | h in refresh && refresh[h].family == family);
      ForgetOAuth(set h | h in oauth && oauth[h].family == Some(family));
      refreshRows := map h | h in refreshRows && refreshRows[h].family != family :: refreshRows[h];
      oauthRows := map h | h in oauthRows && oauthRows[h].family != Some(family) :: oauthRows[h];
      assert refresh == M.RevokeFamily(old(State()), family).refresh;
      assert oauth == M.RevokeFamily(old(State()), family).oauth;
    }

    method RevokeClient(client: ClientId) returns (dropped: nat)
      modifies this
      ensures (State(), dropped) == M.RevokeClient(old(State()), client)
    {
      var hashes := set h | h in oauth && oauth[h].client == client;
      ForgetOAuth(hashes);
      ForgetRefresh(set h | h in refresh && refresh[h].client == client);
      oauthRows := map h | h in oauthRows && oauthRows[h].client != client :: oauthRows[h];
      refreshRows := map h | h in refreshRows && refreshRows[h].client != client :: refreshRows[h];
      dropped := |hashes|;
      DropOne(old(State()), client);
    }

    method PruneUnknown(known: set<ClientId>) returns (pruned: nat)
      modifies this
      ensures (State(), pruned) == M.PruneUnknown(old(State()), known)
    {
      hide M.DropClients;
      var stale := M.Holders(State()) - known;
      pruned := |stale|;
      ghost var all := stale;
      ghost var was := State();
      DropNobody(was);
      assert all - stale == {};
      while stale != {}
        invariant stale <= all
        invariant State() == M.DropClients(was, all - stale)
      {
        var c :| c in stale;
        ghost var before := all - stale;
        var _ := RevokeClient(c);
        DropTwice(was, before, {c});
        stale := stale - {c};
        assert all - stale == before + {c};
      }
      assert all - stale == all;
    }

    method RevokeOAuth(token: Secret, now: real) returns (found: bool)
      modifies this
      ensures (State(), found) == M.RevokeOAuth(old(State()), Sha256(token), now)
    {
      var h := Sha256(token);
      if h !in oauth {
        return false;
      }
      var at := oauth[h];
      var deadline := now + REVOKE_GRACE_SECONDS;
      if at.expiresAt > deadline {
        oauth := oauth[h := at.(expiresAt := deadline)];
      }
      oauthRows := oauthRows - {h};
      if at.family.Some? {
        var family := at.family.value;
        ForgetRefresh(set g | g in refresh && refresh[g].family == family);
        refreshRows := map g | g in refreshRows && refreshRows[g].family != family :: refreshRows[g];
        assert refresh == M.RevokeOAuth(old(State()), h, now).0.refresh;
      }
      return true;
    }

    method Revoke(token: Secret, now: real) returns (found: bool)
      modifies this
      ensures (State(), found) == M.Revoke(old(State()), token, now)
    {
      if token !in tokens {
        found := RevokeOAuth(token, now);
        return;
      }
      var bearer := tokens[token];
      var deadline := now + REVOKE_GRACE_SECONDS;
      if M.Later(bearer.expiresAt, deadline) {
        tokens := tokens[token := bearer.(expiresAt := At(deadline))];
      }
      if bearer.name.Some? {
        named := named - {token};
      }
      return true;
    }

    method RevokeNamed(prefix: string, client: ClientId, now: real) returns (found: bool)
      modifies this
      ensures (State(), found) == M.RevokeNamed(old(State()), prefix, client, now)
    {
      if |prefix| < 6 {
        return false;
      }
      var matches := M.PrefixMatches(State(), prefix, client);
      if |matches| != 1 {
        return false;
      }
      var t :| t in matches;
      SingletonIs(matches, t);
      found := Revoke(t, now);
    }

    // --- validation ----------------------------------------------------------------

    method Validate(token: Secret, now: real) returns (client: Option<ClientId>)
      modifies this
      ensures (State(), client) == M.Validate(old(State()), token, now)
    {
      if token !in tokens {
        client := ValidateOAuth(token, now);
        return;
      }
      var bearer := tokens[token];
      if Past(bearer.expiresAt, now) {
        if bearer.name.Some? {
          named := named - {token};
        }
        tokens := tokens - {token};
        return None;
      }
      return Some(bearer.client);
    }

    method ValidateOAuth(token: Secret, now: real) returns (client: Option<ClientId>)
      requires token !in tokens
      modifies this
      ensures (State(), client) == M.Validate(old(State()), token, now)
    {
      var h := Sha256(token);
      if h !in oauth {
        return None;
      }
      if now > oauth[h].expiresAt {
        DropOAuth(h);
        return None;
      }
      return Some(oauth[h].client);
    }
  }

  lemma BoundedHaveEnds(file: Db)
    ensures forall h :: h in Legacy.Bounded(file).refresh ==> Legacy.Bounded(file).refresh[h].familyEnd.Some?
  {
    forall h | h in Legacy.Bounded(file).refresh ensures Legacy.Bounded(file).refresh[h].familyEnd.Some? {
      Legacy.BoundedRefresh(file, h);
    }
  }

  // A restart in terms of the bounded tables.
  lemma RestartLoads(file: Db, now: real)
    requires forall h :: h in Legacy.Bounded(file).refresh ==> Legacy.Bounded(file).refresh[h].familyEnd.Some?
    ensures var db := Legacy.Bounded(file);
            var kept := Db(map t | t in db.named && M.Later(db.named[t].expiresAt, now) :: db.named[t],
                           map h | h in db.oauth && db.oauth[h].expiresAt > now :: db.oauth[h],
                           map h | h in db.refresh && db.refresh[h].expiresAt > now :: db.refresh[h]);
            M.Restart(file, now) == Store(kept.named, kept.oauth,
                                          map h | h in db.refresh
                                              && db.refresh[h].expiresAt > now :: M.Loaded(db.refresh[h]), kept)
  {
    hide Legacy.Bounded;
    var db := Legacy.Bounded(file);
    assert M.Restart(file, now).refresh == map h | h in db.refresh
      && db.refresh[h].expiresAt > now :: M.Loaded(db.refresh[h]);
  }

  lemma DropNobody(s: Store)
    ensures M.DropClients(s, {}) == s
  {
    var d := M.DropClients(s, {});
    assert d.oauth == s.oauth && d.refresh == s.refresh && d.db.oauth == s.db.oauth && d.db.refresh == s.db.refresh;
  }

  lemma DropOne(s: Store, c: ClientId)
    ensures M.DropClients(s, {c}) == Store(
              s.tokens,
              s.oauth - (set h | h in s.oauth && s.oauth[h].client == c),
              s.refresh - (set h | h in s.refresh && s.refresh[h].client == c),
              Db(s.db.named,
                 map h | h in s.db.oauth && s.db.oauth[h].client != c :: s.db.oauth[h],
                 map h | h in s.db.refresh && s.db.refresh[h].client != c :: s.db.refresh[h]))
  {
    var d := M.DropClients(s, {c});
    assert d.oauth == s.oauth - (set h | h in s.oauth && s.oauth[h].client == c);
    assert d.refresh == s.refresh - (set h | h in s.refresh && s.refresh[h].client == c);
  }

  lemma DropTwice(s: Store, cs: set<ClientId>, ds: set<ClientId>)
    ensures M.DropClients(M.DropClients(s, cs), ds) == M.DropClients(s, cs + ds)
  {
    var a, b := M.DropClients(M.DropClients(s, cs), ds), M.DropClients(s, cs + ds);
    assert a.oauth == b.oauth && a.refresh == b.refresh && a.db.oauth == b.db.oauth && a.db.refresh == b.db.refresh;
  }

}
