/** The `ClientStore` of `auth.py` next to the clients.json another process may rewrite, and
    the bearer check of `auth_middleware`. */
module ClientStores {
  import opened Prelude
  import opened TokenTypes
  import opened Totp
  import M = TokenModel
  import S = TokenStores
  import H = TokenHistory
  import I = TokenInvariant

  /** What a read of the file gives. Every write has its own signature. */
  datatype Body = Broken | Rows(clients: Roster)
  datatype Disk = Missing | Present(sig: nat, body: Body)

  // Rows without a seed and without an owner predate two-factor sign-in and are dropped.
  predicate PreTwoFactor(c: Client) {
    c.seed == "" && (c.owner.None? || c.owner.value == "")
  }

  function Loaded(rows: Roster): Roster {
    map id | id in rows && !PreTwoFactor(rows[id]) :: rows[id]
  }

  // --- delegation ----------------------------------------------------------------

  // No client is without its owner.
  ghost predicate NoOrphans(roster: Roster) {
    forall id :: id in roster && roster[id].owner.Some? ==> roster[id].owner.value in roster
  }

  // Owners own themselves: delegation is single-hop.
  ghost predicate SingleHop(roster: Roster) {
    forall id :: id in roster && roster[id].owner.Some? && roster[id].owner.value in roster ==>
      roster[roster[id].owner.value].owner.None?
  }

  // Clients delegating to `owner`.
  function Derived(roster: Roster, owner: ClientId): set<ClientId> {
    set id | id in roster && roster[id].owner == Some(owner)
  }

  // `revoke`: the client, and when it is a root the clients it owns.
  function AfterRevoke(roster: Roster, id: ClientId): Roster {
    if id !in roster then roster
    else if roster[id].owner.None? then roster - {id} - Derived(roster, id)
    else roster - {id}
  }

  function AfterCreateDynamic(roster: Roster, owner: ClientId, id: ClientId, source: string): Option<Roster> {
    if owner !in roster then None else Some(roster[id := Client("", Some(owner), Some(source))])
  }

  // Nobody delegates to a client that goes without its own clients going with it: a root's
  // derived clients own nobody, and a derived client owns nobody.
  predicate CutsClean(roster: Roster, id: ClientId)
    requires id in roster
  {
    if roster[id].owner.None? then forall d :: d in Derived(roster, id) ==> Derived(roster, d) == {}
    else Derived(roster, id) <= {id}
  }

  // Revoking a client leaves no client without its owner if and only if the cut is clean.
  lemma RevokeOrphans(roster: Roster, id: ClientId)
    requires NoOrphans(roster) && id in roster
    ensures NoOrphans(AfterRevoke(roster, id)) <==> CutsClean(roster, id)
  {
    var after := AfterRevoke(roster, id);
    if c :| c in after && after[c].owner.Some? && after[c].owner.value !in after {
      assert c in Derived(roster, after[c].owner.value);
    } else if roster[id].owner.None? {
      forall d | d in Derived(roster, id) ensures Derived(roster, d) == {} {
        assert forall c :: c in Derived(roster, d) ==> c in after;
      }
    } else {
      assert forall c :: c in Derived(roster, id) && c != id ==> c in after;
    }
  }

  // Under single-hop delegation every revocation keeps both rules.
  lemma RevokeKeeps(roster: Roster, id: ClientId)
    requires NoOrphans(roster) && SingleHop(roster)
    ensures NoOrphans(AfterRevoke(roster, id)) && SingleHop(AfterRevoke(roster, id))
    ensures forall c :: c in AfterRevoke(roster, id) ==> AfterRevoke(roster, id)[c] == roster[c]
    ensures forall c :: c in roster && c !in AfterRevoke(roster, id) ==> c == id || roster[c].owner == Some(id)
  {
  }

  // Registering a derived client keeps both rules exactly when its owner is itself a root;
  // the code only checks that the owner exists.
  lemma CreateDynamicKeeps(roster: Roster, owner: ClientId, id: ClientId, source: string)
    requires NoOrphans(roster) && SingleHop(roster) && id !in roster && owner in roster
    ensures var after := AfterCreateDynamic(roster, owner, id, source).value;
            NoOrphans(after) && (SingleHop(after) <==> roster[owner].owner.None?)
  {
    var after := AfterCreateDynamic(roster, owner, id, source).value;
    assert after[id].owner == Some(owner) && after[owner] == roster[owner];
  }

  // What that costs: a client registered under a derived client can never pass TOTP, and is
  // left behind without an owner when the root is revoked.
  lemma SecondHop(roster: Roster, root: ClientId, mid: ClientId, leaf: ClientId)
    requires root in roster && mid in roster && leaf in roster && root != mid && mid != leaf && root != leaf
    requires roster[root].owner.None? && roster[mid] == Client("", Some(root), roster[mid].source)
        && roster[leaf].owner == Some(mid)
    ensures SeedHolder(roster, leaf).None?
    ensures leaf in AfterRevoke(roster, root) && !NoOrphans(AfterRevoke(roster, root))
  {
    assert mid !in AfterRevoke(roster, root);
    assert AfterRevoke(roster, root)[leaf].owner == Some(mid);
  }

  // Revoking takes the client, for a root every client that names it as its owner, and nobody else.
  lemma RevokedExactly(roster: Roster, id: ClientId, c: ClientId)
    ensures c in AfterRevoke(roster, id) <==>
              c in roster && c != id && !(id in roster && roster[id].owner == None && roster[c].owner == Some(id))
    ensures SubMap(AfterRevoke(roster, id), roster)
  {
  }

  // Every client can sign in with a seed, its own or that of an owner it names.
  ghost predicate Reloads(roster: Roster) {
    forall id :: id in roster ==> roster[id].seed != "" || roster[id].owner !in {None, Some("")}
  }

  // A reload keeps exactly the rows with a seed or an owner, as they are, so a roster comes back
  // whole exactly when each client has one.
  lemma RowsKept(rows: Roster, id: ClientId)
    ensures id in Loaded(rows) <==> id in rows && (rows[id].seed != "" || rows[id].owner !in {None, Some("")})
    ensures SubMap(Loaded(rows), rows)
    ensures Loaded(rows) == rows <==> Reloads(rows)
  {
    assert Reloads(rows) ==> Loaded(rows).Keys == rows.Keys;
    if Loaded(rows) == rows {
      forall c | c in rows ensures rows[c].seed != "" || rows[c].owner !in {None, Some("")} {
        assert c in Loaded(rows);
      }
    }
  }

  // What the store itself writes always does: a registered client survives every reload.
  lemma WritesReload(roster: Roster, owner: ClientId, id: ClientId, source: string, gone: ClientId)
    requires Reloads(roster)
    ensures Loaded(AfterRevoke(roster, gone)) == AfterRevoke(roster, gone)
    ensures owner in roster && owner != "" ==>
              var after := AfterCreateDynamic(roster, owner, id, source);
              && after == Some(roster[id := Client("", Some(owner), Some(source))])
              && Loaded(after.value) == after.value
  {
    RowsKept(AfterRevoke(roster, gone), id);
    if owner in roster && owner != "" {
      RowsKept(roster[id := Client("", Some(owner), Some(source))], id);
    }
  }

  // --- the store -------------------------------------------------------------------

  class ClientsFile {
    var disk: Disk

    constructor (disk: Disk)
      ensures this.disk == disk
    {
      this.disk := disk;
    }
  }

  class ClientStore {
    const file: ClientsFile
    var roster: Roster
    var diskSig: Option<nat>

    constructor (file: ClientsFile)
      ensures this.file == file && roster == map[] && diskSig == None
    {
      this.file := file;
      roster, diskSig := map[], None;
    }

    // Would `_maybe_reload` read the file.
    predicate Stale() reads this, file {
      file.disk.Present? && Some(file.disk.sig) != diskSig
    }

    // The clients served after a reload check.
    function Current(): Roster reads this, file {
      if Stale() && file.disk.body.Rows? then Loaded(file.disk.body.clients) else roster
    }

    // `_save`: the file then holds the roster, and is not worth reloading.
    method Save(newSig: nat)
      modifies this`diskSig, file
      ensures file.disk == Present(newSig, Rows(roster)) && diskSig == Some(newSig)
    {
      file.disk := Present(newSig, Rows(roster));
      diskSig := Some(newSig);
    }

    // `_maybe_reload`; the result is what `on_clients_removed` is called with, if it is.
    method MaybeReload(newSig: nat) returns (survivors: Option<set<ClientId>>)
      modifies this, file
      ensures roster == old(Current())
      ensures if old(file.disk).Present? && old(diskSig) != Some(old(file.disk).sig) && old(file.disk).body.Rows?
              then roster == Loaded(old(file.disk).body.clients) else roster == old(roster)
      ensures survivors == if old(roster).Keys - roster.Keys != {} then Some(roster.Keys) else None
      ensures !Stale()
      ensures !old(Stale()) || old(file.disk).body.Broken? ==> file.disk == old(file.disk)
    {
      if file.disk.Missing? || Some(file.disk.sig) == diskSig {
        return None;
      }
      if file.disk.body.Broken? {
        diskSig := Some(file.disk.sig);
        return None;
      }
      var before := roster.Keys;
      var rows := file.disk.body.clients;
      roster, diskSig := Loaded(rows), Some(file.disk.sig);
      if roster.Keys != rows.Keys {
        Save(newSig);
      }
      var removed := before - roster.Keys;
      return if removed != {} then Some(roster.Keys) else None;
    }

    method Exists(client: ClientId, newSig: nat) returns (found: bool, survivors: Option<set<ClientId>>)
      modifies this, file
      ensures roster == old(Current()) && !Stale()
      ensures survivors == if old(roster).Keys - roster.Keys != {} then Some(roster.Keys) else None
      ensures found == (client in roster)
    {
      survivors := MaybeReload(newSig);
      found := client in roster;
    }

    method Revoke(id: ClientId, newSig: nat, saveSig: nat) returns (found: bool, survivors: Option<set<ClientId>>)
      modifies this, file
      ensures found == (id in old(Current()))
      ensures roster == AfterRevoke(old(Current()), id)
      ensures survivors == if old(roster).Keys - old(Current()).Keys != {} then Some(old(Current()).Keys) else None
      ensures found ==> file.disk == Present(saveSig, Rows(roster)) && !Stale()
    {
      survivors := MaybeReload(newSig);
      if id !in roster {
        return false, survivors;
      }
      var client := roster[id];
      roster := roster - {id};
      if client.owner.None? {
        var derived := Derived(roster, id);
        ghost var all := derived;
        ghost var rest := roster;
        while derived != {}
          invariant derived <= all && roster == rest - (all - derived)
        {
          var c :| c in derived;
          roster := roster - {c};
          derived := derived - {c};
        }
        assert roster == AfterRevoke(old(Current()), id);
      }
      Save(saveSig);
      found := true;
    }

    // `create_dynamic`; None is the ValueError of an unknown owner.
    method CreateDynamic(owner: ClientId, id: ClientId, source: string, newSig: nat, saveSig: nat)
      returns (ok: bool, survivors: Option<set<ClientId>>)
      modifies this, file
      ensures ok == (owner in old(Current()))
      ensures survivors == if old(roster).Keys - old(Current()).Keys != {} then Some(old(Current()).Keys) else None
      ensures roster == if ok then AfterCreateDynamic(old(Current()), owner, id, source).value else old(Current())
      ensures ok ==> file.disk == Present(saveSig, Rows(roster)) && !Stale()
    {
      survivors := MaybeReload(newSig);
      if owner !in roster {
        return false, survivors;
      }
      roster := roster[id := Client("", Some(owner), Some(source))];
      Save(saveSig);
      ok := true;
    }
  }

  // --- client removal and the tokens ---------------------------------------------------

  // The OAuth material of `s` belongs to `known` clients only, and `s` has all `before` had
  // of them.
  ghost predicate OnlyOf(before: Store, s: Store, known: set<ClientId>) {
    && (forall h :: h in s.oauth <==> h in before.oauth && before.oauth[h].client in known)
    && (forall h :: h in s.refresh <==> h in before.refresh && before.refresh[h].client in known)
    && SubMap(s.oauth, before.oauth) && SubMap(s.refresh, before.refresh) && s.tokens == before.tokens
  }

  // Pruning keeps every OAuth token of a known client and none of any other.
  lemma PruneOnlyUnknown(s: Store, known: set<ClientId>)
    ensures OnlyOf(s, M.PruneUnknown(s, known).0, known)
  {
    hide M.Holders;
    HoldersCover(s);
  }

  lemma HoldersCover(s: Store)
    ensures forall h :: h in s.oauth ==> s.oauth[h].client in M.Holders(s)
    ensures forall h :: h in s.refresh ==> s.refresh[h].client in M.Holders(s)
  {
  }

  // ... and so does the file, as long as it holds rows of the clients memory knows of.
  lemma PruneFile(s: Store, known: set<ClientId>)
    requires forall h :: h in s.db.oauth ==> s.db.oauth[h].client in M.Holders(s)
    requires forall h :: h in s.db.refresh ==> s.db.refresh[h].client in M.Holders(s)
    ensures var db := M.PruneUnknown(s, known).0.db;
            && db.oauth == (map h | h in s.db.oauth && s.db.oauth[h].client in known :: s.db.oauth[h])
            && db.refresh == (map h | h in s.db.refresh && s.db.refresh[h].client in known :: s.db.refresh[h])
            && db.named == s.db.named
  {
    hide M.Holders;
    var db := M.PruneUnknown(s, known).0.db;
    assert db.oauth == (map h | h in s.db.oauth && s.db.oauth[h].client in known :: s.db.oauth[h]);
    assert db.refresh == (map h | h in s.db.refresh && s.db.refresh[h].client in known :: s.db.refresh[h]);
  }

  // At every point of every run, so: pruning leaves in the file exactly the rows of known clients.
  lemma PruneFileInRuns(start: real, cfg: Config, ops: seq<H.Op>, known: set<ClientId>)
    requires H.LegalRun(H.Init(start), cfg, ops)
    ensures var s := H.Run(H.Init(start), cfg, ops).store;
            var db := M.PruneUnknown(s, known).0.db;
            && db.oauth == (map h | h in s.db.oauth && s.db.oauth[h].client in known :: s.db.oauth[h])
            && db.refresh == (map h | h in s.db.refresh && s.db.refresh[h].client in known :: s.db.refresh[h])
            && db.named == s.db.named
  {
    var w := H.Run(H.Init(start), cfg, ops);
    I.InitInv(start);
    I.RunInv(H.Init(start), cfg, ops);
    hide H.Run, H.LegalRun, I.Inv;
    I.FileMirrors(w);
    MirrorsCover(w);
    PruneFile(w.store, known);
  }

  lemma MirrorsCover(w: H.World)
    requires I.Mirrored(w)
    ensures forall h :: h in w.store.db.oauth ==> w.store.db.oauth[h].client in M.Holders(w.store)
    ensures forall h :: h in w.store.db.refresh ==> w.store.db.refresh[h].client in M.Holders(w.store)
  {
    HoldersCover(w.store);
    hide M.Holders;
  }

  // The token store after a reload check: pruned when a client is gone.
  function Reloaded(s: Store, before: Roster, after: Roster): Store {
    if before.Keys - after.Keys != {} then M.PruneUnknown(s, after.Keys).0 else s
  }

  // `create_dynamic` with the callback its reload check may call.
  method Register(tokens: S.TokenStore, clients: ClientStore, owner: ClientId, id: ClientId, source: string,
                  newSig: nat, saveSig: nat)
    returns (ok: bool)
    modifies tokens, clients, clients.file
    ensures ok == (owner in old(clients.Current()))
    ensures clients.roster == if ok then AfterCreateDynamic(old(clients.Current()), owner, id, source).value
                              else old(clients.Current())
    ensures ok ==> !clients.Stale()
    ensures tokens.State() == Reloaded(old(tokens.State()), old(clients.roster), old(clients.Current()))
  {
    hide M.PruneUnknown;
    var survivors;
    ok, survivors := clients.CreateDynamic(owner, id, source, newSig, saveSig);
    if survivors.Some? {
      var _ := tokens.PruneUnknown(survivors.value);
    }
  }

  // The bearer check of `auth_middleware`, with the callback that prunes the tokens of
  // clients that vanished from the file.
  method AuthMiddleware(tokens: S.TokenStore, clients: ClientStore, bearer: Secret, now: real, newSig: nat)
    returns (client: Option<ClientId>)
    modifies tokens, clients, clients.file
    ensures client.Some? ==>
              && client.value in clients.roster
              && M.Accepts(old(tokens.State()), bearer, now) == client
              && clients.roster == old(clients.Current())
    ensures client.None? ==> M.Accepts(old(tokens.State()), bearer, now).None? ||
                             M.Accepts(old(tokens.State()), bearer, now).value !in old(clients.Current())
    ensures M.Accepts(old(tokens.State()), bearer, now).Some? ==>
              tokens.State() == Reloaded(old(tokens.State()), old(clients.roster), clients.roster)
  {
    hide M.PruneUnknown;
    client := tokens.Validate(bearer, now);
    if client.Some? {
      var found, survivors := clients.Exists(client.value, newSig);
      if survivors.Some? {
        var _ := tokens.PruneUnknown(survivors.value);
      }
      if !found {
        client := None;
      }
    }
  }

  // `connectors_revoke`: a dashboard session revokes a client it owns, tokens included, and
  // nothing else.
  method ConnectorsRevoke(tokens: S.TokenStore, clients: ClientStore, session: ClientId, id: ClientId, newSig: nat,
                          reloadSig: nat, saveSig: nat)
    modifies tokens, clients, clients.file
    ensures var before := old(clients.Current());
            var store := Reloaded(old(tokens.State()), old(clients.roster), before);
            if id in before && before[id].owner == Some(session) then
              && clients.roster == before - {id} && clients.file.disk == Present(saveSig, Rows(clients.roster))
              && tokens.State() == M.RevokeClient(store, id).0
            else
              clients.roster == before && tokens.State() == store
  {
    hide M.PruneUnknown, M.RevokeClient;
    var survivors := clients.MaybeReload(newSig);
    if survivors.Some? {
      var _ := tokens.PruneUnknown(survivors.value);
    }
    if id in clients.roster && clients.roster[id].owner == Some(session) {
      var _, _ := clients.Revoke(id, reloadSig, saveSig);
      var _ := tokens.RevokeClient(id);
    }
  }
}
