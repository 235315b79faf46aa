/** Bootstrap slugs (`dyn_reg.py`) and the registration handler that consumes them
    (`dcr_register`), for any interleaving of requests, deletions and revocations. */
module DynReg {
  import opened Prelude
  import opened TokenTypes
  import opened Totp
  import C = ClientStores
  import S = TokenStores

  const SLUG_TTL_SECONDS := 900.0

  datatype Slug = Slug(owner: ClientId, expiresAt: real, usedAt: Option<real>, result: Option<ClientId>)

  type Table = map<string, Slug>

  function Minted(t: Table, slug: string, owner: ClientId, now: real): Table {
    t[slug := Slug(owner, now + SLUG_TTL_SECONDS, None, None)]
  }

  predicate Deletable(t: Table, slug: string, owner: ClientId) {
    slug in t && t[slug].owner == owner && t[slug].usedAt.None?
  }

  function PrunedSlugs(t: Table, now: real): Table {
    map s | s in t && !(t[s].usedAt.None? && t[s].expiresAt < now) :: t[s]
  }

  // The WHERE clause of the claim.
  predicate Claimable(t: Table, slug: string, now: real) {
    slug in t && t[slug].usedAt.None? && t[slug].expiresAt > now
  }

  function Claimed(t: Table, slug: string, client: ClientId, now: real): Table
    requires slug in t
  {
    t[slug := t[slug].(usedAt := Some(now), result := Some(client))]
  }

  class DynamicSlugStore {
    var table: Table

    constructor ()
      ensures table == map[]
    {
      table := map[];
    }

    method Mint(slug: string, owner: ClientId, now: real)
      modifies this
      ensures table == Minted(old(table), slug, owner, now)
      ensures table == old(table)[slug := Slug(owner, now + 900.0, None, None)]
    {
      table := table[slug := Slug(owner, now + SLUG_TTL_SECONDS, None, None)];
    }

    method DeleteUnused(slug: string, owner: ClientId) returns (removed: bool)
      modifies this
      ensures removed == Deletable(old(table), slug, owner)
      ensures removed <==> slug in old(table) && old(table)[slug].owner == owner && old(table)[slug].usedAt == None
      ensures table == if removed then old(table) - {slug} else old(table)
    {
      removed := slug in table && table[slug].owner == owner && table[slug].usedAt.None?;
      if removed {
        table := table - {slug};
      }
    }

    method PruneExpired(now: real) returns (removed: nat)
      modifies this
      ensures table == PrunedSlugs(old(table), now)
      ensures SubMap(table, old(table))
      ensures forall s :: s in old(table) ==>
                (s in table <==> old(table)[s].usedAt.Some? || now <= old(table)[s].expiresAt)
      ensures removed == |old(table).Keys - table.Keys|
    {
      ghost var before := table;
      var kept := map s | s in table && !(table[s].usedAt.None? && table[s].expiresAt < now) :: table[s];
      removed := |table.Keys - kept.Keys|;
      table := kept;
    }

    // False is SlugAlreadyConsumed, with the transaction rolled back.
    method Consume(slug: string, client: ClientId, now: real) returns (won: bool)
      modifies this
      ensures won <==> slug in old(table) && old(table)[slug].usedAt == None && now < old(table)[slug].expiresAt
      ensures table == if won then Claimed(old(table), slug, client, now) else old(table)
      ensures won ==>
                table == old(table)[slug := Slug(old(table)[slug].owner, old(table)[slug].expiresAt, Some(now),
                                                 Some(client))]
    {
      won := Claimable(table, slug, now);
      if won {
        table := table[slug := table[slug].(usedAt := Some(now), result := Some(client))];
      }
    }
  }

  // `dcr_register` undisturbed: it claims the slug for the client it made, or leaves both
  // stores as they were. None is every error answer.
  method DcrRegister(tokens: S.TokenStore, slugs: DynamicSlugStore, clients: C.ClientStore, slug: string, id: ClientId,
                     now: real, sig0: nat, sig1: nat, sig2: nat, sig3: nat)
    returns (client: Option<ClientId>)
    requires id !in clients.Current()
    modifies tokens, slugs, clients, clients.file
    ensures var known := slug in old(slugs.table) && old(slugs.table)[slug].owner in old(clients.Current());
            && (client == if known && old(slugs.table)[slug].usedAt == None && now < old(slugs.table)[slug].expiresAt
                          then Some(id) else None)
            && (client.Some? ==>
                  && slugs.table == Claimed(old(slugs.table), slug, id, now)
                  && clients.roster == old(clients.Current())[id := Client("", Some(old(slugs.table)[slug].owner),
                          Some(Source(slug)))])
            && (client.None? ==>
                  && slugs.table == old(slugs.table)
                  && clients.roster == if slug in old(slugs.table) then old(clients.Current()) else old(clients.roster))
            && tokens.State() == if slug in old(slugs.table)
                                 then C.Reloaded(old(tokens.State()), old(clients.roster), old(clients.Current()))
                                 else old(tokens.State())
  {
    if slug !in slugs.table {
      return None;
    }
    var row := slugs.table[slug];
    ghost var before := clients.Current();
    hide C.Reloaded;
    var ok := C.Register(tokens, clients, row.owner, id, Source(slug), sig0, sig1);
    if !ok {
      return None;
    }
    var won := slugs.Consume(slug, id, now);
    if !won {
      var _, _ := clients.Revoke(id, sig2, sig3);
      assert clients.roster == before;
      return None;
    }
    return Some(id);
  }

  // --- requests --------------------------------------------------------------------

  /** Where a registration request stands. `claimed` tells a loser whose claim was committed, but
      which did not come to know it. */
  datatype Phase =
    | Loaded(slug: string, row: Slug)
    | Created(slug: string, client: ClientId)
    | Lost(slug: string, client: ClientId, claimed: bool)
    | Won(slug: string, client: ClientId)
    | Refused(slug: string, client: ClientId, claimed: bool)
    | NotFound

  // The database raises before the claim is committed, or when the claimed row is read back.
  datatype Fault = NoFault | BeforeCommit | AfterCommit

  datatype World = World(
    table: Table,
    roster: Roster,
    requests: map<nat, Phase>,
    minters: map<string, ClientId>,  // slugs ever minted, and for whom
    maker: map<ClientId, nat>,    // the request each registered client was made for
    winner: map<string, nat>,     // the request that claimed each slug
    cut: set<ClientId>)           // clients an operator revoked

  datatype Op =
    | Mint(slug: string, owner: ClientId, now: real)
    | Delete(slug: string, owner: ClientId)
    | Prune(now: real)
    | Load(id: nat, slug: string)
    | Create(id: nat, client: ClientId)
    | Consume(id: nat, now: real, fault: Fault)
    | Rollback(id: nat)
    | Operator(roster: Roster)                      // clients created or revoked elsewhere

  function Source(slug: string): string {
    "chatgpt:" + slug
  }

  ghost predicate Untagged(c: Client) {
    forall slug :: c.source != Some(Source(slug))
  }

  ghost predicate Legal(w: World, op: Op) {
    match op
    case Mint(slug, _, _) => slug !in w.minters
    case Load(id, _) => id !in w.requests
    case Create(id, client) => client !in w.maker && client !in w.roster
    // Elsewhere, clients come and go but none is given a slug's tag, an id handed out here,
    // or another owner.
    case Operator(roster) =>
      forall c :: c in roster ==>
        if c in w.roster then roster[c] == w.roster[c]
        else c !in w.maker && Untagged(roster[c])
    case _ => true
  }

  // What a request makes of its committed claim.
  function Claim(p: Phase, fault: Fault): Phase
    requires p.Created?
  {
    if fault.AfterCommit? then Lost(p.slug, p.client, true) else Won(p.slug, p.client)
  }

  function Step(w: World, op: Op): World {
    match op
    case Mint(slug, owner, now) => w.(table := Minted(w.table, slug, owner, now), minters := w.minters[slug := owner])
    case Delete(slug, owner) => if Deletable(w.table, slug, owner) then w.(table := w.table - {slug}) else w
    case Prune(now) => w.(table := PrunedSlugs(w.table, now))
    case Load(id, slug) =>
      w.(requests := w.requests[id := if slug in w.table then Loaded(slug, w.table[slug]) else NotFound])
    case Create(id, client) =>
      if id !in w.requests || !w.requests[id].Loaded? then w
      else
        var p := w.requests[id];
        var after := C.AfterCreateDynamic(w.roster, p.row.owner, client, Source(p.slug));
        if after.None? then w.(requests := w.requests[id := NotFound])
        else w.(roster := after.value, maker := w.maker[client := id],
                requests := w.requests[id := Created(p.slug, client)])
    case Consume(id, now, fault) =>
      if id !in w.requests || !w.requests[id].Created? then w
      else
        var p := w.requests[id];
        if fault.BeforeCommit? || !Claimable(w.table, p.slug, now)
        then w.(requests := w.requests[id := Lost(p.slug, p.client, false)])
        else w.(table := Claimed(w.table, p.slug, p.client, now),
                requests := w.requests[id := Claim(p, fault)],
                winner := w.winner[p.slug := id])
    case Rollback(id) =>
      if id !in w.requests || !w.requests[id].Lost? then w
      else
        var p := w.requests[id];
        w.(roster := C.AfterRevoke(w.roster, p.client),
           requests := w.requests[id := Refused(p.slug, p.client, p.claimed)])
    case Operator(roster) => w.(roster := roster, cut := w.cut + (w.roster.Keys - roster.Keys))
  }

  ghost predicate LegalRun(w: World, ops: seq<Op>)
    decreases |ops|
  {
    ops == [] || (Legal(w, ops[0]) && LegalRun(Step(w, ops[0]), ops[1..]))
  }

  function Run(w: World, ops: seq<Op>): World
    decreases |ops|
  {
    if ops == [] then w else Run(Step(w, ops[0]), ops[1..])
  }

  // --- the invariant ------------------------------------------------------------------

  predicate Holds(p: Phase) {
    p.Created? || p.Lost? || p.Won? || p.Refused?
  }

  // The claim of its slug is this request's.
  predicate Claims(p: Phase) {
    p.Won? || ((p.Lost? || p.Refused?) && p.claimed)
  }

  // Every request that got a client got its own.
  ghost predicate OwnClients(requests: map<nat, Phase>, maker: map<ClientId, nat>) {
    && (forall i :: i in requests && Holds(requests[i]) ==>
        requests[i].client in maker && maker[requests[i].client] == i)
    && (forall c :: c in maker ==> maker[c] in requests && Holds(requests[maker[c]]) && requests[maker[c]].client == c)
  }

  // The claimed slugs and the requests that claimed them are on each other's record.
  ghost predicate Recorded(requests: map<nat, Phase>, table: Table, winner: map<string, nat>) {
    && (forall i :: i in requests && Claims(requests[i]) ==>
          var s := requests[i].slug;
          && s in table && table[s].usedAt.Some? && table[s].result == Some(requests[i].client) && s in winner
            && winner[s] == i)
    && (forall s :: s in table && table[s].usedAt.Some? ==>
          && s in winner && winner[s] in requests && Claims(requests[winner[s]])
          && requests[winner[s]].slug == s && table[s].result == Some(requests[winner[s]].client))
  }

  // A registered client still in the store carries its slug, is owned by whoever minted it, and
  // belongs to a request that was not refused; any other client carries no slug.
  ghost predicate Tagged(roster: Roster, requests: map<nat, Phase>, maker: map<ClientId, nat>,
                         minters: map<string, ClientId>)
  {
    forall c :: c in roster ==>
      if c in maker then
        && maker[c] in requests && Holds(requests[maker[c]]) && !requests[maker[c]].Refused?
        && roster[c].source == Some(Source(requests[maker[c]].slug))
        && requests[maker[c]].slug in minters && roster[c].owner == Some(minters[requests[maker[c]].slug])
      else Untagged(roster[c])
  }

  // A registered client that is gone was refused or revoked by an operator.
  ghost predicate Accounted(roster: Roster, requests: map<nat, Phase>, maker: map<ClientId, nat>, cut: set<ClientId>) {
    forall c :: c in maker && c !in roster ==> c in cut || (maker[c] in requests && requests[maker[c]].Refused?)
  }

  ghost predicate Inv(w: World) {
    && OwnClients(w.requests, w.maker)
    && Recorded(w.requests, w.table, w.winner)
    && Tagged(w.roster, w.requests, w.maker, w.minters)
    && Accounted(w.roster, w.requests, w.maker, w.cut)
    && (forall s :: s in w.table ==> s in w.minters && w.table[s].owner == w.minters[s])
    && (forall i :: i in w.requests && w.requests[i].Loaded? ==>
          w.requests[i].slug in w.minters && w.requests[i].row.owner == w.minters[w.requests[i].slug])
  }

  lemma TaggedMint(roster: Roster, requests: map<nat, Phase>, maker: map<ClientId, nat>, minters: map<string, ClientId>,
                   slug: string, owner: ClientId)
    requires Tagged(roster, requests, maker, minters) && slug !in minters
    ensures Tagged(roster, requests, maker, minters[slug := owner])
  {
    hide Untagged;
  }

  lemma KeepMint(w: World, op: Op)
    requires Inv(w) && Legal(w, op) && op.Mint?
    ensures Inv(Step(w, op))
  {
    hide OwnClients, Tagged, Accounted;
    TaggedMint(w.roster, w.requests, w.maker, w.minters, op.slug, op.owner);
  }

  // Only unclaimed slugs are dropped.
  lemma RecordedDrop(requests: map<nat, Phase>, table: Table, left: Table, winner: map<string, nat>)
    requires Recorded(requests, table, winner) && SubMap(left, table)
    requires forall s :: s in table && table[s].usedAt.Some? ==> s in left
    ensures Recorded(requests, left, winner)
  {
  }

  lemma KeepDrop(w: World, op: Op)
    requires Inv(w) && Legal(w, op) && (op.Delete? || op.Prune?)
    ensures Inv(Step(w, op))
  {
    hide OwnClients, Tagged, Accounted, Recorded;
    RecordedDrop(w.requests, w.table, Step(w, op).table, w.winner);
  }

  lemma KeepLoad(w: World, op: Op)
    requires Inv(w) && Legal(w, op) && op.Load?
    ensures Inv(Step(w, op))
  {
    hide Untagged;
  }

  lemma KeepOperator(w: World, op: Op)
    requires Inv(w) && Legal(w, op) && op.Operator?
    ensures Inv(Step(w, op))
  {
    hide OwnClients, Recorded;
  }

  // A request moves on and keeps its claim, or goes on without one.
  lemma RecordedMove(requests: map<nat, Phase>, table: Table, winner: map<string, nat>, id: nat, p: Phase)
    requires Recorded(requests, table, winner)
    requires if id in requests && Claims(requests[id])
             then Claims(p) && p.slug == requests[id].slug && p.client == requests[id].client else !Claims(p)
    ensures Recorded(requests[id := p], table, winner)
  {
  }

  lemma RecordedWin(requests: map<nat, Phase>, table: Table, winner: map<string, nat>, id: nat, slug: string,
                    client: ClientId, now: real, p: Phase)
    requires Recorded(requests, table, winner) && id in requests && !Claims(requests[id]) && Claimable(table, slug, now)
    requires Claims(p) && p.slug == slug && p.client == client
    ensures Recorded(requests[id := p], Claimed(table, slug, client, now), winner[slug := id])
  {
  }

  lemma OwnMove(requests: map<nat, Phase>, maker: map<ClientId, nat>, id: nat, p: Phase)
    requires OwnClients(requests, maker)
    requires if id in requests && Holds(requests[id]) then Holds(p) && p.client == requests[id].client else !Holds(p)
    ensures OwnClients(requests[id := p], maker)
  {
  }

  lemma OwnCreate(requests: map<nat, Phase>, maker: map<ClientId, nat>, id: nat, slug: string, client: ClientId)
    requires OwnClients(requests, maker) && client !in maker && (id in requests ==> !Holds(requests[id]))
    ensures OwnClients(requests[id := Created(slug, client)], maker[client := id])
  {
  }

  // The request moves on with the same slug and client, or never had a client.
  lemma TaggedMove(roster: Roster, requests: map<nat, Phase>, maker: map<ClientId, nat>,
                   minters: map<string, ClientId>, cut: set<ClientId>, id: nat, p: Phase)
    requires OwnClients(requests, maker) && Tagged(roster, requests, maker, minters)
        && Accounted(roster, requests, maker, cut)
    requires id in requests && !requests[id].Refused?
    requires Holds(requests[id]) ==> Holds(p) && !p.Refused? && p.slug == requests[id].slug
    ensures Tagged(roster, requests[id := p], maker, minters) && Accounted(roster, requests[id := p], maker, cut)
  {
    hide Untagged;
  }

  lemma TaggedCreate(roster: Roster, requests: map<nat, Phase>, maker: map<ClientId, nat>,
                     minters: map<string, ClientId>, cut: set<ClientId>, id: nat, slug: string, client: ClientId,
                         c: Client)
    requires OwnClients(requests, maker) && Tagged(roster, requests, maker, minters)
        && Accounted(roster, requests, maker, cut)
    requires id in requests && !Holds(requests[id]) && client !in roster && client !in maker
    requires c.source == Some(Source(slug)) && slug in minters && c.owner == Some(minters[slug])
    ensures Tagged(roster[client := c], requests[id := Created(slug, client)], maker[client := id], minters)
    ensures Accounted(roster[client := c], requests[id := Created(slug, client)], maker[client := id], cut)
  {
    hide Untagged;
  }

  lemma KeepCreate(w: World, op: Op)
    requires Inv(w) && Legal(w, op) && op.Create?
    ensures Inv(Step(w, op))
  {
    hide OwnClients, Recorded, Tagged, Accounted, Source;
    if op.id in w.requests && w.requests[op.id].Loaded? {
      var p := w.requests[op.id];
      if p.row.owner in w.roster {
        OwnCreate(w.requests, w.maker, op.id, p.slug, op.client);
        RecordedMove(w.requests, w.table, w.winner, op.id, Created(p.slug, op.client));
        TaggedCreate(w.roster, w.requests, w.maker, w.minters, w.cut, op.id, p.slug, op.client,
                     Client("", Some(p.row.owner), Some(Source(p.slug))));
      } else {
        OwnMove(w.requests, w.maker, op.id, NotFound);
        RecordedMove(w.requests, w.table, w.winner, op.id, NotFound);
        TaggedMove(w.roster, w.requests, w.maker, w.minters, w.cut, op.id, NotFound);
      }
    }
  }

  lemma KeepConsume(w: World, op: Op)
    requires Inv(w) && Legal(w, op) && op.Consume?
    ensures Inv(Step(w, op))
  {
    hide OwnClients, Recorded, Tagged, Accounted;
    if op.id in w.requests && w.requests[op.id].Created? {
      var p := w.requests[op.id];
      var won := !op.fault.BeforeCommit? && Claimable(w.table, p.slug, op.now);
      var next := if won then Claim(p, op.fault) else Lost(p.slug, p.client, false);
      OwnMove(w.requests, w.maker, op.id, next);
      TaggedMove(w.roster, w.requests, w.maker, w.minters, w.cut, op.id, next);
      if won {
        RecordedWin(w.requests, w.table, w.winner, op.id, p.slug, p.client, op.now, next);
      } else {
        RecordedMove(w.requests, w.table, w.winner, op.id, next);
      }
    }
  }

  // The client of a request that is refused is revoked, and nothing else.
  lemma TaggedRefuse(roster: Roster, requests: map<nat, Phase>, maker: map<ClientId, nat>,
                     minters: map<string, ClientId>,
                     cut: set<ClientId>, id: nat, p: Phase)
    requires OwnClients(requests, maker) && Tagged(roster, requests, maker, minters)
    requires Accounted(roster, requests, maker, cut)
    requires id in requests && Holds(requests[id]) && p.Refused? && p.client == requests[id].client
    ensures Tagged(C.AfterRevoke(roster, p.client), requests[id := p], maker, minters)
    ensures Accounted(C.AfterRevoke(roster, p.client), requests[id := p], maker, cut)
  {
    hide Untagged, Source;
  }

  lemma KeepRollback(w: World, op: Op)
    requires Inv(w) && Legal(w, op) && op.Rollback?
    ensures Inv(Step(w, op))
  {
    hide OwnClients, Recorded, Tagged, Accounted, C.AfterRevoke;
    if op.id in w.requests && w.requests[op.id].Lost? {
      var p := w.requests[op.id];
      var next := Refused(p.slug, p.client, p.claimed);
      OwnMove(w.requests, w.maker, op.id, next);
      RecordedMove(w.requests, w.table, w.winner, op.id, next);
      TaggedRefuse(w.roster, w.requests, w.maker, w.minters, w.cut, op.id, next);
    }
  }

  lemma StepInv(w: World, op: Op)
    requires Inv(w) && Legal(w, op)
    ensures Inv(Step(w, op))
  {
    hide Inv;
    match op
    case Create(_, _) => KeepCreate(w, op);
    case Consume(_, _, _) => KeepConsume(w, op);
    case Rollback(_) => KeepRollback(w, op);
    case Load(_, _) => KeepLoad(w, op);
    case Operator(_) => KeepOperator(w, op);
    case Mint(_, _, _) => KeepMint(w, op);
    case _ => KeepDrop(w, op);
  }

  lemma {:induction false} RunInv(w: World, ops: seq<Op>)
    requires Inv(w) && LegalRun(w, ops)
    ensures Inv(Run(w, ops))
    decreases |ops|
  {
    hide Inv;
    if ops != [] {
      StepInv(w, ops[0]);
      RunInv(Step(w, ops[0]), ops[1..]);
    }
  }

  // --- the theorems ---------------------------------------------------------------------

  lemma ClaimKept(w: World, op: Op, slug: string)
    requires Inv(w) && Legal(w, op) && slug in w.table && w.table[slug].usedAt.Some?
    ensures slug in Step(w, op).table && Step(w, op).table[slug] == w.table[slug]
  {
    hide OwnClients, Recorded, Tagged, Accounted;
  }

  // A claimed slug is never claimed again, deleted or pruned: its row never changes.
  lemma {:induction false} ClaimIsFinal(w: World, ops: seq<Op>, slug: string)
    requires Inv(w) && LegalRun(w, ops) && slug in w.table && w.table[slug].usedAt.Some?
    ensures slug in Run(w, ops).table && Run(w, ops).table[slug] == w.table[slug]
    decreases |ops|
  {
    hide Inv, Step, Legal;
    if ops != [] {
      StepInv(w, ops[0]);
      ClaimKept(w, ops[0], slug);
      ClaimIsFinal(Step(w, ops[0]), ops[1..], slug);
    }
  }

  // The tagged clients of `slug`.
  ghost function ClientsOf(roster: Roster, slug: string): set<ClientId> {
    set c | c in roster && roster[c].source == Some(Source(slug))
  }

  lemma SourceInjective(a: string, b: string)
    requires Source(a) == Source(b)
    ensures a == b
  {
    assert Source(a)[8..] == a && Source(b)[8..] == b;
  }

  // When a request's claim is committed, and what it then leaves, with nothing left to definitions.
  lemma ClaimIff(w: World, id: nat, now: real, fault: Fault)
    requires Inv(w) && id in w.requests && w.requests[id].Created?
    ensures var w' := Step(w, Consume(id, now, fault));
            var slug, client := w.requests[id].slug, w.requests[id].client;
            && id in w'.requests
            && (Claims(w'.requests[id]) <==>
                  fault != BeforeCommit && slug in w.table && w.table[slug].usedAt == None
                  && now < w.table[slug].expiresAt)
            && (w'.requests[id] == Won(slug, client) <==> Claims(w'.requests[id]) && fault == NoFault)
            && w'.table == (if Claims(w'.requests[id])
                            then w.table[slug := w.table[slug].(usedAt := Some(now), result := Some(client))]
                            else w.table)
            && w'.roster == w.roster
  {
  }

  // What a slug minted for `owner` at `t` can become before it is gone.
  ghost predicate MintedFor(w: World, slug: string, owner: ClientId, t: real) {
    && slug in w.minters
    && (slug in w.table ==>
          && w.table[slug].owner == owner && w.table[slug].expiresAt == t + 900.0
          && (w.table[slug].usedAt.Some? ==> w.table[slug].usedAt.value < t + 900.0))
  }

  // Nobody deletes the slug on its owner's behalf, and no pruning comes after it expires.
  ghost predicate Spared(ops: seq<Op>, slug: string, owner: ClientId, t: real) {
    forall i :: 0 <= i < |ops| ==> ops[i] != Delete(slug, owner) && (ops[i].Prune? ==> ops[i].now <= t + 900.0)
  }

  lemma MintedForStep(w: World, op: Op, slug: string, owner: ClientId, t: real)
    requires MintedFor(w, slug, owner, t) && Legal(w, op)
    ensures MintedFor(Step(w, op), slug, owner, t)
    ensures slug in w.table && op != Delete(slug, owner) && (op.Prune? ==> op.now <= t + 900.0) ==>
              slug in Step(w, op).table
  {
    hide Source, C.AfterCreateDynamic, C.AfterRevoke, Untagged;
  }

  lemma {:induction false} MintedForRun(w: World, ops: seq<Op>, slug: string, owner: ClientId, t: real)
    requires MintedFor(w, slug, owner, t) && LegalRun(w, ops)
    ensures MintedFor(Run(w, ops), slug, owner, t)
    ensures slug in w.table && Spared(ops, slug, owner, t) ==> slug in Run(w, ops).table
    decreases |ops|
  {
    if ops != [] {
      MintedForStep(w, ops[0], slug, owner, t);
      assert Spared(ops, slug, owner, t) ==> Spared(ops[1..], slug, owner, t);
      hide MintedFor, Step, Legal, Spared;
      MintedForRun(Step(w, ops[0]), ops[1..], slug, owner, t);
    }
  }

  // Whatever happens after a slug is minted, it is claimed less than 900 s later or never ...
  lemma ClaimedInTime(w: World, slug: string, owner: ClientId, t: real, ops: seq<Op>)
    requires Inv(w) && LegalRun(w, [Mint(slug, owner, t)] + ops)
    ensures var w' := Run(w, [Mint(slug, owner, t)] + ops);
            && (slug in w'.table && w'.table[slug].usedAt.Some? ==> w'.table[slug].usedAt.value < t + 900.0)
            && forall i :: i in w'.requests && Claims(w'.requests[i]) && w'.requests[i].slug == slug ==>
                 slug in w'.table && w'.table[slug].usedAt.Some? && w'.table[slug].result == Some(w'.requests[i].client)
  {
    var all := [Mint(slug, owner, t)] + ops;
    assert all[1..] == ops;
    MintedForRun(Step(w, all[0]), ops, slug, owner, t);
    RunInv(w, all);
    hide Step, OwnClients, Tagged, Accounted;
  }

  // ... and a request that comes to claim it has its claim committed exactly when nobody claimed it
  // first and the 900 s are not over, unless its owner deleted it or it was pruned after that.
  lemma ClaimableUntil(w: World, slug: string, owner: ClientId, t: real, ops: seq<Op>, id: nat, now: real)
    requires Inv(w) && LegalRun(w, [Mint(slug, owner, t)] + ops) && Spared(ops, slug, owner, t)
    requires var w' := Run(w, [Mint(slug, owner, t)] + ops);
             id in w'.requests && w'.requests[id].Created? && w'.requests[id].slug == slug
    ensures var w' := Run(w, [Mint(slug, owner, t)] + ops);
            Step(w', Consume(id, now, NoFault)).requests[id] == Won(slug, w'.requests[id].client) <==>
              now < t + 900.0 && forall i :: i in w'.requests && Claims(w'.requests[i]) ==> w'.requests[i].slug != slug
  {
    var all := [Mint(slug, owner, t)] + ops;
    assert all[1..] == ops;
    MintedForRun(Step(w, all[0]), ops, slug, owner, t);
    RunInv(w, all);
    var w' := Run(w, all);
    ClaimIff(w', id, now, NoFault);
    hide Step, Run, LegalRun, OwnClients, Tagged, Accounted;
    if w'.table[slug].usedAt.Some? {
      assert Claims(w'.requests[w'.winner[slug]]);
    }
  }

  // At most one registration of a slug claims it, whether or not it comes to know, and the slug's
  // record names its client.
  lemma OneWinner(w: World, ops: seq<Op>, i: nat, j: nat)
    requires Inv(w) && LegalRun(w, ops)
    requires var r := Run(w, ops).requests; i in r && j in r && Claims(r[i]) && Claims(r[j]) && r[i].slug == r[j].slug
    ensures i == j
    ensures var w' := Run(w, ops);
            var won := w'.requests[i];
            won.slug in w'.table && w'.table[won.slug].result == Some(won.client)
  {
    RunInv(w, ops);
  }

  lemma {:induction false} MintersFixed(w: World, ops: seq<Op>)
    requires LegalRun(w, ops)
    ensures SubMap(w.minters, Run(w, ops).minters)
    decreases |ops|
  {
    if ops != [] {
      MintersFixed(Step(w, ops[0]), ops[1..]);
    }
  }

  // The request that claimed `slug` took its client back.
  ghost predicate ReadBackFailed(w: World, slug: string) {
    slug in w.winner && w.winner[slug] in w.requests && w.requests[w.winner[slug]].Refused?
    && w.requests[w.winner[slug]].claimed
  }

  // Once every request has finished, the only client left from a slug is the recorded one,
  // which is there, owned by whoever minted the slug, unless an operator revoked it or its own
  // request did, failing to read back the claim; every loser left no client behind.
  lemma AfterTheRace(w: World, ops: seq<Op>, slug: string)
    requires Inv(w) && LegalRun(w, ops)
    requires forall i :: i in Run(w, ops).requests ==>
        !Run(w, ops).requests[i].Created? && !Run(w, ops).requests[i].Lost?
    ensures var w' := Run(w, ops);
            && (forall i :: i in w'.requests && w'.requests[i].Refused? ==> w'.requests[i].client !in w'.roster)
            && (if slug in w'.table && w'.table[slug].usedAt.Some? then
                  && w'.table[slug].result.Some?
                  && (ClientsOf(w'.roster, slug) == {w'.table[slug].result.value} ||
                      (ClientsOf(w'.roster, slug) == {} &&
                       (w'.table[slug].result.value in w'.cut || ReadBackFailed(w', slug))))
                else ClientsOf(w'.roster, slug) == {})
            && (forall c :: c in ClientsOf(w'.roster, slug) ==>
                  slug in w'.minters && w'.roster[c].owner == Some(w'.minters[slug]))
            && (slug in w.minters ==> slug in w'.minters && w'.minters[slug] == w.minters[slug])
  {
    RunInv(w, ops);
    MintersFixed(w, ops);
    var w' := Run(w, ops);
    forall c | c in ClientsOf(w'.roster, slug)
      ensures slug in w'.table && w'.table[slug].usedAt.Some? && w'.table[slug].result == Some(c)
      ensures slug in w'.minters && w'.roster[c].owner == Some(w'.minters[slug])
    {
      assert c in w'.maker;
      SourceInjective(w'.requests[w'.maker[c]].slug, slug);
    }
    if slug in w'.table && w'.table[slug].usedAt.Some? {
      var c := w'.table[slug].result.value;
      assert w'.requests[w'.winner[slug]].client == c;
      if c in w'.roster {
        assert c in ClientsOf(w'.roster, slug);
      }
    }
  }

  // No request took back a client whose claim was committed.
  ghost predicate NoneTakenBack(w: World) {
    forall i :: i in w.requests && (w.requests[i].Lost? || w.requests[i].Refused?) ==> !w.requests[i].claimed
  }

  lemma NoneTakenBackStep(w: World, op: Op)
    requires NoneTakenBack(w) && (op.Consume? ==> !op.fault.AfterCommit?)
    ensures NoneTakenBack(Step(w, op))
  {
    hide Source, C.AfterCreateDynamic, C.AfterRevoke, PrunedSlugs, Claimable, Deletable;
  }

  // As long as no claimed row fails to be read back, no claim is lost that way.
  lemma {:induction false} FaultlessClaimsHold(w: World, ops: seq<Op>)
    requires NoneTakenBack(w) && forall i :: 0 <= i < |ops| && ops[i].Consume? ==> !ops[i].fault.AfterCommit?
    ensures NoneTakenBack(Run(w, ops))
    decreases |ops|
  {
    hide NoneTakenBack, Step;
    if ops != [] {
      NoneTakenBackStep(w, ops[0]);
      FaultlessClaimsHold(Step(w, ops[0]), ops[1..]);
    }
  }

  // And when one does, its slug stays claimed for a client that is gone, though nobody revoked it.
  lemma ClaimedForNothing(owner: ClientId, client: ClientId, slug: string)
    requires owner != client
    ensures var w := World.World(map[], map[owner := Client("seed", None, None)], map[], map[], map[], map[], {});
            var ops := [Mint(slug, owner, 0.0), Load(0, slug), Create(0, client), Consume(0, 1.0, AfterCommit),
                        Rollback(0)];
            var w' := Run(w, ops);
            && slug in w'.table && w'.table[slug].usedAt.Some? && w'.table[slug].result == Some(client)
            && client !in w'.roster && w'.cut == {}
  {
    hide Source;
    var w := World.World(map[], map[owner := Client("seed", None, None)], map[], map[], map[], map[], {});
    var row := Slug(owner, SLUG_TTL_SECONDS, None, None);
    var w1 := w.(table := map[slug := row], minters := map[slug := owner]);
    var w2 := w1.(requests := map[0 := Loaded(slug, row)]);
    assert Step(Step(w, Mint(slug, owner, 0.0)), Load(0, slug)) == w2;
    var w3 := w2.(roster := w.roster[client := Client("", Some(owner), Some(Source(slug)))],
                  maker := map[client := 0], requests := map[0 := Created(slug, client)]);
    assert Step(w2, Create(0, client)) == w3;
    TakenBack(w3, slug, client);
    RunOfFive(w, Mint(slug, owner, 0.0), Load(0, slug), Create(0, client), Consume(0, 1.0, AfterCommit), Rollback(0));
  }

  lemma TakenBack(w: World, slug: string, client: ClientId)
    requires 0 in w.requests && w.requests[0] == Created(slug, client) && Claimable(w.table, slug, 1.0)
    requires client in w.roster && w.roster[client].owner.Some?
    ensures var after := Step(Step(w, Consume(0, 1.0, AfterCommit)), Rollback(0));
            && after.table == Claimed(w.table, slug, client, 1.0)
            && after.roster == w.roster - {client} && after.cut == w.cut
  {
  }

  lemma RunOfFive(w: World, a: Op, b: Op, c: Op, d: Op, e: Op)
    ensures Run(w, [a, b, c, d, e]) == Step(Step(Step(Step(Step(w, a), b), c), d), e)
  {
    hide Step;
    var w1 := Step(w, a);
    var w2 := Step(w1, b);
    var w3 := Step(w2, c);
    var w4 := Step(w3, d);
    calc {
      Run(w, [a, b, c, d, e]);
      Run(w1, [b, c, d, e]);
      Run(w2, [c, d, e]);
      Run(w3, [d, e]);
      Run(w4, [e]);
      Run(Step(w4, e), []);
    }
  }

  // An empty server satisfies the invariant.
  lemma StartInv(roster: Roster)
    requires forall c :: c in roster ==> Untagged(roster[c])
    ensures Inv(World.World(map[], roster, map[], map[], map[], map[], {}))
  {
  }
}
