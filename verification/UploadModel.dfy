/** Upload links (`transfers.py`) as a value: what each operation of `UploadLinkStore` does to
    the table of links, and what that means over whole runs. */
module UploadModel {
  import opened Prelude

  const MIN_TTL := 60
  const MAX_TTL := 3600
  const MAX_PENDING_LINKS := 50
  const RESULT_TTL := 3600.0

  datatype Status = Pending | Expired | Uploading | Success | Error

  // The reply kept for a lost HTTP response: whether it succeeded and the bytes received.
  datatype Result = Result(success: bool, bytes: Option<nat>)

  datatype Link = Link(token: string, maxBytes: nat, expiresAt: real, status: Status,
                       result: Option<Result>, finishedAt: Option<real>)

  type Links = map<string, Link>

  function ClampTtl(ttl: int): int {
    var capped := if ttl <= MAX_TTL then ttl else MAX_TTL;
    if capped >= MIN_TTL then capped else MIN_TTL
  }

  function Aged(link: Link, now: real): Link {
    if link.status.Pending? && now >= link.expiresAt
    then link.(status := Expired, finishedAt := Some(now))
    else link
  }

  predicate Stale(link: Link, now: real) {
    link.finishedAt.Some? && now - link.finishedAt.value > RESULT_TTL
  }

  function Prune(links: Links, now: real): Links {
    map id | id in links && !Stale(Aged(links[id], now), now) :: Aged(links[id], now)
  }

  // Pruning one link.
  function PruneAt(links: Links, id: string, now: real): Links
    requires id in links
  {
    if Stale(Aged(links[id], now), now) then links - {id} else links[id := Aged(links[id], now)]
  }

  // Part-way through a sweep of `start`: the links in `todo` are as they were.
  ghost predicate Sweeping(start: Links, links: Links, todo: set<string>, now: real) {
    && (forall id :: id in todo ==> id in start && id in links && links[id] == start[id])
    && (forall id :: id in links && id !in todo ==> id in Prune(start, now) && links[id] == Prune(start, now)[id])
    && (forall id :: id in Prune(start, now) ==> id in links)
  }

  lemma SweepStep(start: Links, links: Links, todo: set<string>, id: string, now: real)
    requires Sweeping(start, links, todo, now) && id in todo
    ensures Sweeping(start, PruneAt(links, id, now), todo - {id}, now)
  {
  }

  lemma SweepDone(start: Links, links: Links, now: real)
    requires Sweeping(start, links, {}, now)
    ensures links == Prune(start, now)
  {
  }

  function PendingIds(links: Links): set<string> {
    set id | id in links && links[id].status.Pending?
  }

  function NewLink(token: string, maxBytes: nat, ttl: int, now: real): Link {
    Link(token, maxBytes, now + ClampTtl(ttl) as real, Pending, None, None)
  }

  function Issue(links: Links, id: string, link: Link, now: real): (Links, bool) {
    var left := Prune(links, now);
    if |PendingIds(left)| >= MAX_PENDING_LINKS then (left, false) else (left[id := link], true)
  }

  // The pending link that a token opens; tokens are not shared.
  ghost predicate Opens(links: Links, token: string, id: string) {
    id in links && links[id].token == token && links[id].status.Pending?
  }

  function Started(links: Links, id: string): Links
    requires id in links
  {
    links[id := links[id].(status := Uploading)]
  }

  function Settled(links: Links, id: string, result: Result, now: real): Links
    requires id in links
  {
    links[id := links[id].(status := if result.success then Success else Error,
                           result := Some(result), finishedAt := Some(now))]
  }

  // --- runs ---------------------------------------------------------------------------------

  datatype Op =
    | IssueOp(id: string, token: string, maxBytes: nat, ttl: int, now: real)
    | ClaimOp(id: string, now: real)       // the token of the pending link `id` was presented
    | BadClaimOp(now: real)                // a token that opens nothing was presented
    | FinishOp(id: string, result: Result, now: real)
    | GetOp(now: real)

  /** `ids` and `tokens` were handed out at some time; `claims` lists the tokens spent. */
  datatype World = World(links: Links, ids: set<string>, tokens: set<string>, claims: seq<string>)

  const EMPTY := World(map[], {}, {}, [])

  // Ids and tokens are random draws that never repeat, a claim presents the token of a link
  // that is still pending after the sweep, and an upload is settled by the request that
  // claimed it.
  ghost predicate Legal(w: World, op: Op) {
    match op
    case IssueOp(id, token, _, _, _) => id !in w.ids && token !in w.tokens
    case ClaimOp(id, now) => id in Prune(w.links, now) && Prune(w.links, now)[id].status.Pending?
    case FinishOp(id, _, _) => id in w.links && w.links[id].status.Uploading?
    case _ => true
  }

  function Step(w: World, op: Op): World {
    match op
    case IssueOp(id, token, maxBytes, ttl, now) =>
      var (links, _) := Issue(w.links, id, NewLink(token, maxBytes, ttl, now), now);
      World(links, w.ids + {id}, w.tokens + {token}, w.claims)
    case ClaimOp(id, now) =>
      var left := Prune(w.links, now);
      if id in left then w.(links := Started(left, id), claims := w.claims + [left[id].token])
      else w.(links := left)
    case BadClaimOp(now) => w.(links := Prune(w.links, now))
    case FinishOp(id, result, now) =>
      if id in w.links then w.(links := Settled(w.links, id, result, now)) else w
    case GetOp(now) => w.(links := Prune(w.links, now))
  }

  ghost predicate LegalRun(w: World, ops: seq<Op>)
    decreases |ops|
  {
    ops == [] || (Legal(w, ops[0]) && LegalRun(Step(w, ops[0]), ops[1..]))
  }

  function Run(w: World, ops: seq<Op>): World
    decreases |ops|
  {
    if ops == [] then w else Run(Step(w, ops[0]), ops[1..])
  }

  // --- the invariant --------------------------------------------------------------------------

  // No two links share a token.
  ghost predicate TokensDistinct(links: Links) {
    forall i, j | i in links && j in links && links[i].token == links[j].token :: i == j
  }

  // A link has an end exactly once it is neither waiting nor uploading, and a result only then.
  ghost predicate Consistent(link: Link) {
    && (link.finishedAt.Some? <==> link.status in {Expired, Success, Error})
    && (link.result.Some? <==> link.status in {Success, Error})
    && (link.result.Some? ==> link.result.value.success == link.status.Success?)
  }

  ghost predicate NoRepeats(s: seq<string>) {
    forall i, j | 0 <= i < j < |s| :: s[i] != s[j]
  }

  ghost predicate Inv(w: World) {
    && TokensDistinct(w.links)
    && (forall id :: id in w.links ==> id in w.ids && w.links[id].token in w.tokens && Consistent(w.links[id]))
    && |PendingIds(w.links)| <= MAX_PENDING_LINKS
    && NoRepeats(w.claims)
    && (forall t :: t in w.claims ==> t in w.tokens)
    && (forall id :: id in w.links && w.links[id].status.Pending? ==> w.links[id].token !in w.claims)
  }

  lemma PruneInv(w: World, now: real)
    requires Inv(w)
    ensures Inv(w.(links := Prune(w.links, now)))
  {
    SubsetSize(PendingIds(Prune(w.links, now)), PendingIds(w.links));
  }

  lemma PendingAdd(links: Links, id: string, link: Link)
    requires id !in links && link.status.Pending?
    ensures |PendingIds(links[id := link])| == |PendingIds(links)| + 1
  {
    assert PendingIds(links[id := link]) == PendingIds(links) + {id};
  }

  lemma DistinctAdd(links: Links, tokens: set<string>, id: string, link: Link)
    requires TokensDistinct(links) && link.token !in tokens
    requires forall i :: i in links ==> links[i].token in tokens
    ensures TokensDistinct(links[id := link])
  {
  }

  lemma AddInv(w: World, id: string, link: Link)
    requires Inv(w) && |PendingIds(w.links)| < MAX_PENDING_LINKS
    requires id !in w.ids && link.token !in w.tokens && link.status.Pending? && Consistent(link)
    ensures Inv(World(w.links[id := link], w.ids + {id}, w.tokens + {link.token}, w.claims))
  {
    PendingAdd(w.links, id, link);
    DistinctAdd(w.links, w.tokens, id, link);
    hide TokensDistinct, PendingIds;
  }

  lemma IssueInv(w: World, op: Op)
    requires Inv(w) && Legal(w, op) && op.IssueOp?
    ensures Inv(Step(w, op))
  {
    PruneInv(w, op.now);
    var left := Prune(w.links, op.now);
    if |PendingIds(left)| < MAX_PENDING_LINKS {
      AddInv(w.(links := left), op.id, NewLink(op.token, op.maxBytes, op.ttl, op.now));
    }
  }

  lemma ClaimInv(w: World, op: Op)
    requires Inv(w) && Legal(w, op) && op.ClaimOp?
    ensures Inv(Step(w, op))
  {
    PruneInv(w, op.now);
    var left := Prune(w.links, op.now);
    hide Prune;
    SubsetSize(PendingIds(Started(left, op.id)), PendingIds(left));
  }

  lemma FinishInv(w: World, op: Op)
    requires Inv(w) && Legal(w, op) && op.FinishOp?
    ensures Inv(Step(w, op))
  {
    SubsetSize(PendingIds(Settled(w.links, op.id, op.result, op.now)), PendingIds(w.links));
  }

  lemma StepInv(w: World, op: Op)
    requires Inv(w) && Legal(w, op)
    ensures Inv(Step(w, op))
  {
    match op
    case IssueOp(_, _, _, _, _) => IssueInv(w, op);
    case ClaimOp(_, _) => ClaimInv(w, op);
    case BadClaimOp(now) => PruneInv(w, now);
    case FinishOp(_, _, _) => FinishInv(w, op);
    case GetOp(now) => PruneInv(w, now);
  }

  lemma {:induction false} RunInv(w: World, ops: seq<Op>)
    requires Inv(w) && LegalRun(w, ops)
    ensures Inv(Run(w, ops))
    decreases |ops|
  {
    if ops != [] {
      StepInv(w, ops[0]);
      RunInv(Step(w, ops[0]), ops[1..]);
    }
  }

  // --- what runs guarantee ----------------------------------------------------------------------

  // However requests interleave, a token is spent at most once and at most 50 links wait.
  lemma SpentOnce(ops: seq<Op>)
    requires LegalRun(EMPTY, ops)
    ensures NoRepeats(Run(EMPTY, ops).claims)
    ensures |PendingIds(Run(EMPTY, ops).links)| <= MAX_PENDING_LINKS
  {
    RunInv(EMPTY, ops);
  }

  // Pending to expired, or pending to uploading to success or error.
  predicate Follows(before: Status, after: Status) {
    || before == after
    || before.Pending?
    || (before.Uploading? && (after.Success? || after.Error?))
  }

  // Everything but its progress is fixed when a link is minted.
  ghost predicate Advanced(before: Link, after: Link) {
    && after.token == before.token && after.maxBytes == before.maxBytes && after.expiresAt == before.expiresAt
    && Follows(before.status, after.status)
    && (after.status == before.status ==> after == before)
  }

  lemma StepAdvances(w: World, op: Op, id: string)
    requires Inv(w) && Legal(w, op) && id in w.ids
    ensures id in Step(w, op).links ==> id in w.links && Advanced(w.links[id], Step(w, op).links[id])
    ensures id in Step(w, op).ids
  {
  }

  // A link's status only moves forward, a settled link never changes again, and a forgotten
  // link never comes back.
  lemma {:induction false} OnlyForward(w: World, ops: seq<Op>, id: string)
    requires Inv(w) && LegalRun(w, ops) && id in w.ids
    ensures id in Run(w, ops).links ==> id in w.links && Advanced(w.links[id], Run(w, ops).links[id])
    decreases |ops|
  {
    if ops != [] {
      StepAdvances(w, ops[0], id);
      StepInv(w, ops[0]);
      OnlyForward(Step(w, ops[0]), ops[1..], id);
    }
  }

  ghost predicate AllBy(ops: seq<Op>, t: real) {
    forall i :: 0 <= i < |ops| ==> ops[i].now <= t
  }

  // What a step can do to a link that this step neither claims nor settles.
  lemma StepSpares(w: World, op: Op, id: string)
    requires Inv(w) && Legal(w, op) && id in w.links
    requires !(op.ClaimOp? && op.id == id) && !(op.FinishOp? && op.id == id)
    requires op.FinishOp? || !Stale(Aged(w.links[id], op.now), op.now)
    requires op.FinishOp? || Aged(w.links[id], op.now) == w.links[id]
    ensures id in Step(w, op).links && Step(w, op).links[id] == w.links[id]
  {
    hide TokensDistinct, NoRepeats, PendingIds;
  }

  // The outcome of a settled upload can be read for an hour after it ended.
  lemma {:induction false} OutcomeKept(w: World, ops: seq<Op>, id: string)
    requires Inv(w) && LegalRun(w, ops) && id in w.links && w.links[id].finishedAt.Some?
    requires AllBy(ops, w.links[id].finishedAt.value + RESULT_TTL)
    ensures id in Run(w, ops).links && Run(w, ops).links[id] == w.links[id]
    decreases |ops|
  {
    if ops != [] {
      StepInv(w, ops[0]);
      StepSpares(w, ops[0], id);
      hide Step, Inv, Legal;
      OutcomeKept(Step(w, ops[0]), ops[1..], id);
    }
  }

  // An upload in progress is never forgotten, so its request can always settle it.
  lemma {:induction false} UploadNotForgotten(w: World, ops: seq<Op>, id: string)
    requires Inv(w) && LegalRun(w, ops) && id in w.links && w.links[id].status.Uploading?
    requires forall i :: 0 <= i < |ops| ==> !(ops[i].FinishOp? && ops[i].id == id)
    ensures id in Run(w, ops).links && Run(w, ops).links[id] == w.links[id]
    decreases |ops|
  {
    if ops != [] {
      StepInv(w, ops[0]);
      StepSpares(w, ops[0], id);
      hide Step, Inv, Legal;
      UploadNotForgotten(Step(w, ops[0]), ops[1..], id);
    }
  }

  // A link is claimed within an hour of being minted, if at all.
  lemma ClaimWindow(w: World, op: Op, ops: seq<Op>, claim: Op)
    requires Inv(w) && op.IssueOp? && Legal(w, op) && op.id in Step(w, op).links
    requires LegalRun(Step(w, op), ops) && claim.ClaimOp? && claim.id == op.id
    requires Legal(Run(Step(w, op), ops), claim)
    ensures claim.now < op.now + MAX_TTL as real
  {
    StepInv(w, op);
    OnlyForward(Step(w, op), ops, op.id);
    RunInv(Step(w, op), ops);
  }

  // Until it expires, a link nobody claimed can still be claimed.
  lemma {:induction false} StaysOpen(w: World, ops: seq<Op>, id: string, t: real)
    requires Inv(w) && LegalRun(w, ops) && id in w.links && w.links[id].status.Pending?
    requires AllBy(ops, t) && t < w.links[id].expiresAt
    requires forall i :: 0 <= i < |ops| ==> !(ops[i].ClaimOp? && ops[i].id == id)
    ensures Legal(Run(w, ops), ClaimOp(id, t)) && Run(w, ops).links[id] == w.links[id]
    decreases |ops|
  {
    if ops != [] {
      StepInv(w, ops[0]);
      StepSpares(w, ops[0], id);
      hide Step, Inv, Legal;
      StaysOpen(Step(w, ops[0]), ops[1..], id, t);
    }
  }

  // --- what the caller sees -----------------------------------------------------------------

  // A sweep forgets exactly what ended over an hour ago, expires what nobody claimed in time, and
  // touches nothing else.
  lemma SweptExactly(links: Links, now: real, id: string)
    ensures id in Prune(links, now) <==>
              && id in links
              && (links[id].finishedAt.None? || now - links[id].finishedAt.value <= 3600.0
                  || (links[id].status == Pending && now >= links[id].expiresAt))
    ensures id in Prune(links, now) ==>
              Prune(links, now)[id] == if links[id].status == Pending && now >= links[id].expiresAt
                                       then links[id].(status := Expired, finishedAt := Some(now)) else links[id]
  {
  }

  // A link is refused exactly when 50 others are waiting and in time; else it is entered, pending.
  lemma IssuedIff(links: Links, id: string, token: string, maxBytes: nat, ttl: int, now: real)
    requires forall i :: i in links ==> Consistent(links[i])
    ensures var (after, ok) := Issue(links, id, NewLink(token, maxBytes, ttl, now), now);
            && (ok <==> |set i | i in links && links[i].status == Pending && now < links[i].expiresAt| < 50)
            && (ok ==> && id in after && after[id].token == token && after[id].maxBytes == maxBytes
                       && after[id].status == Pending && after[id].result == None)
            && after - {id} == Prune(links, now) - {id}
  {
    assert PendingIds(Prune(links, now)) == set i | i in links && links[i].status == Pending
      && now < links[i].expiresAt;
  }

  // How long a link that nobody claims can be claimed: as long as was asked for, but at least a
  // minute and at most an hour.
  lemma ClaimableIff(w: World, op: Op, ops: seq<Op>, t: real)
    requires Inv(w) && op.IssueOp? && Legal(w, op) && op.id in Step(w, op).links
    requires LegalRun(Step(w, op), ops) && AllBy(ops, t)
    requires forall i :: 0 <= i < |ops| ==> !(ops[i].ClaimOp? && ops[i].id == op.id)
    ensures Legal(Run(Step(w, op), ops), ClaimOp(op.id, t)) <==>
              && t < op.now + 3600.0 && (t < op.now + op.ttl as real || t < op.now + 60.0)
  {
    StepInv(w, op);
    OnlyForward(Step(w, op), ops, op.id);
    RunInv(Step(w, op), ops);
    if t < op.now + ClampTtl(op.ttl) as real {
      StaysOpen(Step(w, op), ops, op.id, t);
    }
  }
}
