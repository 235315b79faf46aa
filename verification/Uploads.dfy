/** `UploadLinkStore` and the upload endpoint (`transfers.py`): links are shared objects,
    reachable by id and, while pending, by token. */
module Uploads {
  import opened Prelude
  import M = UploadModel

  class UploadLink {
    const id: string
    const token: string
    const maxBytes: nat
    const expiresAt: real
    var status: M.Status
    var result: Option<M.Result>
    var finishedAt: Option<real>

    constructor (id: string, token: string, maxBytes: nat, expiresAt: real)
      ensures this.id == id && this.token == token && this.maxBytes == maxBytes && this.expiresAt == expiresAt
      ensures status == M.Pending && result == None && finishedAt == None
    {
      this.id, this.token, this.maxBytes, this.expiresAt := id, token, maxBytes, expiresAt;
      status, result, finishedAt := M.Pending, None, None;
    }

    function View(): M.Link reads this {
      M.Link(token, maxBytes, expiresAt, status, result, finishedAt)
    }
  }

  lemma SubMapValues<K, V>(small: map<K, V>, big: map<K, V>)
    requires SubMap(small, big)
    ensures small.Values <= big.Values
  {
  }

  class UploadLinkStore {
    var byToken: map<string, UploadLink>
    var byId: map<string, UploadLink>

    ghost function Links(): M.Links reads this, byId.Values {
      map id | id in byId :: byId[id].View()
    }

    // The token index holds exactly the pending links of the id index.
    ghost predicate Valid() reads this, byId.Values {
      && (forall id :: id in byId ==> Indexed(id))
      && (forall t :: t in byToken ==> && byToken[t].id in byId && byId[byToken[t].id] == byToken[t]
                                       && byToken[t].token == t && byToken[t].status.Pending?)
    }

    ghost predicate Indexed(id: string) reads this, byId.Values
      requires id in byId
    {
      var link := byId[id];
      && link.id == id
      && (link.status.Pending? ==> link.finishedAt.None? && link.token in byToken)
      && (link.token in byToken ==> byToken[link.token] == link)
    }

    constructor ()
      ensures Valid() && Links() == map[]
    {
      byToken, byId := map[], map[];
    }

    // One turn of the sweep.
    method PruneOne(id: string, now: real)
      requires Valid() && id in byId
      modifies this, byId[id]
      ensures Valid() && SubMap(byId, old(byId))
      ensures Links() == M.PruneAt(old(Links()), id, now)
    {
      var link := byId[id];
      if link.status.Pending? && now >= link.expiresAt {
        link.status := M.Expired;
        link.finishedAt := Some(now);
        byToken := byToken - {link.token};
      }
      if link.finishedAt.Some? && now - link.finishedAt.value > M.RESULT_TTL {
        byId := byId - {id};
        byToken := byToken - {link.token};
      }
    }

    method Prune(now: real)
      requires Valid()
      modifies this, byId.Values
      ensures Valid() && byId.Values <= old(byId.Values) && SubMap(byId, old(byId))
      ensures Links() == M.Prune(old(Links()), now)
    {
      hide Valid, Indexed;
      ghost var start := Links();
      var todo := byId.Keys;
      while todo != {}
        invariant Valid() && SubMap(byId, old(byId))
        invariant M.Sweeping(start, Links(), todo, now)
        decreases |todo|
      {
        var id :| id in todo;
        M.SweepStep(start, Links(), todo, id, now);
        hide M.Sweeping, M.PruneAt, M.Prune;
        PruneOne(id, now);
        todo := todo - {id};
      }
      M.SweepDone(start, Links(), now);
      SubMapValues(byId, old(byId));
    }

    method Pending() returns (n: nat)
      requires Valid()
      ensures n == |M.PendingIds(Links())|
    {
      var waiting := set id | id in byId && byId[id].status.Pending?;
      assert waiting == M.PendingIds(Links());
      n := |waiting|;
    }

    // Puts a new link in both indexes.
    method Enter(link: UploadLink)
      requires Valid() && link.status.Pending? && link.finishedAt.None? && link.id !in byId
      requires forall i :: i in byId ==> byId[i].token != link.token
      modifies this
      ensures Valid() && byId == old(byId)[link.id := link] && link.token in byToken
      ensures Links() == old(Links())[link.id := link.View()]
    {
      byToken := byToken[link.token := link];
      byId := byId[link.id := link];
    }

    // `id` and `token` are the random draws.
    method Issue(id: string, token: string, maxBytes: nat, ttl: int, now: real) returns (link: UploadLink?)
      requires Valid() && id !in byId && forall i :: i in byId ==> byId[i].token != token
      modifies this, byId.Values
      ensures Valid()
      ensures (Links(), link != null) == M.Issue(old(Links()), id, M.NewLink(token, maxBytes, ttl, now), now)
      ensures link != null ==> fresh(link) && id in byId && byId[id] == link && token in byToken
    {
      hide Valid, Indexed;
      Prune(now);
      var pending := Pending();
      if pending >= M.MAX_PENDING_LINKS {
        return null;
      }
      link := new UploadLink(id, token, maxBytes, now + M.ClampTtl(ttl) as real);
      Enter(link);
    }

    // Takes `token` out of the index and starts its link.
    method Take(token: string) returns (link: UploadLink)
      requires Valid() && token in byToken
      modifies this`byToken, byToken[token]
      ensures Valid() && link == old(byToken[token]) && M.Opens(old(Links()), token, link.id)
      ensures Links() == M.Started(old(Links()), link.id)
      ensures byId[link.id] == link && link.status.Uploading?
    {
      link := byToken[token];
      byToken := byToken - {token};
      link.status := M.Uploading;
    }

    // Spends `token`: its pending link, if there is one once expired links are swept.
    method Claim(token: string, now: real) returns (link: UploadLink?)
      requires Valid()
      modifies this, byId.Values
      ensures Valid() && byId.Values <= old(byId.Values)
      ensures link == null ==> Links() == M.Prune(old(Links()), now) && forall id :: !M.Opens(Links(), token, id)
      ensures link != null ==>
                && M.Opens(M.Prune(old(Links()), now), token, link.id)
                && Links() == M.Started(M.Prune(old(Links()), now), link.id)
                && link in byId.Values && byId[link.id] == link && link.status.Uploading?
    {
      Prune(now);
      // An indexed link is always pending, so the source's check of its status never fails.
      if token !in byToken {
        return null;
      }
      link := Take(token);
    }

    // Called once, by the request that claimed the link.
    method Finish(link: UploadLink, result: M.Result, now: real)
      requires Valid() && link.id in byId && byId[link.id] == link && link.status.Uploading?
      modifies link
      ensures Valid() && Links() == M.Settled(old(Links()), link.id, result, now)
    {
      ghost var before := Links();
      link.status := if result.success then M.Success else M.Error;
      link.result := Some(result);
      link.finishedAt := Some(now);
      assert Links() == before[link.id := link.View()];
    }

    method Get(id: string, now: real) returns (link: UploadLink?)
      requires Valid()
      modifies this, byId.Values
      ensures Valid() && Links() == M.Prune(old(Links()), now)
      ensures link != null <==> id in Links()
      ensures link != null ==> byId[id] == link
    {
      Prune(now);
      return if id in byId then byId[id] else null;
    }
  }

  // --- receiving the body ---------------------------------------------------------------------

  /** What the request stream yields: a chunk whose write succeeds or fails, the client's
      disconnection (any exception), or the cancellation of the request. */
  datatype Part = Chunk(size: nat, stored: bool) | Fails | Cancelled

  datatype Push = Pushed(success: bool, guestStopped: bool) | PushFails | PushCancelled

  /** The request, and how the disk and the guest behave while it is served. */
  datatype Request = Request(multipart: bool, declared: Option<nat>, stream: seq<Part>,
                             tools: bool, makesDir: bool, opens: bool, moves: bool, push: Push)

  datatype Reply = Json(code: nat, result: M.Result) | Raised

  /** The files of the staging directory by name, with their sizes, and the bytes ever written. */
  class Staging {
    var files: map<string, nat>
    var written: nat
  }

  function PartName(id: string): string { "upload-" + id + ".part" }
  function StagedName(id: string): string { "upload-" + id }

  datatype Body = Whole(bytes: nat) | TooLarge | Broken(bytes: nat) | Interrupted

  // The body read from a stream after `got` bytes, stopping at the first chunk that takes it
  // over `max` or at the first failure.
  function Drain(stream: seq<Part>, got: nat, max: nat): Body {
    if stream == [] then Whole(got)
    else match stream[0]
      case Fails => Broken(got)
      case Cancelled => Interrupted
      case Chunk(size, stored) =>
        if got + size > max then TooLarge
        else if !stored then Broken(got + size)
        else Drain(stream[1..], got + size, max)
  }

  // Every byte of a stream.
  function Bytes(stream: seq<Part>): nat {
    if stream == [] then 0 else (if stream[0].Chunk? then stream[0].size else 0) + Bytes(stream[1..])
  }

  // A body counts as whole exactly when every chunk arrived and was stored and together they
  // fit, and then nothing of it is missing.
  lemma {:induction false} WholeBody(stream: seq<Part>, got: nat, max: nat)
    requires got <= max
    ensures Drain(stream, got, max).Whole? <==>
              (forall i :: 0 <= i < |stream| ==> stream[i].Chunk? && stream[i].stored) && got + Bytes(stream) <= max
    ensures Drain(stream, got, max).Whole? ==> Drain(stream, got, max).bytes == got + Bytes(stream)
  {
    if stream != [] {
      if stream[0].Chunk? && stream[0].stored && got + stream[0].size <= max {
        WholeBody(stream[1..], got + stream[0].size, max);
        assert forall i :: 1 <= i < |stream| ==> stream[i] == stream[1..][i - 1];
        assert forall i :: 0 <= i < |stream| - 1 ==> stream[1..][i] == stream[i + 1];
      }
    }
  }

  // Streams the body into `part`.
  method Receive(part: string, stream: seq<Part>, max: nat, dir: Staging) returns (body: Body)
    modifies dir
    ensures body == Drain(stream, 0, max)
    ensures dir.files - {part} == old(dir.files) - {part}
    ensures dir.written <= old(dir.written) + max
    ensures body.Whole? ==> part in dir.files && dir.files[part] == body.bytes <= max
  {
    dir.files := dir.files[part := 0];
    var received := 0;
    for i := 0 to |stream|
      invariant received <= max && part in dir.files && dir.files[part] == received
      invariant dir.written == old(dir.written) + received
      invariant dir.files - {part} == old(dir.files) - {part}
      invariant Drain(stream, 0, max) == Drain(stream[i..], received, max)
    {
      assert stream[i..][1..] == stream[i + 1..];
      match stream[i] {
        case Fails => return Broken(received);
        case Cancelled => return Interrupted;
        case Chunk(size, stored) =>
          received := received + size;
          if received > max {
            return TooLarge;
          }
          if !stored {
            return Broken(received);
          }
          dir.files := dir.files[part := received];
          dir.written := dir.written + size;
      }
    }
    return Whole(received);
  }

  // What the request is answered, reading its whole history at once.
  function Answer(req: Request, max: nat): Reply {
    if req.multipart then Refused(415)
    else if req.declared.Some? && req.declared.value > max then Refused(413)
    else if !req.tools then Refused(503)
    else if !req.makesDir then Raised
    else if !req.opens then Failed(0)
    else match Drain(req.stream, 0, max)
      case TooLarge => Refused(413)
      case Interrupted => Raised
      case Broken(n) => Failed(n)
      case Whole(n) =>
        if n == 0 then Refused(400)
        else if !req.moves || req.push.PushFails? then Failed(n)
        else if req.push.PushCancelled? then Raised
        else Json(StatusCode(req.push), M.Result(req.push.success, Some(n)))
  }

  function Refused(code: nat): Reply { Json(code, M.Result(false, None)) }
  function Failed(bytes: nat): Reply { Json(500, M.Result(false, Some(bytes))) }

  function StatusCode(push: Push): nat
    requires push.Pushed?
  {
    if push.success then 200 else if push.guestStopped then 409 else 500
  }

  // The guest is told a file succeeded only when all of it arrived, it was not empty, and it
  // fitted.
  lemma SuccessMeansWhole(req: Request, max: nat)
    ensures Answer(req, max).Json? && Answer(req, max).result.success ==>
              && (forall i :: 0 <= i < |req.stream| ==> req.stream[i].Chunk? && req.stream[i].stored)
              && 0 < Bytes(req.stream) <= max
              && Answer(req, max) == Json(200, M.Result(true, Some(Bytes(req.stream))))
  {
    WholeBody(req.stream, 0, max);
  }

  // ... and then it is, whenever nothing went wrong on this side.
  lemma SuccessIff(req: Request, max: nat)
    ensures Answer(req, max).Json? && Answer(req, max).result.success <==>
              && !req.multipart && req.tools && req.makesDir && req.opens && req.moves
              && (req.declared.Some? ==> req.declared.value <= max)
              && (forall i :: 0 <= i < |req.stream| ==> req.stream[i].Chunk? && req.stream[i].stored)
              && 0 < Bytes(req.stream) <= max
              && req.push.Pushed? && req.push.success
  {
    WholeBody(req.stream, 0, max);
  }

  // What decides a body that is not whole: the first part that is missing, not stored or too much.
  lemma {:induction false} FirstTrouble(stream: seq<Part>, got: nat, max: nat, k: nat)
    requires k < |stream| && forall i :: 0 <= i < k ==> stream[i].Chunk? && stream[i].stored
    requires got + Bytes(stream[..k]) <= max
    ensures var before := got + Bytes(stream[..k]);
            match stream[k]
            case Fails => Drain(stream, got, max) == Broken(before)
            case Cancelled => Drain(stream, got, max) == Interrupted
            case Chunk(size, stored) =>
              && (before + size > max ==> Drain(stream, got, max) == TooLarge)
              && (before + size <= max && !stored ==> Drain(stream, got, max) == Broken(before + size))
  {
    if k > 0 {
      assert stream[..k][1..] == stream[1..][..k - 1] && stream[..k][0] == stream[0];
      assert stream[1..][k - 1] == stream[k];
      FirstTrouble(stream[1..], got + stream[0].size, max, k - 1);
    }
  }

  // Every answer, in the order the source decides.
  lemma AnswerTable(req: Request, max: nat)
    ensures var body := Drain(req.stream, 0, max);
            var tooLong := req.declared.Some? && req.declared.value > max;
            var read := !req.multipart && !tooLong && req.tools && req.makesDir && req.opens;
            var full := read && body.Whole? && body.bytes > 0;
            var answer := Answer(req, max);
            && (answer == Json(415, M.Result(false, None)) <==> req.multipart)
            && (answer == Json(413, M.Result(false, None)) <==>
                  !req.multipart && (tooLong || (read && body == TooLarge)))
            && (answer == Json(503, M.Result(false, None)) <==> !req.multipart && !tooLong && !req.tools)
            && (answer == Json(400, M.Result(false, None)) <==> read && body == Whole(0))
            && (answer == Raised <==>
                  || (!req.multipart && !tooLong && req.tools && !req.makesDir)
                  || (read && body == Interrupted) || (full && req.moves && req.push == PushCancelled))
            && (!req.multipart && !tooLong && req.tools && req.makesDir && !req.opens ==>
                  answer == Json(500, M.Result(false, Some(0))))
            && (read && body.Broken? ==> answer == Json(500, M.Result(false, Some(body.bytes))))
            && (full && (!req.moves || req.push == PushFails) ==>
                  answer == Json(500, M.Result(false, Some(body.bytes))))
            && (full && req.moves && req.push.Pushed? ==>
                  answer == Json(if req.push.success then 200 else if req.push.guestStopped then 409 else 500,
                                 M.Result(req.push.success, Some(body.bytes))))
  {
    hide Drain;
  }

  lemma WithoutBoth<V>(a: map<string, V>, b: map<string, V>, x: string, y: string)
    requires a - {x} == b - {x}
    ensures a - {x, y} == b - {x, y}
  {
    assert a - {x, y} == (a - {x}) - {y} && b - {x, y} == (b - {x}) - {y};
  }

  // The body of the `try`: the file is staged whole and handed to the guest, or not at all.
  method Stage(id: string, max: nat, req: Request, dir: Staging) returns (reply: Reply, sent: Option<nat>)
    requires Admitted(req, max)
    modifies dir
    ensures dir.files - {PartName(id), StagedName(id)} == old(dir.files) - {PartName(id), StagedName(id)}
    ensures dir.written <= old(dir.written) + max
    ensures reply == Answer(req, max)
    ensures sent.Some? ==> Drain(req.stream, 0, max) == Whole(sent.value) && 0 < sent.value
    ensures reply.Json? && reply.result.success ==> sent.Some?
  {
    sent := None;
    if !req.opens {
      return Failed(0), None;
    }
    var body := Receive(PartName(id), req.stream, max, dir);
    WithoutBoth(dir.files, old(dir.files), PartName(id), StagedName(id));
    match body {
      case TooLarge => return Refused(413), None;
      case Interrupted => return Raised, None;
      case Broken(n) => return Failed(n), None;
      case Whole(n) =>
        if n == 0 {
          return Refused(400), None;
        }
        if !req.moves {
          return Failed(n), None;
        }
        dir.files := (dir.files - {PartName(id)})[StagedName(id) := dir.files[PartName(id)]];
        sent := Some(dir.files[StagedName(id)]);
        match req.push {
          case Pushed(success, _) => reply := Json(StatusCode(req.push), M.Result(success, Some(n)));
          case PushFails => reply := Failed(n);
          case PushCancelled => reply := Raised;
        }
    }
  }

  predicate Admitted(req: Request, max: nat) {
    !req.multipart && !(req.declared.Some? && req.declared.value > max) && req.tools && req.makesDir
  }

  // `_receive_and_push`, with what the guest was handed. Whatever happens, neither staged file
  // is left.
  method ReceiveAndPush(id: string, max: nat, req: Request, dir: Staging) returns (reply: Reply, sent: Option<nat>)
    modifies dir
    ensures dir.files == old(dir.files) || dir.files == old(dir.files) - {PartName(id), StagedName(id)}
    ensures dir.written <= old(dir.written) + max
    ensures reply == Answer(req, max)
    ensures sent.Some? ==> sent.value == Bytes(req.stream) && 0 < sent.value <= max
    ensures reply.Json? && reply.result.success ==> sent.Some?
  {
    sent := None;
    if req.multipart {
      return Refused(415), None;
    }
    if req.declared.Some? && req.declared.value > max {
      return Refused(413), None;
    }
    if !req.tools {
      return Refused(503), None;
    }
    if !req.makesDir {
      return Raised, None;
    }
    reply, sent := Stage(id, max, req, dir);
    WholeBody(req.stream, 0, max);
    // The `finally` clause.
    dir.files := dir.files - {PartName(id)};
    dir.files := dir.files - {StagedName(id)};
    assert dir.files == old(dir.files) - {PartName(id), StagedName(id)};
  }

  // How a claimed link is settled.
  function Settlement(reply: Reply): M.Result {
    if reply.Json? then reply.result else M.Result(false, None)
  }

  /** `upload_endpoint`: `None` is the 404 for a token that opens nothing. A claimed link is
      always settled, by what was answered or, when the request was cut short, as failed. */
  method UploadEndpoint(store: UploadLinkStore, dir: Staging, token: string, req: Request, now: real, end: real)
    returns (reply: Option<Reply>)
    requires store.Valid()
    modifies store, store.byId.Values, dir
    ensures store.Valid()
    ensures reply.None? ==> dir.files == old(dir.files) && dir.written == old(dir.written)
    ensures reply.None? ==> store.Links() == if token == "" then old(store.Links())
        else M.Prune(old(store.Links()), now)
    ensures reply.None? <==> token == "" || forall id :: !M.Opens(M.Prune(old(store.Links()), now), token, id)
    ensures reply.Some? ==> exists id :: Served(M.Prune(old(store.Links()), now), store.Links(), id, token, req,
                                                reply.value, end)
                                         && (dir.files == old(dir.files)
                                             || dir.files == old(dir.files) - {PartName(id), StagedName(id)})
                                         && dir.written <= old(dir.written) + M.Prune(old(store.Links()),
                                                 now)[id].maxBytes
  {
    if token == "" {
      return None;
    }
    var link := store.Claim(token, now);
    if link == null {
      return None;
    }
    var answer, _ := ReceiveAndPush(link.id, link.maxBytes, req, dir);
    store.Finish(link, Settlement(answer), end);
    hide Served, Settlement, Answer;
    ServedBy(M.Prune(old(store.Links()), now), store.Links(), link.id, token, req, answer, end);
    return Some(answer);
  }

  // The link the token opened went from pending to settled, and no other link changed.
  ghost predicate Served(before: M.Links, after: M.Links, id: string, token: string, req: Request, reply: Reply,
                         end: real)
  {
    && M.Opens(before, token, id)
    && reply == Answer(req, before[id].maxBytes)
    && after == before[id := before[id].(
                       status := if reply.Json? && reply.result.success then M.Success else M.Error,
                       result := Some(if reply.Json? then reply.result else M.Result(false, None)),
                       finishedAt := Some(end))]
  }

  lemma ServedBy(before: M.Links, after: M.Links, id: string, token: string, req: Request, reply: Reply, end: real)
    requires M.Opens(before, token, id) && reply == Answer(req, before[id].maxBytes)
    requires after == M.Settled(M.Started(before, id), id, Settlement(reply), end)
    ensures Served(before, after, id, token, req, reply, end)
  {
  }
}
