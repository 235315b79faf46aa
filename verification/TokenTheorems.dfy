/** What the token store guarantees over every run. */
module TokenTheorems {
  import opened Prelude
  import opened TokenTypes
  import opened TokenModel
  import opened TokenHistory
  import opened TokenInvariant

  // --- linear rotation ---------------------------------------------------------------

  // At any point of any run: one usable refresh token per sign-in at most, and every
  // token of a sign-in belongs to its client and stops at its end.
  lemma LinearRotation(start: real, cfg: Config, ops: seq<Op>)
    requires LegalRun(Init(start), cfg, ops)
    ensures var w := Run(Init(start), cfg, ops);
            && (forall g, h | g in w.store.refresh && h in w.store.refresh && !w.store.refresh[g].used
                && !w.store.refresh[h].used
                              && w.store.refresh[g].family == w.store.refresh[h].family :: g == h)
            && (forall h :: h in w.store.refresh ==>
                  var rt := w.store.refresh[h];
                  && rt.family in w.families && SignIn(rt.client, rt.familyEnd) == w.families[rt.family]
                  && rt.expiresAt <= rt.familyEnd)
            && (forall h :: h in w.store.oauth && w.store.oauth[h].family.Some? ==>
                  var a := w.store.oauth[h];
                  && a.family.value in w.families && a.client == w.families[a.family.value].client
                  && a.expiresAt <= w.families[a.family.value].end)
  {
    InitInv(start);
    RunInv(Init(start), cfg, ops);
  }

  // The client and the end of a sign-in never change once it is open.
  lemma {:induction false} SignInsFixed(w: World, cfg: Config, ops: seq<Op>)
    requires LegalRun(w, cfg, ops)
    ensures SubMap(w.families, Run(w, cfg, ops).families)
    decreases |ops|
  {
    if ops != [] {
      SignInsFixed(Step(w, cfg, ops[0]), cfg, ops[1..]);
    }
  }

  // No bearer of a sign-in is accepted past its end.
  lemma NoBearerPastEnd(w: World, token: Secret, now: real)
    requires Inv(w) && Sha256(token) in w.store.oauth && w.store.oauth[Sha256(token)].family.Some?
    requires Accepts(w.store, token, now).Some?
    ensures var f := w.store.oauth[Sha256(token)].family.value;
            f in w.families && now <= w.families[f].end && Accepts(w.store, token, now) == Some(w.families[f].client)
  {
  }

  // --- one exchange per token ----------------------------------------------------------

  // The pair a refresh call hands out is the one on record for the presented token.
  lemma ReplyRecorded(w: World, cfg: Config, op: Op)
    requires Inv(w) && Legal(w, op) && op.RefreshGrant? && ReplyTo(w.store, cfg, op).Granted?
    ensures var h, w' := Sha256(op.presented), Step(w, cfg, op);
            && h in w'.exchanges && w'.exchanges[h].grant == ReplyTo(w.store, cfg, op).grant
            && w'.exchanges[h].client == op.client
  {
    hide Inv;
    ExchangeFacts(w, Sha256(op.presented));
  }

  lemma ExchangeFacts(w: World, h: Hash)
    requires Inv(w)
    ensures h in w.store.refresh ==> (w.store.refresh[h].used <==> h in w.exchanges)
    ensures h in w.store.refresh && w.store.refresh[h].replay.Some? ==>
        w.store.refresh[h].replay == Some(w.exchanges[h].grant)
    ensures h in w.store.refresh && h in w.exchanges ==>
              w.exchanges[h].client == w.store.refresh[h].client && w.exchanges[h].family == w.store.refresh[h].family
  {
  }

  // What is on record is never overwritten.
  lemma ExchangesKept(w: World, cfg: Config, op: Op)
    requires Inv(w) && Legal(w, op)
    ensures SubMap(w.exchanges, Step(w, cfg, op).exchanges)
  {
    hide Inv;
    if Rotates(w.store, op) {
      ExchangeFacts(w, Sha256(op.presented));
    }
  }

  // Every successful refresh reply of a run, with the token presented.
  ghost function Replies(w: World, cfg: Config, ops: seq<Op>): seq<(Hash, Grant)>
    decreases |ops|
  {
    if ops == [] then []
    else
      (if ops[0].RefreshGrant? && ReplyTo(w.store, cfg, ops[0]).Granted?
       then [(Sha256(ops[0].presented), ReplyTo(w.store, cfg, ops[0]).grant)] else [])
      + Replies(Step(w, cfg, ops[0]), cfg, ops[1..])
  }

  lemma {:induction false} RepliesRecorded(w: World, cfg: Config, ops: seq<Op>)
    requires Inv(w) && LegalRun(w, cfg, ops)
    ensures SubMap(w.exchanges, Run(w, cfg, ops).exchanges)
    ensures forall i :: 0 <= i < |Replies(w, cfg, ops)| ==>
              var r := Replies(w, cfg, ops)[i];
              r.0 in Run(w, cfg, ops).exchanges && Run(w, cfg, ops).exchanges[r.0].grant == r.1
    decreases |ops|
  {
    hide Inv, Step, Legal, ReplyTo;
    if ops != [] {
      var op := ops[0];
      StepInv(w, cfg, op);
      ExchangesKept(w, cfg, op);
      RepliesRecorded(Step(w, cfg, op), cfg, ops[1..]);
      if op.RefreshGrant? && ReplyTo(w.store, cfg, op).Granted? {
        ReplyRecorded(w, cfg, op);
      }
    }
  }

  // Over a whole run, however often a refresh token is presented, every pair it obtains
  // is the same pair.
  lemma ExchangedOnce(w: World, cfg: Config, ops: seq<Op>, i: nat, j: nat)
    requires Inv(w) && LegalRun(w, cfg, ops)
    requires i < |Replies(w, cfg, ops)| && j < |Replies(w, cfg, ops)|
    requires Replies(w, cfg, ops)[i].0 == Replies(w, cfg, ops)[j].0
    ensures Replies(w, cfg, ops)[i].1 == Replies(w, cfg, ops)[j].1
  {
    RepliesRecorded(w, cfg, ops);
  }

  // --- a retry inside the grace ----------------------------------------------------------

  // Presenting a rotated-out token while its pair is held returns that pair and changes nothing.
  lemma RetryChangesNothing(w: World, cfg: Config, op: Op)
    requires Inv(w) && op.RefreshGrant? && Sha256(op.presented) in w.store.refresh
    requires var rt := w.store.refresh[Sha256(op.presented)];
             rt.client == op.client && rt.used && op.now < rt.familyEnd && rt.replay.Some?
                 && op.now - rt.usedAt <= REFRESH_REUSE_GRACE
    ensures Sha256(op.presented) in w.exchanges
    ensures ReplyTo(w.store, cfg, op) == Granted(w.exchanges[Sha256(op.presented)].grant)
    ensures Step(w, cfg, op).store == w.store
  {
    hide Inv;
    ExchangeFacts(w, Sha256(op.presented));
  }

  // The pair is still held `REFRESH_REUSE_GRACE` seconds after the rotation, unless the
  // family was revoked, its end passed or the server restarted.
  ghost predicate Held(w: World, h: Hash, rt: Refresh) {
    h in w.store.refresh && w.store.refresh[h] == rt && rt.used && rt.replay.Some?
  }

  lemma HeldRefresh(w: World, cfg: Config, op: Op, h: Hash, rt: Refresh)
    requires Inv(w) && Legal(w, op) && Held(w, h, rt) && op.RefreshGrant?
    requires Latest(op, w.latest) <= rt.usedAt + REFRESH_REUSE_GRACE && Latest(op, w.latest) < rt.familyEnd
    requires rt.family !in Step(w, cfg, op).killed
    ensures Held(Step(w, cfg, op), h, rt)
  {
    hide Inv;
    RefreshFacts(w);
    IssuedFacts(w, h);
    var g := Sha256(op.presented);
    if Rotates(w.store, op) {
      assert Sha256(op.refresh) != h && g != h;
    } else if g in w.store.refresh && w.store.refresh[g].client == op.client && w.store.refresh[g].used
              && op.now < w.store.refresh[g].familyEnd {
      assert g == h ==> ReplyTo(w.store, cfg, op).Granted?;
    }
  }

  lemma HeldIssue(w: World, cfg: Config, op: Op, h: Hash, rt: Refresh)
    requires Inv(w) && Legal(w, op) && Held(w, h, rt) && (op.Issue? || op.IssueOAuth?)
    requires Latest(op, w.latest) <= rt.usedAt + REFRESH_REUSE_GRACE && Latest(op, w.latest) < rt.familyEnd
    requires rt.family !in Step(w, cfg, op).killed
    ensures Held(Step(w, cfg, op), h, rt)
  {
    hide Inv;
    RefreshFacts(w);
    IssuedFacts(w, h);
  }

  lemma HeldRevocation(w: World, cfg: Config, op: Op, h: Hash, rt: Refresh)
    requires Inv(w) && Legal(w, op) && Held(w, h, rt)
        && (op.RevokeFamily? || op.RevokeClient? || op.PruneUnknown? || op.Revoke? || op.RevokeNamed?)
    requires Latest(op, w.latest) <= rt.usedAt + REFRESH_REUSE_GRACE && Latest(op, w.latest) < rt.familyEnd
    requires rt.family !in Step(w, cfg, op).killed
    ensures Held(Step(w, cfg, op), h, rt)
  {
    hide Inv;
    RefreshFacts(w);
    IssuedFacts(w, h);
    if op.RevokeNamed? {
      RevokeNamedTokensOnly(w.store, op.prefix, op.client, op.now);
    }
  }

  lemma HeldStep(w: World, cfg: Config, op: Op, h: Hash, rt: Refresh)
    requires Inv(w) && Legal(w, op) && Held(w, h, rt) && !op.Restart?
    requires Latest(op, w.latest) <= rt.usedAt + REFRESH_REUSE_GRACE && Latest(op, w.latest) < rt.familyEnd
    requires rt.family !in Step(w, cfg, op).killed
    ensures Held(Step(w, cfg, op), h, rt)
  {
    hide Inv;
    RefreshFacts(w);
    IssuedFacts(w, h);
    if op.RefreshGrant? {
      HeldRefresh(w, cfg, op, h, rt);
    } else if op.Issue? || op.IssueOAuth? {
      HeldIssue(w, cfg, op, h, rt);
    } else if !op.Validate? && !op.Tidy? {
      HeldRevocation(w, cfg, op, h, rt);
    }
  }

  lemma RevokeNamedTokensOnly(s: Store, prefix: string, client: ClientId, now: real)
    ensures TokenModel.RevokeNamed(s, prefix, client, now).0.refresh == s.refresh
    ensures TokenModel.RevokeNamed(s, prefix, client, now).0.oauth == s.oauth
  {
  }

  lemma IssuedFacts(w: World, h: Hash)
    requires Inv(w) && (h in w.store.refresh || h in w.exchanges || h in w.store.oauth)
    ensures h.secret in w.issued
  {
  }

  // Rotating a token holds its pair.
  lemma RotationHolds(w: World, cfg: Config, op: Op)
    requires Inv(w) && Legal(w, op) && Rotates(w.store, op)
    requires Latest(op, w.latest) <= op.now + REFRESH_REUSE_GRACE
        && Latest(op, w.latest) <= w.store.refresh[Sha256(op.presented)].familyEnd
    ensures ReplyTo(w.store, cfg, op).Granted?
    ensures Held(Step(w, cfg, op), Sha256(op.presented),
                 w.store.refresh[Sha256(op.presented)].(
                   used := true, usedAt := op.now, expiresAt := w.store.refresh[Sha256(op.presented)].familyEnd,
                   replay := Some(ReplyTo(w.store, cfg, op).grant)))
  {
    hide Inv;
    IssuedFacts(w, Sha256(op.presented));
  }

  lemma {:induction false} HeldRun(w: World, cfg: Config, ops: seq<Op>, h: Hash, rt: Refresh)
    requires Inv(w) && LegalRun(w, cfg, ops) && Held(w, h, rt)
    requires forall i :: 0 <= i < |ops| ==> !ops[i].Restart?
    requires Run(w, cfg, ops).latest <= rt.usedAt + REFRESH_REUSE_GRACE && Run(w, cfg, ops).latest < rt.familyEnd
    requires rt.family !in Run(w, cfg, ops).killed
    ensures Held(Run(w, cfg, ops), h, rt)
    decreases |ops|
  {
    hide Inv;
    if ops != [] {
      var w1 := Step(w, cfg, ops[0]);
      StepInv(w, cfg, ops[0]);
      HistoryGrows(w1, cfg, ops[1..]);
      HeldStep(w, cfg, ops[0], h, rt);
      HeldRun(w1, cfg, ops[1..], h, rt);
    }
  }

  lemma {:induction false} HistoryGrows(w: World, cfg: Config, ops: seq<Op>)
    ensures w.latest <= Run(w, cfg, ops).latest && w.killed <= Run(w, cfg, ops).killed
    decreases |ops|
  {
    if ops != [] {
      HistoryGrows(Step(w, cfg, ops[0]), cfg, ops[1..]);
    }
  }

  // A client that rotates a token and, whatever happened since, presents the same token
  // again within the grace gets the pair of the first call and changes nothing: unless
  // the family was revoked or the server restarted in between.
  lemma RetryGetsSamePair(w: World, cfg: Config, first: Op, ops: seq<Op>, again: Op)
    requires Inv(w) && Legal(w, first) && Rotates(w.store, first)
    requires LegalRun(Step(w, cfg, first), cfg, ops)
    requires forall i :: 0 <= i < |ops| ==> !ops[i].Restart?
    requires again.RefreshGrant? && again.presented == first.presented && again.client == first.client
    requires var end := w.store.refresh[Sha256(first.presented)].familyEnd;
             var w' := Run(Step(w, cfg, first), cfg, ops);
             && w'.latest <= first.now + REFRESH_REUSE_GRACE && w'.latest < end
             && again.now <= first.now + REFRESH_REUSE_GRACE && again.now < end
             && w.store.refresh[Sha256(first.presented)].family !in w'.killed
    ensures var w' := Run(Step(w, cfg, first), cfg, ops);
            && ReplyTo(w.store, cfg, first).Granted?
            && ReplyTo(w'.store, cfg, again) == ReplyTo(w.store, cfg, first)
            && Step(w', cfg, again).store == w'.store
  {
    hide Inv;
    var w1 := Step(w, cfg, first);
    HistoryGrows(w1, cfg, ops);
    RotationHolds(w, cfg, first);
    StepInv(w, cfg, first);
    var rt := w1.store.refresh[Sha256(first.presented)];
    HeldRun(w1, cfg, ops, Sha256(first.presented), rt);
  }

  // --- reuse detection ---------------------------------------------------------------------

  // No token of family `f`, in memory or in the file.
  ghost predicate Gone(s: Store, f: FamilyId) {
    && (forall h :: h in s.refresh ==> s.refresh[h].family != f)
    && (forall h :: h in s.oauth ==> s.oauth[h].family != Some(f))
    && (forall h :: h in s.db.refresh ==> s.db.refresh[h].family != f)
    && (forall h :: h in s.db.oauth ==> s.db.oauth[h].family != Some(f))
  }

  // In any reachable state a rotated-out token of a sign-in that is neither revoked nor
  // over is still recognised: presenting it outside the grace is reported as reuse and
  // leaves nothing of the family behind.
  lemma ReuseDetected(w: World, cfg: Config, op: Op)
    requires Inv(w) && op.RefreshGrant? && Sha256(op.presented) in w.exchanges
    requires var x := w.exchanges[Sha256(op.presented)];
             && op.client == x.client && x.family !in w.killed && x.family in w.families
             && w.latest < w.families[x.family].end && op.now < w.families[x.family].end
    ensures var h, x := Sha256(op.presented), w.exchanges[Sha256(op.presented)];
            && h in w.store.refresh
            && if w.store.refresh[h].replay.Some? && op.now - w.store.refresh[h].usedAt <= REFRESH_REUSE_GRACE
               then ReplyTo(w.store, cfg, op) == Granted(x.grant) && Step(w, cfg, op).store == w.store
               else && ReplyTo(w.store, cfg, op) == Rejected(Reused, Some(x.family))
                    && Gone(Step(w, cfg, op).store, x.family) && x.family in Step(w, cfg, op).killed
  {
    hide Inv;
    var h := Sha256(op.presented);
    RememberedFact(w, h);
    RefreshFacts(w);
    ExchangeFacts(w, h);
  }

  lemma RememberedFact(w: World, h: Hash)
    requires Inv(w) && h in w.exchanges
    ensures w.exchanges[h].family in w.families
    ensures h in w.store.refresh || w.exchanges[h].family in w.killed
        || w.latest >= w.families[w.exchanges[h].family].end
  {
  }

  // A sign-in with no usable refresh token left.
  ghost predicate Closed(w: World, f: FamilyId) {
    f in w.families && forall h :: h in w.store.refresh && w.store.refresh[h].family == f ==> w.store.refresh[h].used
  }

  // The bearers of family `f` in `w'` were all there in `w`, with no later expiry.
  ghost predicate NoNewBearer(w: World, w': World, f: FamilyId) {
    && (forall h :: h in w'.store.oauth && w'.store.oauth[h].family == Some(f) ==>
          h in w.store.oauth && w.store.oauth[h].family == Some(f)
              && w'.store.oauth[h].expiresAt <= w.store.oauth[h].expiresAt)
    && (forall h :: h in w'.store.refresh && w'.store.refresh[h].family == f ==>
        h in w.store.refresh && w.store.refresh[h].family == f)
  }

  lemma ClosedIssue(w: World, cfg: Config, op: Op, f: FamilyId)
    requires Inv(w) && Legal(w, op) && Closed(w, f) && op.Issue?
    ensures Closed(Step(w, cfg, op), f) && NoNewBearer(w, Step(w, cfg, op), f)
  {
    hide Inv;
    IssueOnlyDrops(w.store, cfg, op.client, op.name, op.token, op.countNow, op.now, op.cleanNow);
    hide TokenModel.Issue;
  }

  // A dashboard bearer costs OAuth tokens nothing but what had expired.
  lemma IssueOnlyDrops(s: Store, cfg: Config, client: ClientId, name: Option<string>, token: Secret, countNow: real,
                       now: real, cleanNow: real)
    ensures var s' := TokenModel.Issue(s, cfg, client, name, token, countNow, now, cleanNow).0;
            && SubMap(s'.oauth, s.oauth)
            && forall h :: h in s'.refresh ==>
                 && h in s.refresh && s'.refresh[h].family == s.refresh[h].family
                 && s'.refresh[h].used == s.refresh[h].used
  {
    hide NamedOf;
  }

  lemma ClosedIssueOAuth(w: World, cfg: Config, op: Op, f: FamilyId)
    requires Inv(w) && Legal(w, op) && Closed(w, f) && op.IssueOAuth?
    ensures Closed(Step(w, cfg, op), f) && NoNewBearer(w, Step(w, cfg, op), f)
  {
    hide Inv;
  }

  // Rotating a token touches no row of another family.
  lemma RotateForeign(s: Store, cfg: Config, h: Hash, now: real, mintNow: real, access: Secret, refresh: Secret,
                      f: FamilyId)
    requires h in s.refresh && s.refresh[h].family != f
    ensures var s1 := Rotate(s, cfg, h, now, mintNow, access, refresh).0;
            && (forall g :: g in s1.refresh && s1.refresh[g].family == f ==>
                g in s.refresh && s1.refresh[g] == s.refresh[g])
            && (forall g :: g in s1.oauth && s1.oauth[g].family == Some(f) ==>
                g in s.oauth && s1.oauth[g] == s.oauth[g])
  {
  }

  lemma ClosedRotation(w: World, cfg: Config, op: Op, f: FamilyId)
    requires Inv(w) && Legal(w, op) && Closed(w, f) && Rotates(w.store, op)
    ensures Closed(Step(w, cfg, op), f) && NoNewBearer(w, Step(w, cfg, op), f)
  {
    hide Inv, Rotate;
    var h := Sha256(op.presented);
    RotateForeign(w.store, cfg, h, op.now, op.mintNow, op.access, op.refresh, f);
  }

  lemma ClosedRejection(w: World, cfg: Config, op: Op, f: FamilyId)
    requires Inv(w) && Legal(w, op) && Closed(w, f) && op.RefreshGrant? && !Rotates(w.store, op)
    ensures Closed(Step(w, cfg, op), f) && NoNewBearer(w, Step(w, cfg, op), f)
  {
    hide Inv;
  }

  lemma ClosedDrop(w: World, cfg: Config, op: Op, f: FamilyId)
    requires Inv(w) && Legal(w, op) && Closed(w, f) && (op.RevokeFamily? || op.RevokeClient? || op.PruneUnknown?)
    ensures Closed(Step(w, cfg, op), f) && NoNewBearer(w, Step(w, cfg, op), f)
  {
    hide Inv;
    match op {
      case RevokeFamily(g) => FamilyOnlyDrops(w.store, g);
      case RevokeClient(c) => ClientsOnlyDrop(w.store, {c});
      case PruneUnknown(known) => ClientsOnlyDrop(w.store, Holders(w.store) - known);
    }
    hide TokenModel.RevokeFamily, DropClients;
  }

  lemma FamilyOnlyDrops(s: Store, f: FamilyId)
    ensures SubMap(TokenModel.RevokeFamily(s, f).oauth, s.oauth)
        && SubMap(TokenModel.RevokeFamily(s, f).refresh, s.refresh)
  {
  }

  lemma ClientsOnlyDrop(s: Store, cs: set<ClientId>)
    ensures SubMap(DropClients(s, cs).oauth, s.oauth) && SubMap(DropClients(s, cs).refresh, s.refresh)
  {
  }

  lemma ClosedRevoke(w: World, cfg: Config, op: Op, f: FamilyId)
    requires Inv(w) && Legal(w, op) && Closed(w, f) && (op.Revoke? || op.RevokeNamed?)
    ensures Closed(Step(w, cfg, op), f) && NoNewBearer(w, Step(w, cfg, op), f)
  {
    hide Inv;
    if op.RevokeNamed? {
      RevokeNamedTokensOnly(w.store, op.prefix, op.client, op.now);
    } else {
      RevokeOnlyCuts(w.store, op.token, op.now);
    }
    hide TokenModel.RevokeNamed, TokenModel.Revoke;
  }

  lemma RevokeOnlyCuts(s: Store, token: Secret, now: real)
    ensures var s' := TokenModel.Revoke(s, token, now).0;
            && (forall h :: h in s'.oauth ==>
                  && h in s.oauth && s'.oauth[h].family == s.oauth[h].family
                  && s'.oauth[h].expiresAt <= s.oauth[h].expiresAt)
            && SubMap(s'.refresh, s.refresh)
  {
  }

  lemma ClosedRestart(w: World, cfg: Config, op: Op, f: FamilyId)
    requires Inv(w) && Closed(w, f) && op.Restart?
    ensures Closed(Step(w, cfg, op), f) && NoNewBearer(w, Step(w, cfg, op), f)
  {
    hide Inv;
    RestartSurvivors(w, op.now);
  }

  lemma ClosedStep(w: World, cfg: Config, op: Op, f: FamilyId)
    requires Inv(w) && Legal(w, op) && Closed(w, f)
    ensures Closed(Step(w, cfg, op), f) && NoNewBearer(w, Step(w, cfg, op), f)
  {
    hide Inv;
    if op.Issue? {
      ClosedIssue(w, cfg, op, f);
    } else if op.IssueOAuth? {
      ClosedIssueOAuth(w, cfg, op, f);
    } else if Rotates(w.store, op) {
      ClosedRotation(w, cfg, op, f);
    } else if op.RefreshGrant? {
      ClosedRejection(w, cfg, op, f);
    } else if op.Restart? {
      ClosedRestart(w, cfg, op, f);
    } else if op.Revoke? || op.RevokeNamed? {
      ClosedRevoke(w, cfg, op, f);
    } else if !op.Validate? && !op.Tidy? {
      ClosedDrop(w, cfg, op, f);
    }
  }

  // Once no usable refresh token of a sign-in is left, no later step of any run, restarts
  // included, creates a token in it or extends one.
  lemma {:induction false} ClosedForever(w: World, cfg: Config, ops: seq<Op>, f: FamilyId)
    requires Inv(w) && LegalRun(w, cfg, ops) && Closed(w, f)
    ensures Closed(Run(w, cfg, ops), f) && NoNewBearer(w, Run(w, cfg, ops), f)
    decreases |ops|
  {
    hide Inv;
    if ops != [] {
      var w1 := Step(w, cfg, ops[0]);
      ClosedStep(w, cfg, ops[0], f);
      StepInv(w, cfg, ops[0]);
      ClosedForever(w1, cfg, ops[1..], f);
    }
  }

  // A family emptied by reuse detection or revocation stays empty.
  lemma GoneForever(w: World, cfg: Config, ops: seq<Op>, f: FamilyId)
    requires Inv(w) && LegalRun(w, cfg, ops) && f in w.families && Gone(w.store, f)
    ensures Gone(Run(w, cfg, ops).store, f)
  {
    hide Inv;
    ClosedForever(w, cfg, ops, f);
    RunInv(w, cfg, ops);
    FileMirrors(Run(w, cfg, ops));
    MirrorRows(Run(w, cfg, ops));
  }

  // Ending a session revokes the presented bearer after its grace and closes its family,
  // but earlier bearers of that family keep their own expiry: `validate` answers for every
  // other token exactly as before.
  lemma EndSession(w: World, cfg: Config, token: Secret, now: real)
    requires Inv(w) && token !in w.store.tokens && Sha256(token) in w.store.oauth
    ensures var w' := Step(w, cfg, Op.Revoke(token, now));
            && (forall t :: Accepts(w'.store, token, t).Some? ==> t <= now + REVOKE_GRACE_SECONDS)
            && (w.store.oauth[Sha256(token)].family.Some? ==> Closed(w', w.store.oauth[Sha256(token)].family.value))
            && (forall other, t | other != token :: Accepts(w'.store, other, t) == Accepts(w.store, other, t))
  {
    hide Inv;
    if w.store.oauth[Sha256(token)].family.Some? {
      FamilyKnown(w, Sha256(token));
    }
  }

  // Every bearer of family `f` but `token` is refused after `deadline`.
  ghost predicate OthersEnd(s: Store, f: FamilyId, token: Secret, deadline: real) {
    forall other, t | other != token && Sha256(other) in s.oauth && s.oauth[Sha256(other)].family == Some(f)
        && t > deadline ::
      Accepts(s, other, t).None?
  }

  // When ending a session ends its whole family, as the comment on `family_id` promises:
  // exactly when every other bearer of the family expires within the grace anyway.
  lemma EndSessionEndsFamilyIff(w: World, cfg: Config, token: Secret, now: real)
    requires Inv(w) && token !in w.store.tokens && Sha256(token) in w.store.oauth
    requires w.store.oauth[Sha256(token)].family.Some?
    ensures var f := w.store.oauth[Sha256(token)].family;
            OthersEnd(Step(w, cfg, Op.Revoke(token, now)).store, f.value, token, now + REVOKE_GRACE_SECONDS) <==>
            forall h :: h in w.store.oauth && h != Sha256(token) && w.store.oauth[h].family == f ==>
              w.store.oauth[h].expiresAt <= now + REVOKE_GRACE_SECONDS
  {
    hide Inv;
    var f, deadline := w.store.oauth[Sha256(token)].family.value, now + REVOKE_GRACE_SECONDS;
    var s := Step(w, cfg, Op.Revoke(token, now)).store;
    RevokeSparesOthers(w.store, token, now);
    if h :| h in w.store.oauth && h != Sha256(token) && w.store.oauth[h].family == Some(f)
            && w.store.oauth[h].expiresAt > deadline {
      SeparateFact(w, h.secret);
      assert h == Sha256(h.secret) && Accepts(s, h.secret, w.store.oauth[h].expiresAt).Some?;
    } else {
      forall other, t | other != token && Sha256(other) in s.oauth && s.oauth[Sha256(other)].family == Some(f)
          && t > deadline
        ensures Accepts(s, other, t).None?
      {
        SeparateFact(w, other);
      }
    }
  }

  lemma RevokeSparesOthers(s: Store, token: Secret, now: real)
    requires token !in s.tokens && Sha256(token) in s.oauth
    ensures var s' := TokenModel.Revoke(s, token, now).0;
            && s'.tokens == s.tokens && s'.oauth.Keys == s.oauth.Keys
            && forall h :: h in s.oauth && h != Sha256(token) ==> s'.oauth[h] == s.oauth[h]
  {
  }

  // And it fails after an ordinary rotation: end the session with the new bearer, and the
  // bearer from before the rotation is still accepted until its own expiry.
  lemma OlderBearerOutlivesSession(w: World, cfg: Config, op: Op, older: Secret, now: real, t: real)
    requires Inv(w) && Legal(w, op) && Rotates(w.store, op)
    requires Sha256(older) in w.store.oauth
    requires var rt, a := w.store.refresh[Sha256(op.presented)], w.store.oauth[Sha256(older)];
             && a.family == Some(rt.family) && op.cleanNow <= a.expiresAt && t <= a.expiresAt
             && op.cleanNow <= op.mintNow + TOKEN_TTL && op.cleanNow <= rt.familyEnd
    ensures var w1 := Step(w, cfg, op);
            && Sha256(op.access) in w1.store.oauth
            && w1.store.oauth[Sha256(op.access)].family == w.store.oauth[Sha256(older)].family
            && Accepts(Step(w1, cfg, Op.Revoke(op.access, now)).store, older, t) == Some(op.client)
  {
    hide Inv, TokenModel.RefreshGrant;
    var w1 := Step(w, cfg, op);
    RotationBearers(w, cfg, op, older);
    StepInv(w, cfg, op);
    EndSession(w1, cfg, op.access, now);
    assert Accepts(w1.store, older, t) == Some(op.client);
  }

  // An ordinary session: a sign-in at 0 s, and its refresh at 10 s.
  function SignInOp(client: ClientId): Op {
    Op.IssueOAuth(client, Some("f"), "a1", "r1", 0.0, 0.0, 0.0)
  }

  function RefreshOp(client: ClientId): Op {
    Op.RefreshGrant("r1", client, "a2", "r2", 10.0, 10.0, 10.0)
  }

  function FirstAccess(client: ClientId): Access {
    Access(client, Some("f"), 86400.0, 0.0)
  }

  function FirstRefresh(cfg: Config, client: ClientId): Refresh {
    Refresh(client, "f", cfg.refreshTtl as real, 0.0, 86400.0, false, 0.0, None)
  }

  lemma SignedIn(cfg: Config, client: ClientId)
    requires ValidConfig(cfg)
    ensures var s := Apply(EMPTY, cfg, SignInOp(client));
            && s.tokens == map[] && s.oauth == map[Sha256("a1") := FirstAccess(client)]
            && s.refresh == map[Sha256("r1") := FirstRefresh(cfg, client)]
  {
    var minted := Mint(EMPTY, cfg, client, Some("f"), SESSION_LIFETIME, 0.0, "a1", "r1").0;
    assert minted.oauth == map[Sha256("a1") := FirstAccess(client)];
    assert minted.refresh == map[Sha256("r1") := FirstRefresh(cfg, client)];
    var s := Cleanup(minted, 0.0);
    assert s.tokens == map[];
    assert s.oauth == minted.oauth && s.refresh == minted.refresh;
  }

  lemma SignedInIssued(cfg: Config, client: ClientId)
    ensures Legal(Init(0.0), SignInOp(client)) && Step(Init(0.0), cfg, SignInOp(client)).issued == {"a1", "r1"}
    ensures Step(Init(0.0), cfg, SignInOp(client)).store == Apply(EMPTY, cfg, SignInOp(client))
  {
    hide Apply;
  }

  // The requires above are met by a session refreshed once: its first bearer is still accepted
  // an hour after the session was ended.
  lemma FirstBearerSurvives(cfg: Config, client: ClientId)
    requires ValidConfig(cfg) && cfg.refreshTtl >= 10
    ensures var ops := [SignInOp(client), RefreshOp(client), Op.Revoke("a2", 20.0)];
            LegalRun(Init(0.0), cfg, ops) && Accepts(Run(Init(0.0), cfg, ops).store, "a1", 3600.0) == Some(client)
  {
    hide Inv;
    var w0 := Init(0.0);
    var w1 := Step(w0, cfg, SignInOp(client));
    SignedIn(cfg, client);
    SignedInIssued(cfg, client);
    InitInv(0.0);
    StepInv(w0, cfg, SignInOp(client));
    hide Step, Apply, Accepts;
    OlderBearerOutlivesSession(w1, cfg, RefreshOp(client), "a1", 20.0, 3600.0);
    RunOfThree(w0, cfg, SignInOp(client), RefreshOp(client), Op.Revoke("a2", 20.0));
  }

  lemma RunOfThree(w: World, cfg: Config, a: Op, b: Op, c: Op)
    ensures var w1 := Step(w, cfg, a);
            var w2 := Step(w1, cfg, b);
            && Run(w, cfg, [a, b, c]) == Step(w2, cfg, c)
            && (LegalRun(w, cfg, [a, b, c]) <==> Legal(w, a) && Legal(w1, b) && Legal(w2, c))
  {
    hide Step, Legal;
    var w1 := Step(w, cfg, a);
    var w2 := Step(w1, cfg, b);
    assert [a, b, c][1..] == [b, c] && [b, c][1..] == [c] && [c][1..] == [];
    assert Run(w2, cfg, [c]) == Step(w2, cfg, c);
    assert Run(w1, cfg, [b, c]) == Run(w2, cfg, [c]);
    assert LegalRun(w2, cfg, [c]) <==> Legal(w2, c);
    assert LegalRun(w1, cfg, [b, c]) <==> Legal(w1, b) && LegalRun(w2, cfg, [c]);
  }

  lemma RotationBearers(w: World, cfg: Config, op: Op, older: Secret)
    requires Inv(w) && Legal(w, op) && Rotates(w.store, op)
    requires Sha256(older) in w.store.oauth
    requires var rt, a := w.store.refresh[Sha256(op.presented)], w.store.oauth[Sha256(older)];
             && a.family == Some(rt.family) && op.cleanNow <= a.expiresAt
             && op.cleanNow <= op.mintNow + TOKEN_TTL && op.cleanNow <= rt.familyEnd
    ensures var s1 := Step(w, cfg, op).store;
            && older != op.access && older !in s1.tokens && op.access !in s1.tokens
            && Sha256(op.access) in s1.oauth && s1.oauth[Sha256(op.access)].family
              == w.store.oauth[Sha256(older)].family
            && Sha256(older) in s1.oauth && s1.oauth[Sha256(older)] == w.store.oauth[Sha256(older)]
            && w.store.oauth[Sha256(older)].client == op.client
  {
    hide Inv;
    IssuedFacts(w, Sha256(older));
    TokenFacts(w, op.access);
    BearerFacts(w, older, Sha256(op.presented));
  }

  lemma TokenFacts(w: World, token: Secret)
    requires Inv(w) && token !in w.issued
    ensures token !in w.store.tokens
  {
  }

  lemma BearerFacts(w: World, token: Secret, h: Hash)
    requires Inv(w) && Sha256(token) in w.store.oauth && h in w.store.refresh
    requires w.store.oauth[Sha256(token)].family == Some(w.store.refresh[h].family)
    ensures w.store.oauth[Sha256(token)].client == w.store.refresh[h].client
    ensures token !in w.store.tokens
  {
  }

  // --- the file ------------------------------------------------------------------------------

  // At every point of every run the file holds memory minus the unnamed bearers and minus
  // the bearers inside their revocation grace.
  lemma FileIsMirror(start: real, cfg: Config, ops: seq<Op>)
    requires LegalRun(Init(start), cfg, ops)
    ensures var w := Run(Init(start), cfg, ops);
            && w.store.db.named == (map t | t in w.store.tokens && w.store.tokens[t].name.Some?
                                    && t !in w.revokedNamed :: w.store.tokens[t])
            && w.store.db.oauth == (map h | h in w.store.oauth && h !in w.revoked :: w.store.oauth[h])
            && w.store.db.refresh == (map h | h in w.store.refresh :: Row(w.store.refresh[h]))
            && (forall h :: h in w.revoked && h in w.store.oauth ==> w.store.oauth[h].expiresAt <= w.revoked[h])
            && (forall t :: t in w.revokedNamed && t in w.store.tokens ==>
                !Later(w.store.tokens[t].expiresAt, w.revokedNamed[t]))
  {
    InitInv(start);
    RunInv(Init(start), cfg, ops);
  }

  // A restart at `r` between any two operations: what the server accepts afterwards, at any
  // time, is what it accepted before, without the unnamed and the revoked bearers and what
  // had expired at `r`.
  lemma RestartAccepts(w: World, r: real, token: Secret, now: real)
    requires Inv(w)
    ensures var s, h := w.store, Sha256(token);
            Accepts(TokenModel.Restart(s.db, r), token, now) ==
            if token in s.tokens && (s.tokens[token].name.None? || token in w.revokedNamed
                                     || !Later(s.tokens[token].expiresAt, r)) then None
            else if token !in s.tokens && h in s.oauth && (h in w.revoked || s.oauth[h].expiresAt <= r) then None
            else Accepts(s, token, now)
  {
    hide Inv;
    RestartSurvivors(w, r);
    SeparateFact(w, token);
  }

  lemma SeparateFact(w: World, token: Secret)
    requires Inv(w)
    ensures token in w.store.tokens ==> Sha256(token) !in w.store.oauth
  {
  }

  // A restart never un-uses a refresh token: what is exchangeable afterwards was exchangeable
  // before, and a rotated-out token that had not expired is still known as rotated out.
  lemma RestartKeepsUsed(w: World, r: real, op: Op)
    requires Inv(w) && op.RefreshGrant?
    ensures Rotates(TokenModel.Restart(w.store.db, r), op) <==>
            Rotates(w.store, op) && w.store.refresh[Sha256(op.presented)].expiresAt > r
    ensures forall h :: h in w.store.refresh && w.store.refresh[h].used && r < w.store.refresh[h].familyEnd ==>
              h in TokenModel.Restart(w.store.db, r).refresh && TokenModel.Restart(w.store.db, r).refresh[h].used
  {
    hide Inv;
    RestartSurvivors(w, r);
    RefreshFacts(w);
  }

  // The cap on named tokens holds at every point of every run, in memory and in the file.
  lemma NamedCap(start: real, cfg: Config, ops: seq<Op>, client: ClientId)
    requires LegalRun(Init(start), cfg, ops)
    ensures |NamedOf(Run(Init(start), cfg, ops).store.tokens, client)| <= NAMED_TOKEN_CAP
    ensures |NamedOf(Run(Init(start), cfg, ops).store.db.named, client)| <= NAMED_TOKEN_CAP
  {
    InitInv(start);
    RunInv(Init(start), cfg, ops);
    var s := Run(Init(start), cfg, ops).store;
    SubsetSize(NamedOf(s.db.named, client), NamedOf(s.tokens, client));
  }
}
