/** The single-use, in-memory stores of the sign-in: approval tickets (`_issue_pending`,
    `_consume_pending`), authorization codes (`CodeStore`) and passkey challenges
    (`ChallengeStore`). Each pops what it is shown, whatever comes of it. */
module OneShotStores {
  import opened Prelude
  import opened TokenTypes

  const PENDING_AUTHORIZATION_TTL := 600.0
  const CODE_TTL := 60.0
  const CHALLENGE_TTL_SECONDS := 180.0

  /** A PKCE challenge: the S256 digest of some verifier, or any other text. */
  datatype Challenge = S256(verifier: string) | Text(text: string)

  datatype Params = Params(client: ClientId, redirect: string, challenge: Challenge, chMethod: string)

  datatype Timed<T> = Timed(value: T, expiresAt: real)

  predicate VerifyPkce(verifier: string, challenge: Challenge, chMethod: string) {
    && chMethod == "S256"
    && verifier != "" && challenge != Text("")
    && S256(verifier) == challenge
  }

  // Everything that has expired at `now` is gone.
  function Pruned<T>(m: map<string, Timed<T>>, now: real): map<string, Timed<T>> {
    map k | k in m && !(now > m[k].expiresAt) :: m[k]
  }

  lemma SweptExactly<T>(m: map<string, Timed<T>>, now: real, key: string)
    ensures key in Pruned(m, now) <==> key in m && now <= m[key].expiresAt
    ensures SubMap(Pruned(m, now), m)
  {
  }

  function Put<T>(m: map<string, Timed<T>>, key: string, value: T, ttl: real, now: real): map<string, Timed<T>> {
    m[key := Timed(value, now + ttl)]
  }

  // --- tickets -----------------------------------------------------------------

  function IssueTicket(m: map<string, Timed<Params>>, ticket: string, params: Params, pruneNow: real,
                       now: real): map<string, Timed<Params>>
  {
    Put(Pruned(m, pruneNow), ticket, params, PENDING_AUTHORIZATION_TTL, now)
  }

  function ConsumeTicket(m: map<string, Timed<Params>>, ticket: string, pruneNow: real,
                         now: real): (map<string, Timed<Params>>, Option<Params>)
  {
    var live := Pruned(m, pruneNow);
    (live - {ticket}, if ticket in live && now <= live[ticket].expiresAt then Some(live[ticket].value) else None)
  }

  // --- codes -------------------------------------------------------------------

  function IssueCode(m: map<string, Timed<Params>>, code: string, params: Params, now: real,
                     cleanNow: real): map<string, Timed<Params>>
  {
    Pruned(Put(m, code, params, CODE_TTL, now), cleanNow)
  }

  predicate Redeems(m: map<string, Timed<Params>>, code: string, client: ClientId, redirect: string, verifier: string,
                    now: real)
  {
    && code in m
    && !(now > m[code].expiresAt)
    && m[code].value.client == client
    && m[code].value.redirect == redirect
    && VerifyPkce(verifier, m[code].value.challenge, m[code].value.chMethod)
  }

  // --- challenges ----------------------------------------------------------------

  datatype Purpose = Register | Authenticate
  datatype Ceremony = Ceremony(purpose: Purpose, client: ClientId)

  function IssueChallenge(m: map<string, Timed<Ceremony>>, state: string, c: Ceremony, pruneNow: real,
                          now: real): map<string, Timed<Ceremony>>
  {
    Put(Pruned(m, pruneNow), state, c, CHALLENGE_TTL_SECONDS, now)
  }

  function ConsumeChallenge(m: map<string, Timed<Ceremony>>, state: string, purpose: Purpose, pruneNow: real, now: real)
    : (map<string, Timed<Ceremony>>, Option<Ceremony>)
  {
    var live := Pruned(m, pruneNow);
    (live - {state},
     if state in live && live[state].value.purpose == purpose && !(now > live[state].expiresAt)
       then Some(live[state].value) else None)
  }

  // --- single use, over runs ---------------------------------------------------------

  /** What may happen to a store between two presentations of a key: anything is issued (with
      the store swept before or after), anything is popped, or it is only swept. */
  datatype Event<T> =
    | Issued(key: string, value: T, ttl: real, before: real, now: real, after: real)
    | Popped(key: string)
    | Swept(now: real)

  function Happened<T>(m: map<string, Timed<T>>, e: Event<T>): map<string, Timed<T>> {
    match e
    case Issued(key, value, ttl, before, now, after) => Pruned(Put(Pruned(m, before), key, value, ttl, now), after)
    case Popped(key) => m - {key}
    case Swept(now) => Pruned(m, now)
  }

  function AfterAll<T>(m: map<string, Timed<T>>, events: seq<Event<T>>): map<string, Timed<T>>
    decreases |events|
  {
    if events == [] then m else AfterAll(Happened(m, events[0]), events[1..])
  }

  predicate NeverIssued<T>(key: string, events: seq<Event<T>>) {
    forall i :: 0 <= i < |events| ==> !(events[i].Issued? && events[i].key == key)
  }

  lemma {:induction false} StaysGone<T>(m: map<string, Timed<T>>, events: seq<Event<T>>, key: string)
    requires key !in m && NeverIssued(key, events)
    ensures key !in AfterAll(m, events)
    decreases |events|
  {
    if events != [] {
      assert !(events[0].Issued? && events[0].key == key);
      StaysGone(Happened(m, events[0]), events[1..], key);
    }
  }

  // A ticket that was presented, accepted or not, is refused whenever it is presented again,
  // whatever the store went through, until it is issued again.
  lemma TicketSpent(m: map<string, Timed<Params>>, ticket: string, p0: real, n0: real,
                    events: seq<Event<Params>>, p1: real, n1: real)
    requires NeverIssued(ticket, events)
    ensures ConsumeTicket(AfterAll(ConsumeTicket(m, ticket, p0, n0).0, events), ticket, p1, n1).1 == None
  {
    StaysGone(ConsumeTicket(m, ticket, p0, n0).0, events, ticket);
  }

  lemma CodeSpent(m: map<string, Timed<Params>>, code: string, events: seq<Event<Params>>,
                  client: ClientId, redirect: string, verifier: string, now: real)
    requires NeverIssued(code, events)
    ensures !Redeems(AfterAll(m - {code}, events), code, client, redirect, verifier, now)
  {
    StaysGone(m - {code}, events, code);
  }

  lemma ChallengeSpent(m: map<string, Timed<Ceremony>>, state: string, a: Purpose, p0: real, n0: real,
                       events: seq<Event<Ceremony>>, b: Purpose, p1: real, n1: real)
    requires NeverIssued(state, events)
    ensures ConsumeChallenge(AfterAll(ConsumeChallenge(m, state, a, p0, n0).0, events), state, b, p1, n1).1 == None
  {
    StaysGone(ConsumeChallenge(m, state, a, p0, n0).0, events, state);
  }

  // --- good until its time, over runs --------------------------------------------------

  // Nothing issues or pops `key` again, and no sweep comes after `until`.
  ghost predicate LeftAlone<T>(key: string, events: seq<Event<T>>, until: real) {
    forall i :: 0 <= i < |events| ==>
      match events[i]
      case Issued(k, _, _, before, _, after) => k != key && before <= until && after <= until
      case Popped(k) => k != key
      case Swept(now) => now <= until
  }

  lemma {:induction false} StaysHeld<T>(m: map<string, Timed<T>>, events: seq<Event<T>>, key: string)
    requires key in m && LeftAlone(key, events, m[key].expiresAt)
    ensures key in AfterAll(m, events) && AfterAll(m, events)[key] == m[key]
    decreases |events|
  {
    if events != [] {
      var until := m[key].expiresAt;
      assert match events[0]
             case Issued(k, _, _, before, _, after) => k != key && before <= until && after <= until
             case Popped(k) => k != key
             case Swept(now) => now <= until;
      assert LeftAlone(key, events[1..], until);
      StaysHeld(Happened(m, events[0]), events[1..], key);
    }
  }

  // A ticket not presented in between gives back what it was issued for, up to 600 s later.
  lemma TicketHonoured(m: map<string, Timed<Params>>, ticket: string, params: Params, p0: real, n0: real,
                       events: seq<Event<Params>>, p1: real, n1: real)
    requires LeftAlone(ticket, events, n0 + 600.0)
    ensures ConsumeTicket(AfterAll(IssueTicket(m, ticket, params, p0, n0), events), ticket, p1, n1).1
         == if p1 <= n0 + 600.0 && n1 <= n0 + 600.0 then Some(params) else None
  {
    StaysHeld(IssueTicket(m, ticket, params, p0, n0), events, ticket);
  }

  // A code not presented in between is good for 60 s, for its client, its redirect and the verifier
  // whose digest it was issued for, and for nothing else.
  lemma CodeHonoured(m: map<string, Timed<Params>>, code: string, params: Params, n0: real, clean: real,
                     events: seq<Event<Params>>, client: ClientId, redirect: string, verifier: string, now: real)
    requires clean <= n0 + 60.0 && LeftAlone(code, events, n0 + 60.0)
    ensures Redeems(AfterAll(IssueCode(m, code, params, n0, clean), events), code, client, redirect, verifier, now)
       <==> && now <= n0 + 60.0 && client == params.client && redirect == params.redirect
            && params.chMethod == "S256" && params.challenge == S256(verifier) && verifier != ""
  {
    StaysHeld(IssueCode(m, code, params, n0, clean), events, code);
  }

  // A passkey challenge not answered in between is good for 180 s, for the ceremony it was made for.
  lemma ChallengeHonoured(m: map<string, Timed<Ceremony>>, state: string, c: Ceremony, p0: real, n0: real,
                          events: seq<Event<Ceremony>>, purpose: Purpose, p1: real, n1: real)
    requires LeftAlone(state, events, n0 + 180.0)
    ensures ConsumeChallenge(AfterAll(IssueChallenge(m, state, c, p0, n0), events), state, purpose, p1, n1).1
         == if p1 <= n0 + 180.0 && n1 <= n0 + 180.0 && purpose == c.purpose then Some(c) else None
  {
    StaysHeld(IssueChallenge(m, state, c, p0, n0), events, state);
  }

  class Store<T> {
    var items: map<string, Timed<T>>

    constructor ()
      ensures items == map[]
    {
      items := map[];
    }

    // `_prune_pending`, `_cleanup`, `_prune_locked`.
    method Prune(now: real)
      modifies this
      ensures items == Pruned(old(items), now)
    {
      var expired := set k | k in items && now > items[k].expiresAt;
      ghost var all := expired;
      while expired != {}
        invariant expired <= all
        invariant items == old(items) - (all - expired)
      {
        var k :| k in expired;
        items := items - {k};
        expired := expired - {k};
      }
      assert items == Pruned(old(items), now);
    }

    method Pop(key: string) returns (item: Option<Timed<T>>)
      modifies this
      ensures items == old(items) - {key}
      ensures item == if key in old(items) then Some(old(items)[key]) else None
    {
      item := if key in items then Some(items[key]) else None;
      items := items - {key};
    }
  }

  method IssuePending(tickets: Store<Params>, ticket: string, params: Params, pruneNow: real, now: real)
    modifies tickets
    ensures tickets.items == IssueTicket(old(tickets.items), ticket, params, pruneNow, now)
  {
    tickets.Prune(pruneNow);
    tickets.items := tickets.items[ticket := Timed(params, now + PENDING_AUTHORIZATION_TTL)];
  }

  method ConsumePending(tickets: Store<Params>, ticket: string, pruneNow: real, now: real)
    returns (params: Option<Params>)
    modifies tickets
    ensures (tickets.items, params) == ConsumeTicket(old(tickets.items), ticket, pruneNow, now)
  {
    tickets.Prune(pruneNow);
    var entry := tickets.Pop(ticket);
    params := if entry.Some? && now <= entry.value.expiresAt then Some(entry.value.value) else None;
  }

  method AddCode(codes: Store<Params>, code: string, params: Params, now: real, cleanNow: real)
    modifies codes
    ensures codes.items == IssueCode(old(codes.items), code, params, now, cleanNow)
  {
    codes.items := codes.items[code := Timed(params, now + CODE_TTL)];
    codes.Prune(cleanNow);
  }

  method ConsumeCode(codes: Store<Params>, code: string, client: ClientId, redirect: string, verifier: string,
                     now: real)
    returns (ok: bool)
    modifies codes
    ensures codes.items == old(codes.items) - {code}
    ensures ok == Redeems(old(codes.items), code, client, redirect, verifier, now)
  {
    var entry := codes.Pop(code);
    if entry.None? { return false; }
    if now > entry.value.expiresAt { return false; }
    var p := entry.value.value;
    if p.client != client { return false; }
    if p.redirect != redirect { return false; }
    return VerifyPkce(verifier, p.challenge, p.chMethod);
  }

  method AddChallenge(challenges: Store<Ceremony>, state: string, c: Ceremony, pruneNow: real, now: real)
    modifies challenges
    ensures challenges.items == IssueChallenge(old(challenges.items), state, c, pruneNow, now)
  {
    challenges.Prune(pruneNow);
    challenges.items := challenges.items[state := Timed(c, now + CHALLENGE_TTL_SECONDS)];
  }

  method TakeChallenge(challenges: Store<Ceremony>, state: string, purpose: Purpose, pruneNow: real, now: real)
    returns (c: Option<Ceremony>)
    modifies challenges
    ensures (challenges.items, c) == ConsumeChallenge(old(challenges.items), state, purpose, pruneNow, now)
  {
    challenges.Prune(pruneNow);
    var item := challenges.Pop(state);
    if item.None? || item.value.value.purpose != purpose { return None; }
    if now > item.value.expiresAt { return None; }
    return Some(item.value.value);
  }
}
