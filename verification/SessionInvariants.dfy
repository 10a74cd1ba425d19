/** What every step of the sessions machine keeps, and what it keeps while no cookie was put at stake. */
module SessionInvariants {
  import opened Faults
  import opened Options
  import opened R = RefreshTokens
  import opened Sessions    // and with it its abbreviation A of ApiClient

  // ---------- In every reached state ----------

  ghost predicate ApisOk(clients: map<nat, Browser>) {
    forall c | c in clients :: A.Inv(clients[c].api)
  }

  predicate Awaits(clients: map<nat, Browser>, call: Call) {
    call.client in clients && call.refresh in clients[call.client].api.fetching
  }

  /** What a client waits for is under way; a call under way may have lost its client. */
  ghost predicate Flying(clients: map<nat, Browser>, flights: Flights) {
    && (forall call | Awaits(clients, call) :: call in flights)
    && (forall call | call in flights ::
          call.client in clients && call.refresh < clients[call.client].api.nextRefresh)
  }

  predicate FlightSane(flight: Flight, tokens: Table) {
    match flight
    case Sent(_) => true
    case Found(tok) => tok in tokens
    case Rotating(tok) => tok in tokens && tokens[tok].revoked
    case Answer(retired, _, _) => retired.Some? ==> retired.value in tokens && tokens[retired.value].revoked
  }

  /** A token that a call rotates is revoked first. */
  ghost predicate Sane(tokens: Table, flights: Flights) {
    forall call | call in flights :: FlightSane(flights[call], tokens)
  }

  // ---------- While no cookie was put at stake ----------

  predicate HeldBy(tokens: Table, holders: map<Tok, nat>, tok: Tok, c: nat) {
    tok in tokens && tok in holders && holders[tok] == c
  }

  predicate LiveFor(tokens: Table, holders: map<Tok, nat>, tok: Tok, c: nat) {
    HeldBy(tokens, holders, tok, c) && !tokens[tok].revoked
  }

  predicate Expired(tokens: Table, tok: Tok, now: int) {
    tok in tokens && tokens[tok].expiresAt < now
  }

  /** `awaited` is whether the client still waits for the call, and `cookie` what it has. */
  predicate FlightOk(c: nat, flight: Flight, awaited: bool, cookie: Option<Tok>,
                     tokens: Table, holders: map<Tok, nat>, now: int) {
    match flight
    case Sent(sent) =>
      sent.Some? ==>
        LiveFor(tokens, holders, sent.value, c) && (awaited || cookie != sent || Expired(tokens, sent.value, now))
    case Found(tok) => LiveFor(tokens, holders, tok, c) && (awaited || cookie != Some(tok))
    case Rotating(tok) => HeldBy(tokens, holders, tok, c) && (awaited || cookie != Some(tok))
    case Answer(retired, change, _) =>
      && (change.Set? ==>
            retired.Some? && LiveFor(tokens, holders, change.tok, c) && cookie != Some(change.tok))
      && (retired.Some? ==>
            HeldBy(tokens, holders, retired.value, c) && ((awaited && change.Set?) || cookie != retired))
  }

  ghost predicate FlightsOk(clients: map<nat, Browser>, flights: Flights, tokens: Table, holders: map<Tok, nat>,
                            now: int) {
    forall call | call in flights ::
      FlightOk(call.client, flights[call], Awaits(clients, call), CookieOf(clients, call.client), tokens, holders, now)
  }

  /** The token that a call carries, or has been issued. */
  predicate Uses(flight: Flight, tok: Tok) {
    match flight
    case Sent(cookie) => cookie == Some(tok)
    case Found(t) => t == tok
    case Rotating(t) => t == tok
    case Answer(_, change, _) => change == Set(tok)
  }

  /** No token is carried by two calls, unless it has expired and neither has been looked up. */
  ghost predicate OneUse(flights: Flights, tokens: Table, now: int) {
    forall a, b, tok | Carries(flights, a, tok) && Carries(flights, b, tok) && a != b ::
      flights[a].Sent? && Expired(tokens, tok, now)
  }

  predicate Carries(flights: Flights, call: Call, tok: Tok) { call in flights && Uses(flights[call], tok) }

  /** The call is replacing this token. */
  predicate Replaces(flights: Flights, call: Call, tok: Tok) {
    call in flights
    && (flights[call] == Rotating(tok)
        || (flights[call].Answer? && flights[call].retired == Some(tok) && flights[call].change.Set?))
  }

  /** A client's cookie is a live token of its own, or a refresh it waits for is replacing it. */
  ghost predicate CookieOk(c: nat, client: Browser, tokens: Table, holders: map<Tok, nat>, flights: Flights) {
    client.cookie.Some? ==>
      && HeldBy(tokens, holders, client.cookie.value, c)
      && (tokens[client.cookie.value].revoked ==>
            exists r: nat :: r in client.api.fetching && Replaces(flights, Call(c, r), client.cookie.value))
  }

  ghost predicate CookiesOk(clients: map<nat, Browser>, tokens: Table, holders: map<Tok, nat>, flights: Flights) {
    forall c | c in clients :: CookieOk(c, clients[c], tokens, holders, flights)
  }

  /** Nobody has the token yet: it is on its way to the client that logged in. */
  ghost predicate Unseen(tok: Tok, clients: map<nat, Browser>, flights: Flights) {
    && (forall c | c in clients :: clients[c].cookie != Some(tok))
    && (forall call | call in flights :: !Uses(flights[call], tok))
  }

  ghost predicate LoginsOk(tokens: Table, holders: map<Tok, nat>, clients: map<nat, Browser>, flights: Flights,
                           logins: map<nat, Login>) {
    && (forall n | n in logins :: LiveFor(tokens, holders, logins[n].tok, logins[n].client))
    && (forall n | n in logins :: Unseen(logins[n].tok, clients, flights))
    && (forall m, n | m in logins && n in logins && logins[m].tok == logins[n].tok :: m == n)
  }

  ghost predicate Healthy(s: Session) {
    && s.reuses == 0
    && FlightsOk(s.clients, s.flights, s.tokens, s.holders, s.now)
    && OneUse(s.flights, s.tokens, s.now)
    && CookiesOk(s.clients, s.tokens, s.holders, s.flights)
    && LoginsOk(s.tokens, s.holders, s.clients, s.flights, s.logins)
  }

  /** What holds in every reached state. */
  ghost predicate Sound(s: Session) {
    ApisOk(s.clients) && Flying(s.clients, s.flights) && Sane(s.tokens, s.flights)
  }

  ghost predicate Inv(s: Session) {
    Sound(s) && (s.losses == 0 ==> Healthy(s))
  }

  // ---------- The clients' own state ----------

  lemma RequestApi(s: Session, c: nat, a: A.Label)
    requires ApisOk(s.clients) && CanStep(s, Request(c, a))
    ensures
      var api, next := s.clients[c].api, A.Apply(s.clients[c].api, a);
      && A.Inv(next)
      && (next.nextRefresh == api.nextRefresh ==> next.fetching == api.fetching)
      && (next.nextRefresh != api.nextRefresh ==>
            api.fetching == {} && next.fetching == {api.nextRefresh} && next.nextRefresh == api.nextRefresh + 1)
  {
    assert A.Inv(s.clients[c].api);
    A.InvStep(s.clients[c].api, a);
  }

  lemma ApiMoves(clients: map<nat, Browser>, c: nat, a: A.Label, cookie: Option<Tok>)
    requires ApisOk(clients) && c in clients && A.Enabled(clients[c].api, a)
    ensures ApisOk(clients[c := clients[c].(cookie := cookie, api := A.Apply(clients[c].api, a))])
  {
    A.InvStep(clients[c].api, a);
  }

  lemma RequestApis(s: Session, c: nat, a: A.Label)
    requires ApisOk(s.clients) && c in s.clients && A.Enabled(s.clients[c].api, a)
    ensures ApisOk(Requesting(s, c, A.Apply(s.clients[c].api, a)).clients)
  {
    ApiMoves(s.clients, c, a, s.clients[c].cookie);
  }

  lemma SignedOnApis(s: Session, n: nat, access: A.AccessToken)
    requires ApisOk(s.clients) && CanStep(s, SignOnDone(n, access))
    ensures ApisOk(SignedOn(s, n, access).clients)
  {
    ApiMoves(s.clients, s.logins[n].client, A.SignIn(access), Some(s.logins[n].tok));
  }

  lemma HearApis(s: Session, call: Call, cookie: Option<Tok>, outcome: Option<A.AccessToken>)
    requires ApisOk(s.clients) && Awaited(s, call)
    ensures ApisOk(Hear(s, call, cookie, outcome).clients)
  {
    ApiMoves(s.clients, call.client, A.Settled(call.refresh, outcome), cookie);
  }

  /** The server's steps change no client. */
  lemma ServerApis(s: Session, l: Label)
    requires CanStep(s, l) && (l.Tick? || l.SignOn? || l.SignOnLost? || l.Lookup? || l.Rotate? || l.Issue?)
    ensures Step(s, l).clients == s.clients
  {
  }

  lemma ApisStep(s: Session, l: Label)
    requires ApisOk(s.clients) && CanStep(s, l)
    ensures ApisOk(Step(s, l).clients)
  {
    match l
    case Join(_, _) =>
    case SignOnDone(n, access) => SignedOnApis(s, n, access);
    case Request(c, a) => RequestApis(s, c, a);
    case Deliver(call, access, parsed) =>
      HearApis(s, call, ApplyChange(s.clients[call.client].cookie, s.flights[call].change),
               if s.flights[call].ok && parsed then Some(access) else None);
    case Lose(call) => HearApis(s, call, s.clients[call.client].cookie, None);
    case _ => ServerApis(s, l);
  }

  // ---------- Calls and their clients ----------

  lemma RequestFlying(s: Session, c: nat, a: A.Label)
    requires ApisOk(s.clients) && Flying(s.clients, s.flights) && CanStep(s, Request(c, a))
    ensures
      var t := Requesting(s, c, A.Apply(s.clients[c].api, a));
      Flying(t.clients, t.flights)
  {
    RequestApi(s, c, a);
    var t := Requesting(s, c, A.Apply(s.clients[c].api, a));
    forall call | Awaits(t.clients, call) ensures call in t.flights {
      assert Awaits(s.clients, call) || call == Call(c, s.clients[c].api.nextRefresh);
    }
  }

  /** A call is heard of: it is awaited no longer, and stays only if the server has not answered. */
  lemma HearFlying(s: Session, call: Call, cookie: Option<Tok>, outcome: Option<A.AccessToken>, gone: bool)
    requires Flying(s.clients, s.flights) && Awaited(s, call)
    ensures Flying(Hear(s, call, cookie, outcome).clients, if gone then s.flights - {call} else s.flights)
  {
    var t := Hear(s, call, cookie, outcome);
    forall other | Awaits(t.clients, other) ensures other in s.flights && other != call {
      assert Awaits(s.clients, other);
    }
  }

  lemma ServerFlying(s: Session, l: Label)
    requires Flying(s.clients, s.flights) && CanStep(s, l) && (l.Lookup? || l.Rotate? || l.Issue?)
    ensures Step(s, l).clients == s.clients && Step(s, l).flights.Keys == s.flights.Keys
    ensures Flying(Step(s, l).clients, Step(s, l).flights)
  {
    ServerApis(s, l);
    match l
    case Lookup(call, ok, family) => LookupMovesOne(s, call, ok, family);
    case Rotate(_, _) =>
    case Issue(_, _, _) =>
  }

  lemma LookupMovesOne(s: Session, call: Call, ok: bool, family: bool)
    requires AtSent(s, call)
    ensures
      var t := LookedUp(s, call, ok, family);
      t.flights.Keys == s.flights.Keys && t.flights == s.flights[call := t.flights[call]] && t.losses == s.losses
  {
  }

  lemma JoinFlying(clients: map<nat, Browser>, flights: Flights, c: nat, user: nat)
    requires Flying(clients, flights) && c !in clients
    ensures Flying(clients[c := Browser(user, A.Init(None), None)], flights)
  {
    var after := clients[c := Browser(user, A.Init(None), None)];
    forall call | Awaits(after, call) ensures call in flights {
      assert Awaits(clients, call);
    }
  }

  lemma SignedOnFlying(s: Session, n: nat, access: A.AccessToken)
    requires Flying(s.clients, s.flights) && CanStep(s, SignOnDone(n, access))
    ensures Flying(SignedOn(s, n, access).clients, s.flights)
  {
    forall call | Awaits(SignedOn(s, n, access).clients, call) ensures call in s.flights {
      assert Awaits(s.clients, call);
    }
  }

  lemma FlyingStep(s: Session, l: Label)
    requires ApisOk(s.clients) && Flying(s.clients, s.flights) && CanStep(s, l)
    ensures Flying(Step(s, l).clients, Step(s, l).flights)
  {
    match l
    case Join(c, user) => JoinFlying(s.clients, s.flights, c, user);
    case SignOnDone(n, access) => SignedOnFlying(s, n, access);
    case Request(c, a) => RequestFlying(s, c, a);
    case Deliver(call, access, parsed) =>
      HearFlying(s, call, ApplyChange(s.clients[call.client].cookie, s.flights[call].change),
                 if s.flights[call].ok && parsed then Some(access) else None, true);
    case Lose(call) => HearFlying(s, call, s.clients[call.client].cookie, None, s.flights[call].Answer?);
    case Tick(_) =>
    case SignOn(_, _, _) =>
    case SignOnLost(_) =>
    case _ => ServerFlying(s, l);
  }

  // ---------- Tokens are revoked before they are rotated ----------

  /** Tokens stay, and no revocation is taken back; new ones may come. */
  ghost predicate Grown(before: Table, after: Table) {
    forall tok | tok in before :: tok in after && (before[tok].revoked ==> after[tok].revoked)
  }

  lemma SaneKept(tokens: Table, flights: Flights, after: Table, moved: Flights, call: Call)
    requires Sane(tokens, flights) && Grown(tokens, after)
    requires forall other | other in moved && other != call :: other in flights && moved[other] == flights[other]
    requires call in moved ==> FlightSane(moved[call], after)
    ensures Sane(after, moved)
  {
    forall other | other in moved ensures FlightSane(moved[other], after) {
      if other != call { assert FlightSane(flights[other], tokens); }
    }
  }

  lemma FamilyGrows(tokens: Table, user: nat)
    ensures Grown(tokens, RevokeForUser(tokens, user))
  {
  }

  lemma LookupGrows(s: Session, call: Call, ok: bool, family: bool)
    requires AtSent(s, call)
    ensures Grown(s.tokens, LookedUp(s, call, ok, family).tokens)
  {
    var cookie := s.flights[call].cookie;
    if cookie.Some? && cookie.value in s.tokens { FamilyGrows(s.tokens, s.tokens[cookie.value].user); }
  }

  lemma LookupSane(s: Session, call: Call, ok: bool, family: bool)
    requires Sane(s.tokens, s.flights) && AtSent(s, call)
    ensures Sane(LookedUp(s, call, ok, family).tokens, LookedUp(s, call, ok, family).flights)
  {
    LookupMovesOne(s, call, ok, family);
    LookupGrows(s, call, ok, family);
    SaneKept(s.tokens, s.flights, LookedUp(s, call, ok, family).tokens, LookedUp(s, call, ok, family).flights, call);
  }

  lemma RotateSane(s: Session, call: Call, fault: Fault)
    requires Sane(s.tokens, s.flights) && AtFound(s, call)
    ensures Sane(Rotated(s, call, fault).tokens, Rotated(s, call, fault).flights)
  {
    SaneKept(s.tokens, s.flights, Rotated(s, call, fault).tokens, Rotated(s, call, fault).flights, call);
  }

  lemma IssueSane(s: Session, call: Call, tok: Tok, fault: Fault)
    requires Sane(s.tokens, s.flights) && AtRotating(s, call) && tok !in s.tokens
    ensures Sane(Issued(s, call, tok, fault).tokens, Issued(s, call, tok, fault).flights)
  {
    assert FlightSane(s.flights[call], s.tokens);
    SaneKept(s.tokens, s.flights, Issued(s, call, tok, fault).tokens, Issued(s, call, tok, fault).flights, call);
  }

  lemma RequestSane(s: Session, c: nat, api: A.State)
    requires Sane(s.tokens, s.flights) && c in s.clients
    ensures Sane(Requesting(s, c, api).tokens, Requesting(s, c, api).flights)
  {
    SaneKept(s.tokens, s.flights, s.tokens, Requesting(s, c, api).flights, Call(c, s.clients[c].api.nextRefresh));
  }

  lemma HearingSane(s: Session, l: Label)
    requires Sane(s.tokens, s.flights) && CanStep(s, l) && (l.Deliver? || l.Lose?)
    ensures Sane(Step(s, l).tokens, Step(s, l).flights)
  {
  }

  lemma SaneStep(s: Session, l: Label)
    requires Sane(s.tokens, s.flights) && CanStep(s, l)
    ensures Sane(Step(s, l).tokens, Step(s, l).flights)
  {
    match l
    case SignOn(c, n, tok) =>
      SaneKept(s.tokens, s.flights, SigningOn(s, c, n, tok).tokens, s.flights, Call(c, 0));
    case Request(c, a) => RequestSane(s, c, A.Apply(s.clients[c].api, a));
    case Lookup(call, ok, family) => LookupSane(s, call, ok, family);
    case Rotate(call, fault) => RotateSane(s, call, fault);
    case Issue(call, tok, fault) => IssueSane(s, call, tok, fault);
    case Deliver(_, _, _) => HearingSane(s, l);
    case Lose(_) => HearingSane(s, l);
    case _ =>
  }

  lemma SoundStep(s: Session, l: Label)
    requires Sound(s) && CanStep(s, l)
    ensures Sound(Step(s, l))
  {
    ApisStep(s, l);
    FlyingStep(s, l);
    SaneStep(s, l);
  }

  // ---------- Health: the page's steps ----------

  /** What has expired stays so. */
  lemma OneUseKept(flights: Flights, tokens: Table, now: int, after: Table, later: int)
    requires OneUse(flights, tokens, now)
    requires forall tok | Expired(tokens, tok, now) :: Expired(after, tok, later)
    ensures OneUse(flights, after, later)
  {
    forall a, b, tok | Carries(flights, a, tok) && Carries(flights, b, tok) && a != b
      ensures flights[a].Sent? && Expired(after, tok, later)
    {
      assert Expired(tokens, tok, now);
    }
  }

  lemma TickHealthy(s: Session, to: int)
    requires Healthy(s) && s.now <= to
    ensures Healthy(s.(now := to))
  {
    forall call | call in s.flights
      ensures FlightOk(call.client, s.flights[call], Awaits(s.clients, call), CookieOf(s.clients, call.client),
                       s.tokens, s.holders, to)
    {
      assert FlightHealthy(s, call);
    }
    OneUseKept(s.flights, s.tokens, s.now, s.tokens, to);
  }

  ghost predicate FlightHealthy(s: Session, call: Call)
    requires call in s.flights
  {
    FlightOk(call.client, s.flights[call], Awaits(s.clients, call), CookieOf(s.clients, call.client),
             s.tokens, s.holders, s.now)
  }

  /** Logins stay in order when nobody newly shows their tokens and none of these is revoked. */
  lemma LoginsKept(s: Session, t: Session)
    requires LoginsOk(s.tokens, s.holders, s.clients, s.flights, s.logins)
    requires forall n | n in t.logins :: n in s.logins && t.logins[n] == s.logins[n]
    requires forall n | n in t.logins :: LiveFor(t.tokens, t.holders, t.logins[n].tok, t.logins[n].client)
    requires forall n | n in t.logins :: Unseen(t.logins[n].tok, t.clients, t.flights)
    ensures LoginsOk(t.tokens, t.holders, t.clients, t.flights, t.logins)
  {
  }

  lemma JoinHealthy(s: Session, c: nat, user: nat)
    requires Healthy(s) && Flying(s.clients, s.flights) && c !in s.clients
    ensures Healthy(SetClient(s, c, Browser(user, A.Init(None), None)))
  {
    var t := SetClient(s, c, Browser(user, A.Init(None), None));
    forall call | call in t.flights ensures FlightHealthy(t, call) {
      assert FlightHealthy(s, call);
    }
    forall d | d in t.clients ensures CookieOk(d, t.clients[d], t.tokens, t.holders, t.flights) {
      if d != c { assert CookieOk(d, s.clients[d], s.tokens, s.holders, s.flights); }
    }
    LoginsKept(s, t);
  }

  /** A request that starts no refresh changes no cookie, token or call. */
  lemma QuietRequestHealthy(s: Session, c: nat, api: A.State)
    requires Healthy(s) && c in s.clients && api.fetching == s.clients[c].api.fetching
    ensures Healthy(SetClient(s, c, s.clients[c].(api := api)))
  {
    var t := SetClient(s, c, s.clients[c].(api := api));
    forall call | call in t.flights ensures FlightHealthy(t, call) {
      assert FlightHealthy(s, call);
    }
    forall d | d in t.clients ensures CookieOk(d, t.clients[d], t.tokens, t.holders, t.flights) {
      assert CookieOk(d, s.clients[d], s.tokens, s.holders, s.flights);
    }
    LoginsKept(s, t);
  }

  /** With no refresh under way the cookie is live, and other calls that carry it have expired. */
  lemma IdleCookie(s: Session, c: nat)
    requires Healthy(s) && c in s.clients && s.clients[c].api.fetching == {} && s.clients[c].cookie.Some?
    ensures LiveFor(s.tokens, s.holders, s.clients[c].cookie.value, c)
    ensures forall call | call in s.flights && Uses(s.flights[call], s.clients[c].cookie.value) ::
              s.flights[call].Sent? && Expired(s.tokens, s.clients[c].cookie.value, s.now)
  {
    assert CookieOk(c, s.clients[c], s.tokens, s.holders, s.flights);
    forall call | call in s.flights && Uses(s.flights[call], s.clients[c].cookie.value)
      ensures s.flights[call].Sent? && Expired(s.tokens, s.clients[c].cookie.value, s.now)
    {
      assert FlightHealthy(s, call);
    }
  }

  lemma StartedFlights(s: Session, c: nat, api: A.State, r: nat)
    requires Healthy(s) && Flying(s.clients, s.flights) && c in s.clients
    requires s.clients[c].api.fetching == {} && s.clients[c].api.nextRefresh == r && api.fetching == {r}
    ensures
      var t := SetFlight(SetClient(s, c, s.clients[c].(api := api)), Call(c, r), Sent(s.clients[c].cookie));
      FlightsOk(t.clients, t.flights, t.tokens, t.holders, t.now)
  {
    if s.clients[c].cookie.Some? { IdleCookie(s, c); }
    var t := SetFlight(SetClient(s, c, s.clients[c].(api := api)), Call(c, r), Sent(s.clients[c].cookie));
    forall call | call in t.flights ensures FlightHealthy(t, call) {
      if call != Call(c, r) { assert FlightHealthy(s, call); }
    }
  }

  lemma StartedUse(s: Session, c: nat, r: nat)
    requires Healthy(s) && Flying(s.clients, s.flights) && c in s.clients
    requires s.clients[c].api.fetching == {} && s.clients[c].api.nextRefresh == r
    ensures OneUse(s.flights[Call(c, r) := Sent(s.clients[c].cookie)], s.tokens, s.now)
  {
    var flights := s.flights[Call(c, r) := Sent(s.clients[c].cookie)];
    if s.clients[c].cookie.Some? { IdleCookie(s, c); }
    assert Call(c, r) !in s.flights;
    forall a, b, tok | Carries(flights, a, tok) && Carries(flights, b, tok) && a != b
      ensures flights[a].Sent? && Expired(s.tokens, tok, s.now)
    {
      if a != Call(c, r) && b != Call(c, r) {
        assert Carries(s.flights, a, tok) && Carries(s.flights, b, tok);
      } else if a != Call(c, r) {
        assert a in s.flights && Uses(s.flights[a], s.clients[c].cookie.value);
      } else {
        assert b in s.flights && Uses(s.flights[b], s.clients[c].cookie.value);
      }
    }
  }

  lemma StartedCookies(s: Session, c: nat, api: A.State, r: nat)
    requires Healthy(s) && Flying(s.clients, s.flights) && c in s.clients
    requires s.clients[c].api.fetching == {} && s.clients[c].api.nextRefresh == r && api.fetching == {r}
    ensures
      var t := SetFlight(SetClient(s, c, s.clients[c].(api := api)), Call(c, r), Sent(s.clients[c].cookie));
      CookiesOk(t.clients, t.tokens, t.holders, t.flights)
  {
    if s.clients[c].cookie.Some? { IdleCookie(s, c); }
    var t := SetFlight(SetClient(s, c, s.clients[c].(api := api)), Call(c, r), Sent(s.clients[c].cookie));
    forall d | d in t.clients ensures CookieOk(d, t.clients[d], t.tokens, t.holders, t.flights) {
      assert CookieOk(d, s.clients[d], s.tokens, s.holders, s.flights);
      if d != c { CookieStays(d, s.clients[d], t.clients[d], s, t); }
    }
  }

  /** A cookie stays in order when its token and the calls its client waits for do. */
  lemma CookieStays(d: nat, before: Browser, after: Browser, s: Session, t: Session)
    requires CookieOk(d, before, s.tokens, s.holders, s.flights)
    requires after.cookie == before.cookie && after.api.fetching == before.api.fetching
    requires before.cookie.Some? && before.cookie.value in s.tokens ==>
               && before.cookie.value in t.tokens
               && t.tokens[before.cookie.value].revoked == s.tokens[before.cookie.value].revoked
    requires forall tok | tok in s.holders && tok in s.tokens :: tok in t.holders && t.holders[tok] == s.holders[tok]
    requires forall r: nat, tok | r in before.api.fetching && Replaces(s.flights, Call(d, r), tok) ::
               Replaces(t.flights, Call(d, r), tok)
    ensures CookieOk(d, after, t.tokens, t.holders, t.flights)
  {
    if after.cookie.Some? && t.tokens[after.cookie.value].revoked {
      var r: nat :| r in before.api.fetching && Replaces(s.flights, Call(d, r), before.cookie.value);
      assert Replaces(t.flights, Call(d, r), after.cookie.value);
    }
  }

  /** A refresh starts only when its client has none under way, so the cookie it sends is live. */
  lemma StartedRefreshHealthy(s: Session, c: nat, api: A.State, r: nat)
    requires Healthy(s) && Flying(s.clients, s.flights) && c in s.clients
    requires s.clients[c].api.fetching == {} && s.clients[c].api.nextRefresh == r && api.fetching == {r}
    ensures Healthy(SetFlight(SetClient(s, c, s.clients[c].(api := api)), Call(c, r), Sent(s.clients[c].cookie)))
  {
    StartedFlights(s, c, api, r);
    StartedUse(s, c, r);
    StartedCookies(s, c, api, r);
    LoginsKept(s, SetFlight(SetClient(s, c, s.clients[c].(api := api)), Call(c, r), Sent(s.clients[c].cookie)));
  }

  lemma RequestHealthy(s: Session, c: nat, a: A.Label)
    requires ApisOk(s.clients) && Flying(s.clients, s.flights) && Healthy(s) && CanStep(s, Request(c, a))
    ensures Healthy(Requesting(s, c, A.Apply(s.clients[c].api, a)))
  {
    RequestApi(s, c, a);
    var api, next := s.clients[c].api, A.Apply(s.clients[c].api, a);
    if next.nextRefresh == api.nextRefresh {
      QuietRequestHealthy(s, c, next);
    } else {
      StartedRefreshHealthy(s, c, next, api.nextRefresh);
    }
  }

  // ---------- Health: fresh tokens ----------

  /** A fresh token changes nothing for the others. */
  lemma MintKeeps(s: Session, c: nat, user: nat, tok: Tok, parent: Option<Tok>)
    requires Healthy(s) && tok !in s.tokens
    ensures
      var t := Mint(s, c, user, tok, parent);
      Healthy(t) && LiveFor(t.tokens, t.holders, tok, c) && Unseen(tok, t.clients, t.flights)
    ensures forall n | n in s.logins :: s.logins[n].tok != tok
    ensures forall call | call in s.flights :: Retired(s.flights[call]) != Some(tok)
  {
    var t := Mint(s, c, user, tok, parent);
    forall call | call in t.flights
      ensures FlightHealthy(t, call) && !Uses(t.flights[call], tok) && Retired(t.flights[call]) != Some(tok)
    {
      assert FlightHealthy(s, call);
    }
    forall d | d in t.clients
      ensures CookieOk(d, t.clients[d], t.tokens, t.holders, t.flights) && t.clients[d].cookie != Some(tok)
    {
      assert CookieOk(d, s.clients[d], s.tokens, s.holders, s.flights);
      CookieStays(d, s.clients[d], t.clients[d], s, t);
    }
    OneUseKept(s.flights, s.tokens, s.now, t.tokens, t.now);
    LoginsKept(s, t);
  }

  /** The token a call has rotated away, or is about to. */
  function Retired(flight: Flight): Option<Tok> {
    match flight
    case Rotating(tok) => Some(tok)
    case Answer(retired, _, _) => retired
    case _ => None
  }

  lemma SignOnHealthy(s: Session, c: nat, n: nat, tok: Tok)
    requires Healthy(s) && CanStep(s, SignOn(c, n, tok))
    ensures Healthy(SigningOn(s, c, n, tok))
  {
    MintKeeps(s, c, s.clients[c].user, tok, None);
  }

  lemma SignOnLostHealthy(s: Session, n: nat)
    requires Healthy(s) && n in s.logins
    ensures Healthy(s.(logins := s.logins - {n}))
  {
    LoginsKept(s, s.(logins := s.logins - {n}));
  }

  /** The login's token was seen by nobody, so it is none that a call has spent or will spend. */
  lemma SignOnDoneHealthy(s: Session, n: nat, access: A.AccessToken)
    requires Healthy(s) && Sane(s.tokens, s.flights) && CanStep(s, SignOnDone(n, access))
    ensures Healthy(SignedOn(s, n, access))
  {
    var t := SignedOn(s, n, access);
    var c := s.logins[n].client;
    assert Unseen(s.logins[n].tok, s.clients, s.flights);
    forall call | call in t.flights ensures FlightHealthy(t, call) {
      assert FlightHealthy(s, call) && FlightSane(s.flights[call], s.tokens);
      assert !Uses(s.flights[call], s.logins[n].tok);
    }
    forall d | d in t.clients ensures CookieOk(d, t.clients[d], t.tokens, t.holders, t.flights) {
      assert CookieOk(d, s.clients[d], s.tokens, s.holders, s.flights);
    }
    LoginsKept(s, t);
  }

  // ---------- Health: the server's steps ----------

  /** A call moves on with a token that only it carries. */
  lemma OneUseMoves(flights: Flights, call: Call, next: Flight, tokens: Table, now: int)
    requires OneUse(flights, tokens, now)
    requires forall tok, other | Uses(next, tok) && other != call :: !Carries(flights, other, tok)
    ensures OneUse(flights[call := next], tokens, now)
  {
    var after := flights[call := next];
    forall a, b, tok | Carries(after, a, tok) && Carries(after, b, tok) && a != b
      ensures after[a].Sent? && Expired(tokens, tok, now)
    {
      assert a != call ==> Carries(flights, a, tok);
      assert b != call ==> Carries(flights, b, tok);
    }
  }

  /** A call moves on without touching the tokens. */
  lemma FlightMovesHealthy(s: Session, call: Call, next: Flight)
    requires Healthy(s) && call in s.flights && Retired(s.flights[call]).None?
    requires FlightHealthy(SetFlight(s, call, next), call)
    requires forall tok | Uses(next, tok) :: Uses(s.flights[call], tok) && !Expired(s.tokens, tok, s.now)
    ensures Healthy(SetFlight(s, call, next))
  {
    var t := SetFlight(s, call, next);
    forall tok, other | Uses(next, tok) && other != call ensures !Carries(s.flights, other, tok) {
      assert Carries(s.flights, call, tok);
    }
    OneUseMoves(s.flights, call, next, s.tokens, s.now);
    forall other | other in t.flights && other != call ensures FlightHealthy(t, other) {
      assert FlightHealthy(s, other);
    }
    forall d | d in t.clients ensures CookieOk(d, t.clients[d], t.tokens, t.holders, t.flights) {
      CookieStays(d, s.clients[d], t.clients[d], s, t);
    }
    LoginsKept(s, t);
  }

  lemma LookupHealthy(s: Session, call: Call, ok: bool, family: bool)
    requires Healthy(s) && AtSent(s, call)
    ensures Healthy(LookedUp(s, call, ok, family))
  {
    assert FlightHealthy(s, call);
    var t := LookedUp(s, call, ok, family);
    assert t == SetFlight(s, call, t.flights[call]);
    FlightMovesHealthy(s, call, t.flights[call]);
  }

  /** A call past its look-up is the only one with its token. */
  lemma OnlyUse(s: Session, call: Call, tok: Tok)
    requires Healthy(s) && call in s.flights && !s.flights[call].Sent? && Uses(s.flights[call], tok)
    ensures forall other | other in s.flights && other != call :: !Uses(s.flights[other], tok)
  {
    assert Carries(s.flights, call, tok);
    forall other | other in s.flights && other != call ensures !Uses(s.flights[other], tok) {
      assert !Carries(s.flights, other, tok);
    }
  }

  /** Revoking the token of a call that found it disturbs nobody else. */
  lemma RevokedFlights(s: Session, call: Call, next: Flight)
    requires Healthy(s) && AtFound(s, call)
    requires
      var tok := s.flights[call].tok;
      next == Rotating(tok) || (next == Answer(Some(tok), Keep, false) && CookieOf(s.clients, call.client) != Some(tok))
    ensures
      var t := SetFlight(s, call, next).(tokens := Revoke(s.tokens, s.flights[call].tok));
      FlightsOk(t.clients, t.flights, t.tokens, t.holders, t.now)
  {
    var tok := s.flights[call].tok;
    var t := SetFlight(s, call, next).(tokens := Revoke(s.tokens, tok));
    OnlyUse(s, call, tok);
    assert FlightHealthy(s, call);
    forall other | other in t.flights ensures FlightHealthy(t, other) {
      if other != call {
        assert FlightHealthy(s, other);
        assert !Uses(s.flights[other], tok);
      }
    }
  }

  lemma RevokedUse(s: Session, call: Call, next: Flight)
    requires Healthy(s) && AtFound(s, call)
    requires forall tok | Uses(next, tok) :: tok == s.flights[call].tok
    ensures OneUse(s.flights[call := next], Revoke(s.tokens, s.flights[call].tok), s.now)
  {
    OnlyUse(s, call, s.flights[call].tok);
    OneUseMoves(s.flights, call, next, s.tokens, s.now);
    OneUseKept(s.flights[call := next], s.tokens, s.now, Revoke(s.tokens, s.flights[call].tok), s.now);
  }

  lemma RevokedCookies(s: Session, call: Call, next: Flight)
    requires Healthy(s) && Flying(s.clients, s.flights) && AtFound(s, call)
    requires
      var tok := s.flights[call].tok;
      next == Rotating(tok) || (next == Answer(Some(tok), Keep, false) && CookieOf(s.clients, call.client) != Some(tok))
    ensures CookiesOk(s.clients, Revoke(s.tokens, s.flights[call].tok), s.holders, s.flights[call := next])
  {
    var tok := s.flights[call].tok;
    var t := SetFlight(s, call, next).(tokens := Revoke(s.tokens, tok));
    assert FlightHealthy(s, call);
    forall d | d in t.clients ensures CookieOk(d, t.clients[d], t.tokens, t.holders, t.flights) {
      assert CookieOk(d, s.clients[d], s.tokens, s.holders, s.flights);
      if s.clients[d].cookie == Some(tok) {
        assert d == call.client && Awaits(s.clients, call);
        assert Replaces(t.flights, Call(d, call.refresh), tok);
      } else {
        CookieStays(d, s.clients[d], t.clients[d], s, t);
      }
    }
  }

  lemma RevokedHealthy(s: Session, call: Call, next: Flight)
    requires Healthy(s) && Flying(s.clients, s.flights) && AtFound(s, call)
    requires
      var tok := s.flights[call].tok;
      next == Rotating(tok) || (next == Answer(Some(tok), Keep, false) && CookieOf(s.clients, call.client) != Some(tok))
    ensures Healthy(SetFlight(s, call, next).(tokens := Revoke(s.tokens, s.flights[call].tok)))
  {
    RevokedFlights(s, call, next);
    RevokedUse(s, call, next);
    RevokedCookies(s, call, next);
    assert Uses(s.flights[call], s.flights[call].tok);
    LoginsKept(s, SetFlight(s, call, next).(tokens := Revoke(s.tokens, s.flights[call].tok)));
  }

  lemma RotateHealthy(s: Session, call: Call, fault: Fault)
    requires Healthy(s) && Flying(s.clients, s.flights) && AtFound(s, call)
    requires Rotated(s, call, fault).losses == s.losses
    ensures Healthy(Rotated(s, call, fault))
  {
    if fault.Clean? {
      FlightMovesHealthy(s, call, Answer(None, Keep, false));
    } else {
      RevokedHealthy(s, call, if fault.Fine? then Rotating(s.flights[call].tok)
                              else Answer(Some(s.flights[call].tok), Keep, false));
    }
  }

  /** A rotation ends: with a token that nobody has seen, or with none for a client that has another cookie. */
  lemma RotationEnds(s: Session, call: Call, next: Flight)
    requires Healthy(s) && AtRotating(s, call) && next.Answer? && next.retired == Some(s.flights[call].tok)
    requires
      || (next.change == Keep && CookieOf(s.clients, call.client) != Some(s.flights[call].tok))
      || (next.change.Set? && LiveFor(s.tokens, s.holders, next.change.tok, call.client)
          && Unseen(next.change.tok, s.clients, s.flights)
          && forall n | n in s.logins :: s.logins[n].tok != next.change.tok)
    ensures Healthy(SetFlight(s, call, next))
  {
    var t := SetFlight(s, call, next);
    assert FlightHealthy(s, call);
    OneUseMoves(s.flights, call, next, s.tokens, s.now);
    forall other | other in t.flights ensures FlightHealthy(t, other) {
      if other != call { assert FlightHealthy(s, other); }
    }
    forall d | d in t.clients ensures CookieOk(d, t.clients[d], t.tokens, t.holders, t.flights) {
      assert CookieOk(d, s.clients[d], s.tokens, s.holders, s.flights);
      RotationKeepsCookie(s, call, next, d);
    }
    LoginsKept(s, t);
  }

  lemma RotationKeepsCookie(s: Session, call: Call, next: Flight, d: nat)
    requires AtRotating(s, call) && next.Answer? && next.retired == Some(s.flights[call].tok) && d in s.clients
    requires next.change.Set? || (next.change == Keep && CookieOf(s.clients, call.client) != Some(s.flights[call].tok))
    requires CookieOk(d, s.clients[d], s.tokens, s.holders, s.flights)
    ensures CookieOk(d, s.clients[d], s.tokens, s.holders, s.flights[call := next])
  {
    var cookie := s.clients[d].cookie;
    if cookie.Some? && s.tokens[cookie.value].revoked {
      var r: nat :| r in s.clients[d].api.fetching && Replaces(s.flights, Call(d, r), cookie.value);
      assert Replaces(s.flights[call := next], Call(d, r), cookie.value);
    }
  }

  lemma IssueHealthy(s: Session, call: Call, tok: Tok, fault: Fault)
    requires Healthy(s) && AtRotating(s, call) && tok !in s.tokens && Issued(s, call, tok, fault).losses == s.losses
    ensures Healthy(Issued(s, call, tok, fault))
  {
    var previous := s.flights[call].tok;
    var next := if fault.Fine? then Answer(Some(previous), Set(tok), true) else Answer(Some(previous), Keep, false);
    MintKeeps(s, call.client, s.tokens[previous].user, tok, Some(previous));
    RotationEnds(if fault.Clean? then s else Mint(s, call.client, s.tokens[previous].user, tok, Some(previous)),
                 call, next);
  }

  // ---------- Health: answers and losses ----------

  /** While it waits, a client waits for one call only. */
  lemma OneAwaited(s: Session, a: Call, b: Call)
    requires ApisOk(s.clients) && Awaits(s.clients, a) && Awaits(s.clients, b) && a.client == b.client
    ensures a == b
  {
    assert A.Inv(s.clients[a.client].api);
  }

  /** The client's cookie is not being replaced by this call, so with the call over it is live. */
  lemma UnreplacedCookie(s: Session, call: Call)
    requires ApisOk(s.clients) && Healthy(s) && Awaits(s.clients, call) && call in s.flights
    requires s.clients[call.client].cookie.Some? && !Replaces(s.flights, call, s.clients[call.client].cookie.value)
    ensures LiveFor(s.tokens, s.holders, s.clients[call.client].cookie.value, call.client)
  {
    var c := call.client;
    assert CookieOk(c, s.clients[c], s.tokens, s.holders, s.flights);
    if s.tokens[s.clients[c].cookie.value].revoked {
      var r: nat :| r in s.clients[c].api.fetching && Replaces(s.flights, Call(c, r), s.clients[c].cookie.value);
      OneAwaited(s, call, Call(c, r));
      assert false;
    }
  }

  /** What the client has after a call that it waited for: nothing, its cookie, or the answer's new one. */
  ghost predicate EndsWith(s: Session, call: Call, cookie: Option<Tok>)
    requires call in s.flights && call.client in s.clients
  {
    || cookie.None?
    || (cookie == s.clients[call.client].cookie && !Replaces(s.flights, call, cookie.value))
    || (s.flights[call].Answer? && s.flights[call].change == Set(cookie.value))
  }

  lemma LandedFlights(s: Session, call: Call, cookie: Option<Tok>, api: A.State)
    requires ApisOk(s.clients) && Sane(s.tokens, s.flights) && Healthy(s)
    requires AtAnswer(s, call) && Awaits(s.clients, call)
    requires api.fetching == s.clients[call.client].api.fetching - {call.refresh} && EndsWith(s, call, cookie)
    ensures
      var t := SetClient(s, call.client, s.clients[call.client].(cookie := cookie, api := api))
                 .(flights := s.flights - {call});
      FlightsOk(t.clients, t.flights, t.tokens, t.holders, t.now)
  {
    var t := SetClient(s, call.client, s.clients[call.client].(cookie := cookie, api := api))
               .(flights := s.flights - {call});
    assert FlightHealthy(s, call);
    forall other | other in t.flights ensures FlightHealthy(t, other) {
      assert FlightHealthy(s, other) && FlightSane(s.flights[other], s.tokens);
      if other.client == call.client {
        if Awaits(s.clients, other) { OneAwaited(s, call, other); }
        if cookie.Some? && s.flights[call].change == Set(cookie.value) {
          OnlyUse(s, call, cookie.value);
        }
      }
    }
  }

  lemma LandedCookies(s: Session, call: Call, cookie: Option<Tok>, api: A.State)
    requires ApisOk(s.clients) && Healthy(s) && AtAnswer(s, call) && Awaits(s.clients, call)
    requires EndsWith(s, call, cookie)
    ensures
      var t := SetClient(s, call.client, s.clients[call.client].(cookie := cookie, api := api))
                 .(flights := s.flights - {call});
      CookiesOk(t.clients, t.tokens, t.holders, t.flights)
  {
    var t := SetClient(s, call.client, s.clients[call.client].(cookie := cookie, api := api))
               .(flights := s.flights - {call});
    assert FlightHealthy(s, call);
    forall d | d in t.clients ensures CookieOk(d, t.clients[d], t.tokens, t.holders, t.flights) {
      assert CookieOk(d, s.clients[d], s.tokens, s.holders, s.flights);
      if d != call.client {
        CookieStays(d, s.clients[d], t.clients[d], s, t);
      } else if cookie.Some? && cookie == s.clients[d].cookie && !Replaces(s.flights, call, cookie.value) {
        UnreplacedCookie(s, call);
      }
    }
  }

  lemma OneUseWithout(flights: Flights, call: Call, tokens: Table, now: int)
    requires OneUse(flights, tokens, now)
    ensures OneUse(flights - {call}, tokens, now)
  {
    var rest := flights - {call};
    forall a, b, tok | Carries(rest, a, tok) && Carries(rest, b, tok) && a != b
      ensures rest[a].Sent? && Expired(tokens, tok, now)
    {
      assert Carries(flights, a, tok) && Carries(flights, b, tok);
    }
  }

  /** A refresh is over. Its client has the new cookie if there is one; a cookie that stays was not retired by it. */
  lemma LandedHealthy(s: Session, call: Call, cookie: Option<Tok>, api: A.State)
    requires ApisOk(s.clients) && Sane(s.tokens, s.flights) && Healthy(s)
    requires AtAnswer(s, call) && Awaits(s.clients, call)
    requires api.fetching == s.clients[call.client].api.fetching - {call.refresh} && EndsWith(s, call, cookie)
    ensures Healthy(SetClient(s, call.client, s.clients[call.client].(cookie := cookie, api := api))
                      .(flights := s.flights - {call}))
  {
    LandedFlights(s, call, cookie, api);
    LandedCookies(s, call, cookie, api);
    OneUseWithout(s.flights, call, s.tokens, s.now);
    assert forall tok :: s.flights[call].change == Set(tok) ==> Uses(s.flights[call], tok);
    LoginsKept(s, SetClient(s, call.client, s.clients[call.client].(cookie := cookie, api := api))
                    .(flights := s.flights - {call}));
  }

  lemma SettledApi(s: Session, call: Call, outcome: Option<A.AccessToken>)
    requires ApisOk(s.clients) && Awaited(s, call)
    ensures Awaits(s.clients, call)
    ensures A.Apply(s.clients[call.client].api, A.Settled(call.refresh, outcome)).fetching ==
            s.clients[call.client].api.fetching - {call.refresh}
  {
  }

  lemma DeliverHealthy(s: Session, call: Call, access: A.AccessToken, parsed: bool)
    requires Sound(s) && Healthy(s) && AtAnswer(s, call) && Awaited(s, call)
    ensures Healthy(Delivered(s, call, access, parsed))
  {
    var outcome := if s.flights[call].ok && parsed then Some(access) else None;
    SettledApi(s, call, outcome);
    LandedHealthy(s, call, ApplyChange(s.clients[call.client].cookie, s.flights[call].change),
                  A.Apply(s.clients[call.client].api, A.Settled(call.refresh, outcome)));
  }

  /** A call goes on at the server without its client, whose cookie it does not spend. */
  lemma OrphanHealthy(s: Session, call: Call, api: A.State)
    requires ApisOk(s.clients) && Healthy(s) && call in s.flights && !s.flights[call].Answer?
    requires Awaits(s.clients, call) && !CanStrand(s, call)
    requires api.fetching == s.clients[call.client].api.fetching - {call.refresh}
    ensures Healthy(SetClient(s, call.client, s.clients[call.client].(api := api)))
  {
    var t := SetClient(s, call.client, s.clients[call.client].(api := api));
    forall other | other in t.flights ensures FlightHealthy(t, other) {
      assert FlightHealthy(s, other);
    }
    forall d | d in t.clients ensures CookieOk(d, t.clients[d], t.tokens, t.holders, t.flights) {
      assert CookieOk(d, s.clients[d], s.tokens, s.holders, s.flights);
      if d == call.client && s.clients[d].cookie.Some? {
        UnreplacedCookie(s, call);
      }
    }
    LoginsKept(s, t);
  }

  lemma HarmlessLossHealthy(s: Session, call: Call)
    requires Sound(s) && Healthy(s) && call in s.flights && Awaited(s, call) && !CanStrand(s, call)
    ensures Healthy(Lost(s, call))
  {
    SettledApi(s, call, None);
    var api := A.Apply(s.clients[call.client].api, A.Settled(call.refresh, None));
    if s.flights[call].Answer? {
      LandedHealthy(s, call, s.clients[call.client].cookie, api);
    } else {
      OrphanHealthy(s, call, api);
    }
  }

  // ---------- Every step ----------

  lemma ServerHealthy(s: Session, l: Label)
    requires Sound(s) && Healthy(s) && CanStep(s, l) && Step(s, l).losses == s.losses
    requires l.Lookup? || l.Rotate? || l.Issue?
    ensures Healthy(Step(s, l))
  {
    match l
    case Lookup(call, ok, family) => LookupHealthy(s, call, ok, family);
    case Rotate(call, fault) => RotateHealthy(s, call, fault);
    case Issue(call, tok, fault) => IssueHealthy(s, call, tok, fault);
  }

  lemma ClientHealthy(s: Session, l: Label)
    requires Sound(s) && Healthy(s) && CanStep(s, l) && Step(s, l).losses == s.losses
    requires !l.Lookup? && !l.Rotate? && !l.Issue?
    ensures Healthy(Step(s, l))
  {
    match l
    case Tick(to) => TickHealthy(s, to);
    case Join(c, user) => JoinHealthy(s, c, user);
    case SignOn(c, n, tok) => SignOnHealthy(s, c, n, tok);
    case SignOnDone(n, access) => SignOnDoneHealthy(s, n, access);
    case SignOnLost(n) => SignOnLostHealthy(s, n);
    case Request(c, a) => RequestHealthy(s, c, a);
    case Deliver(call, access, parsed) => DeliverHealthy(s, call, access, parsed);
    case Lose(call) => HarmlessLossHealthy(s, call);
  }

  lemma HealthyStep(s: Session, l: Label)
    requires Sound(s) && Healthy(s) && CanStep(s, l) && Step(s, l).losses == s.losses
    ensures Healthy(Step(s, l))
  {
    if l.Lookup? || l.Rotate? || l.Issue? {
      ServerHealthy(s, l);
    } else {
      ClientHealthy(s, l);
    }
  }

  lemma LossesGrow(s: Session, l: Label)
    requires CanStep(s, l)
    ensures Step(s, l).losses >= s.losses
  {
  }

  lemma InvStep(s: Session, l: Label)
    requires Inv(s) && CanStep(s, l)
    ensures Inv(Step(s, l))
  {
    SoundStep(s, l);
    LossesGrow(s, l);
    if Step(s, l).losses == 0 {
      HealthyStep(s, l);
    }
  }

  lemma {:induction false} InvAfter(s: Session, ls: seq<Label>)
    requires Inv(s) && IsRun(s, ls)
    ensures Inv(End(s, ls)) && End(s, ls).losses >= s.losses
    decreases |ls|
  {
    if ls != [] {
      InvStep(s, ls[0]);
      LossesGrow(s, ls[0]);
      InvAfter(Step(s, ls[0]), ls[1..]);
    }
  }
}
