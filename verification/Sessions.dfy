/**
 * Many clients, each with its `ApiClient` and its cookie, against the refresh endpoint
 * (backend/internal/users/handler.go). `Refresh` runs as three separate steps, look-up,
 * revoke and issue, and any number of calls interleave. Tokens stand for their hashes.
 */
module Sessions {
  import opened Faults
  import opened Options
  import opened R = RefreshTokens
  import A = ApiClient

  datatype Browser = Browser(user: nat, api: A.State, cookie: Option<Tok>)

  /** Where one call of /auth/refresh stands. `retired` is the token it has rotated away, if any. */
  datatype Flight =
    | Sent(cookie: Option<Tok>)
    | Found(tok: Tok)
    | Rotating(tok: Tok)
    | Answer(retired: Option<Tok>, change: CookieChange, ok: bool)

  type Flights = map<Call, Flight>

  datatype Call = Call(client: nat, refresh: nat)

  datatype Login = Login(client: nat, tok: Tok)

  datatype Session = Session(
    now: int, ttl: int,
    tokens: Table,
    clients: map<nat, Browser>,
    flights: Flights,
    logins: map<nat, Login>,      // login answers under way to their client
    // History.
    holders: map<Tok, nat>,       // the client each token was issued to
    losses: nat,                  // refreshes lost, or failed after the revocation, with the client's cookie at stake
    reuses: nat)                  // "refresh token already used"

  datatype Label =
    | Tick(to: int)
    | Join(c: nat, user: nat)
    | SignOn(c: nat, n: nat, tok: Tok)
    | SignOnDone(n: nat, access: A.AccessToken)
    | SignOnLost(n: nat)
    | Request(c: nat, a: A.Label)
    | Lookup(call: Call, ok: bool, family: bool)
    | Rotate(call: Call, fault: Fault)
    | Issue(call: Call, tok: Tok, fault: Fault)
    | Deliver(call: Call, access: A.AccessToken, parsed: bool)
    | Lose(call: Call)

  function Start(now: int, ttl: int): Session {
    Session(now, ttl, map[], map[], map[], map[], map[], 0, 0)
  }

  predicate AtSent(s: Session, call: Call) { call in s.flights && s.flights[call].Sent? }

  predicate AtFound(s: Session, call: Call) {
    call in s.flights && s.flights[call].Found? && s.flights[call].tok in s.tokens
  }

  predicate AtRotating(s: Session, call: Call) {
    call in s.flights && s.flights[call].Rotating? && s.flights[call].tok in s.tokens
  }

  predicate AtAnswer(s: Session, call: Call) {
    call in s.flights && s.flights[call].Answer?
  }

  /** The client waits for this call. */
  ghost predicate Awaited(s: Session, call: Call) {
    call.client in s.clients && A.Enabled(s.clients[call.client].api, A.Settled(call.refresh, None))
  }

  ghost predicate CanStep(s: Session, l: Label) {
    match l
    case Tick(to) => s.now <= to
    case Join(c, _) => c !in s.clients
    case SignOn(c, n, tok) => c in s.clients && n !in s.logins && tok !in s.tokens
    case SignOnDone(n, access) =>
      && n in s.logins && s.logins[n].client in s.clients
      && A.Enabled(s.clients[s.logins[n].client].api, A.SignIn(access))
    case SignOnLost(n) => n in s.logins
    case Request(c, a) => c in s.clients && !a.Settled? && !a.SignIn? && A.Enabled(s.clients[c].api, a)
    case Lookup(call, _, _) => AtSent(s, call)
    case Rotate(call, _) => AtFound(s, call)
    case Issue(call, tok, _) => AtRotating(s, call) && tok !in s.tokens
    case Deliver(call, _, _) => AtAnswer(s, call) && Awaited(s, call)
    case Lose(call) => call in s.flights && Awaited(s, call)
  }

  function ApplyChange(cookie: Option<Tok>, change: CookieChange): Option<Tok> {
    match change
    case Keep => cookie
    case Clear => None
    case Set(tok) => Some(tok)
  }

  function CookieOf(clients: map<nat, Browser>, c: nat): Option<Tok> {
    if c in clients then clients[c].cookie else None
  }

  /** One loss more, if the client's cookie is the token that is now spent without a successor for it. */
  function LossesWith(s: Session, call: Call, tok: Tok): nat {
    s.losses + (if CookieOf(s.clients, call.client) == Some(tok) then 1 else 0)
  }

  /** The client's cookie is the token that this call has spent, or can still spend. */
  predicate CanStrand(s: Session, call: Call)
    requires call in s.flights
  {
    var cookie := CookieOf(s.clients, call.client);
    match s.flights[call]
    case Sent(c) => c.Some? && cookie == c && c.value in s.tokens && s.now <= s.tokens[c.value].expiresAt
    case Found(tok) => cookie == Some(tok)
    case Rotating(tok) => cookie == Some(tok)
    case Answer(retired, change, _) => change.Set? && retired.Some? && cookie == retired
  }

  function SetFlight(s: Session, call: Call, flight: Flight): Session {
    s.(flights := s.flights[call := flight])
  }

  function SetClient(s: Session, c: nat, client: Browser): Session {
    s.(clients := s.clients[c := client])
  }

  /** A token for a client, issued now. */
  function Mint(s: Session, c: nat, user: nat, tok: Tok, parent: Option<Tok>): Session {
    s.(tokens := Create(s.tokens, tok, user, s.now + s.ttl, parent), holders := s.holders[tok := c])
  }

  function SigningOn(s: Session, c: nat, n: nat, tok: Tok): Session
    requires c in s.clients
  {
    Mint(s, c, s.clients[c].user, tok, None).(logins := s.logins[n := Login(c, tok)])
  }

  ghost function SignedOn(s: Session, n: nat, access: A.AccessToken): Session
    requires CanStep(s, SignOnDone(n, access))
  {
    var c := s.logins[n].client;
    var client := s.clients[c];
    SetClient(s, c, client.(cookie := Some(s.logins[n].tok), api := A.Apply(client.api, A.SignIn(access))))
      .(logins := s.logins - {n})
  }

  /** The client's request moves on; a refresh that it starts carries the client's cookie. */
  function Requesting(s: Session, c: nat, api: A.State): Session
    requires c in s.clients
  {
    var client := s.clients[c];
    var t := SetClient(s, c, client.(api := api));
    if api.nextRefresh == client.api.nextRefresh then t
    else SetFlight(t, Call(c, client.api.nextRefresh), Sent(client.cookie))
  }

  /** FindRefreshTokenByHash and the checks that follow it. */
  function LookedUp(s: Session, call: Call, ok: bool, family: bool): Session
    requires AtSent(s, call)
  {
    var cookie := s.flights[call].cookie;
    if cookie.None? || !ok then SetFlight(s, call, Answer(None, Keep, false))
    else if cookie.value !in s.tokens then SetFlight(s, call, Answer(None, Clear, false))
    else
      var stored := s.tokens[cookie.value];
      if stored.revoked then
        SetFlight(s, call, Answer(None, Clear, false))
          .(tokens := if family then RevokeForUser(s.tokens, stored.user) else s.tokens, reuses := s.reuses + 1)
      else if s.now > stored.expiresAt then SetFlight(s, call, Answer(None, Clear, false))
      else SetFlight(s, call, Found(cookie.value))
  }

  function Rotated(s: Session, call: Call, fault: Fault): Session
    requires AtFound(s, call)
  {
    var tok := s.flights[call].tok;
    var revoked := Revoke(s.tokens, tok);
    if fault.Fine? then SetFlight(s, call, Rotating(tok)).(tokens := revoked)
    else if fault.Clean? then SetFlight(s, call, Answer(None, Keep, false))
    else SetFlight(s, call, Answer(Some(tok), Keep, false)).(tokens := revoked, losses := LossesWith(s, call, tok))
  }

  function Issued(s: Session, call: Call, tok: Tok, fault: Fault): Session
    requires AtRotating(s, call)
  {
    var previous := s.flights[call].tok;
    var t := if fault.Clean? then s else Mint(s, call.client, s.tokens[previous].user, tok, Some(previous));
    if fault.Fine? then SetFlight(t, call, Answer(Some(previous), Set(tok), true))
    else SetFlight(t, call, Answer(Some(previous), Keep, false)).(losses := LossesWith(s, call, previous))
  }

  /** The client hears how its refresh ended. */
  ghost function Hear(s: Session, call: Call, cookie: Option<Tok>, outcome: Option<A.AccessToken>): Session
    requires Awaited(s, call)
  {
    var client := s.clients[call.client];
    SetClient(s, call.client, client.(cookie := cookie, api := A.Apply(client.api, A.Settled(call.refresh, outcome))))
  }

  ghost function Delivered(s: Session, call: Call, access: A.AccessToken, parsed: bool): Session
    requires AtAnswer(s, call) && Awaited(s, call)
  {
    var Answer(_, change, ok) := s.flights[call];
    Hear(s, call, ApplyChange(s.clients[call.client].cookie, change), if ok && parsed then Some(access) else None)
      .(flights := s.flights - {call})
  }

  /** The connection breaks. A call that is not answered yet goes on at the server. */
  ghost function Lost(s: Session, call: Call): Session
    requires call in s.flights && Awaited(s, call)
  {
    var t := Hear(s, call, s.clients[call.client].cookie, None);
    t.(losses := s.losses + (if CanStrand(s, call) then 1 else 0),
       flights := if s.flights[call].Answer? then s.flights - {call} else s.flights)
  }

  ghost function Step(s: Session, l: Label): Session
    requires CanStep(s, l)
  {
    match l
    case Tick(to) => s.(now := to)
    case Join(c, user) => SetClient(s, c, Browser(user, A.Init(None), None))
    case SignOn(c, n, tok) => SigningOn(s, c, n, tok)
    case SignOnDone(n, access) => SignedOn(s, n, access)
    case SignOnLost(n) => s.(logins := s.logins - {n})
    case Request(c, a) => Requesting(s, c, A.Apply(s.clients[c].api, a))
    case Lookup(call, ok, family) => LookedUp(s, call, ok, family)
    case Rotate(call, fault) => Rotated(s, call, fault)
    case Issue(call, tok, fault) => Issued(s, call, tok, fault)
    case Deliver(call, access, parsed) => Delivered(s, call, access, parsed)
    case Lose(call) => Lost(s, call)
  }

  ghost predicate IsRun(s: Session, ls: seq<Label>)
    decreases |ls|
  {
    ls == [] || (CanStep(s, ls[0]) && IsRun(Step(s, ls[0]), ls[1..]))
  }

  ghost function End(s: Session, ls: seq<Label>): Session
    requires IsRun(s, ls)
    decreases |ls|
  {
    if ls == [] then s else End(Step(s, ls[0]), ls[1..])
  }

  lemma {:induction false} RunSnoc(s: Session, ls: seq<Label>, l: Label)
    requires IsRun(s, ls) && CanStep(End(s, ls), l)
    ensures IsRun(s, ls + [l]) && End(s, ls + [l]) == Step(End(s, ls), l)
    decreases |ls|
  {
    if ls == [] {
      assert [l][1..] == [];
    } else {
      RunSnoc(Step(s, ls[0]), ls[1..], l);
      assert (ls + [l])[1..] == ls[1..] + [l];
    }
  }

  lemma {:induction false} RunAppend(s: Session, ls: seq<Label>, ms: seq<Label>)
    requires IsRun(s, ls) && IsRun(End(s, ls), ms)
    ensures IsRun(s, ls + ms) && End(s, ls + ms) == End(End(s, ls), ms)
    decreases |ms|
  {
    if ms == [] {
      assert ls + ms == ls;
    } else {
      RunSnoc(s, ls, ms[0]);
      RunAppend(s, ls + [ms[0]], ms[1..]);
      assert ls + ms == (ls + [ms[0]]) + ms[1..];
    }
  }

  ghost predicate Reached(now: int, ttl: int, ls: seq<Label>, t: Session) {
    IsRun(Start(now, ttl), ls) && t == End(Start(now, ttl), ls)
  }
}
