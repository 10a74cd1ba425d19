/** Runs of the sessions machine: what a refresh comes to, what a loss leads to, and a fork from the start. */
module SessionRuns {
  import opened Faults
  import opened Fresh
  import opened Options
  import opened R = RefreshTokens
  import opened Sessions    // and with it its abbreviation A of ApiClient
  import opened I = SessionInvariants
  import opened SessionTheorems

  /** A call past its look-up goes on to issue a token. */
  lemma CallIssues(s: Session, call: Call, p: Tok, tok: Tok) returns (ls: seq<Label>, t: Session)
    requires call in s.flights && Past(s.flights[call], p) && p in s.tokens && tok !in s.tokens
    ensures IsRun(s, ls) && t == End(s, ls)
    ensures t.flights == s.flights[call := Answer(Some(p), Set(tok), true)]
    ensures
      var revoked := if s.flights[call].Found? then Revoke(s.tokens, p) else s.tokens;
      t.tokens == Create(revoked, tok, s.tokens[p].user, s.now + s.ttl, Some(p))
    ensures t.now == s.now && t.ttl == s.ttl && t.clients == s.clients && t.reuses == s.reuses
  {
    if s.flights[call].Found? {
      RunSnoc(s, [], Rotate(call, Fine));
      t := Step(s, Rotate(call, Fine));
      RunSnoc(s, [] + [Rotate(call, Fine)], Issue(call, tok, Fine));
      ls, t := [] + [Rotate(call, Fine)] + [Issue(call, tok, Fine)], Step(t, Issue(call, tok, Fine));
    } else {
      RunSnoc(s, [], Issue(call, tok, Fine));
      ls, t := [] + [Issue(call, tok, Fine)], Step(s, Issue(call, tok, Fine));
    }
  }

  /** Wherever two calls cross, the token can get two live successors. */
  lemma CrossingForks(s: Session, a: Call, b: Call, p: Tok, x: Tok, y: Tok) returns (ls: seq<Label>, t: Session)
    requires a in s.flights && b in s.flights && a != b && Past(s.flights[a], p) && Past(s.flights[b], p)
    requires p in s.tokens && x !in s.tokens && y !in s.tokens && x != y
    ensures IsRun(s, ls) && t == End(s, ls)
    ensures Child(t.tokens, x, p) && Child(t.tokens, y, p) && !t.tokens[x].revoked && !t.tokens[y].revoked
  {
    var ks, m := CallIssues(s, a, p, x);
    var ms, u := CallIssues(m, b, p, y);
    RunAppend(s, ks, ms);
    ls, t := ks + ms, u;
  }

  // ---------- Refresh in one step, or in three ----------

  /** The call is answered as the one-step `Refresh` answers it, and leaves its table. */
  ghost predicate AnswersLike(t: Session, call: Call, step: (Table, Reply, CookieChange)) {
    && t.tokens == step.0 && AtAnswer(t, call)
    && t.flights[call].change == step.2 && (t.flights[call].ok <==> step.1.Granted?)
  }

  lemma LookupIsOneStep(s: Session, call: Call, next: Tok, luck: Luck)
    requires AtSent(s, call)
    ensures
      var step := FaultyRefresh(s.tokens, s.flights[call].cookie, next, s.now, s.ttl, luck);
      var t := LookedUp(s, call, luck.find, luck.family);
      if AtFound(t, call) then
        && t == SetFlight(s, call, Found(s.flights[call].cookie.value)) && luck.find
        && RefreshStep(s.tokens, s.flights[call].cookie, next, s.now, s.ttl).1.Granted?
      else AnswersLike(t, call, step)
  {
  }

  lemma FailedRotation(s: Session, call: Call, next: Tok, luck: Luck)
    requires AtFound(s, call) && luck.find && !luck.revoke.Fine?
    requires !s.tokens[s.flights[call].tok].revoked && s.now <= s.tokens[s.flights[call].tok].expiresAt
    ensures AnswersLike(Rotated(s, call, luck.revoke), call,
                        FaultyRefresh(s.tokens, Some(s.flights[call].tok), next, s.now, s.ttl, luck))
  {
  }

  lemma RotationAndIssue(s: Session, call: Call, next: Tok, luck: Luck)
    requires AtFound(s, call) && luck.find && luck.revoke.Fine?
    requires !s.tokens[s.flights[call].tok].revoked && s.now <= s.tokens[s.flights[call].tok].expiresAt
    ensures AtRotating(Rotated(s, call, Fine), call)
    ensures AnswersLike(Issued(Rotated(s, call, Fine), call, next, luck.issue), call,
                        FaultyRefresh(s.tokens, Some(s.flights[call].tok), next, s.now, s.ttl, luck))
  {
  }

  /** From a look-up that found the token good: the two statements that may still fail. */
  lemma RotationIsOneStep(s: Session, call: Call, next: Tok, luck: Luck) returns (ls: seq<Label>, t: Session)
    requires AtFound(s, call) && next !in s.tokens && luck.find
    requires !s.tokens[s.flights[call].tok].revoked && s.now <= s.tokens[s.flights[call].tok].expiresAt
    ensures IsRun(s, ls) && t == End(s, ls)
    ensures AnswersLike(t, call, FaultyRefresh(s.tokens, Some(s.flights[call].tok), next, s.now, s.ttl, luck))
  {
    RunSnoc(s, [], Rotate(call, luck.revoke));
    ls, t := [] + [Rotate(call, luck.revoke)], Rotated(s, call, luck.revoke);
    if !luck.revoke.Fine? {
      FailedRotation(s, call, next, luck);
    } else {
      RotationAndIssue(s, call, next, luck);
      RunSnoc(s, ls, Issue(call, next, luck.issue));
      ls, t := ls + [Issue(call, next, luck.issue)], Issued(t, call, next, luck.issue);
    }
  }

  /**
   * The three statements of `Refresh`, undisturbed, are the one step of module RefreshTokens, however
   * its queries go: same table, same change of the cookie, granted alike.
   */
  lemma UndisturbedRefreshIsOneStep(s: Session, call: Call, next: Tok, luck: Luck)
    returns (ls: seq<Label>, t: Session)
    requires AtSent(s, call) && next !in s.tokens
    ensures IsRun(s, ls) && t == End(s, ls)
    ensures AnswersLike(t, call, FaultyRefresh(s.tokens, s.flights[call].cookie, next, s.now, s.ttl, luck))
  {
    LookupIsOneStep(s, call, next, luck);
    RunSnoc(s, [], Lookup(call, luck.find, luck.family));
    ls, t := [] + [Lookup(call, luck.find, luck.family)], LookedUp(s, call, luck.find, luck.family);
    if AtFound(t, call) {
      var ms, u := RotationIsOneStep(t, call, next, luck);
      RunAppend(s, ls, ms);
      ls, t := ls + ms, u;
    }
  }

  // ---------- A client comes to rest ----------

  /** The client neither refreshes nor waits for a refresh. */
  ghost predicate Idle(api: A.State) {
    api.refreshPromise.None? && forall p | p in api.requests :: !api.requests[p].phase.Waiting?
  }

  ghost function Waiters(api: A.State): set<nat> {
    set q | q in api.requests && api.requests[q].phase.Waiting?
  }

  /** No refresh has started or ended, and no request has come or gone. */
  ghost predicate OnlyResumed(api: A.State, next: A.State) {
    && A.Inv(next) && next.fetching == api.fetching && next.nextRefresh == api.nextRefresh
    && next.refreshPromise == api.refreshPromise && next.requests.Keys == api.requests.Keys
  }

  lemma ResumeApi(api: A.State, q: nat)
    requires A.Inv(api) && A.Resumable(api, q)
    ensures
      var next := A.Apply(api, A.Resume(q));
      OnlyResumed(api, next) && Waiters(next) == Waiters(api) - {q}
  {
    A.InvStep(api, A.Resume(q));
  }

  /** Only one client's own state differs. */
  ghost predicate OnlyApi(s: Session, t: Session, c: nat) {
    && c in s.clients && c in t.clients
    && t == s.(clients := s.clients[c := s.clients[c].(api := t.clients[c].api)])
  }

  lemma OneResumes(s: Session, c: nat, q: nat) returns (l: Label, t: Session)
    requires c in s.clients && A.Inv(s.clients[c].api) && A.Resumable(s.clients[c].api, q)
    ensures l == Request(c, A.Resume(q)) && CanStep(s, l) && t == Step(s, l)
    ensures OnlyApi(s, t, c) && OnlyResumed(s.clients[c].api, t.clients[c].api)
    ensures |Waiters(t.clients[c].api)| < |Waiters(s.clients[c].api)|
  {
    ResumeApi(s.clients[c].api, q);
    assert q in Waiters(s.clients[c].api);
    l := Request(c, A.Resume(q));
    t := Step(s, l);
  }

  lemma OnlyApiTwice(s: Session, m: Session, t: Session, c: nat)
    requires OnlyApi(s, m, c) && OnlyApi(m, t, c)
    requires OnlyResumed(s.clients[c].api, m.clients[c].api) && OnlyResumed(m.clients[c].api, t.clients[c].api)
    ensures OnlyApi(s, t, c) && OnlyResumed(s.clients[c].api, t.clients[c].api)
  {
  }

  /** The requests that wait for a refresh that has settled go on, one after the other. */
  lemma {:induction false} WaitersResume(s: Session, c: nat) returns (ls: seq<Label>, t: Session)
    requires c in s.clients && A.Inv(s.clients[c].api)
    ensures IsRun(s, ls) && t == End(s, ls)
    ensures OnlyApi(s, t, c) && OnlyResumed(s.clients[c].api, t.clients[c].api) && A.Quiet(t.clients[c].api)
    decreases |Waiters(s.clients[c].api)|
  {
    if q: nat :| A.Resumable(s.clients[c].api, q) {
      var l, m := OneResumes(s, c, q);
      RunSnoc(s, [], l);
      var ms: seq<Label>;
      ms, t := WaitersResume(m, c);
      OnlyApiTwice(s, m, t, c);
      RunAppend(s, [] + [l], ms);
      ls := [] + [l] + ms;
    } else {
      ls, t := [], s;
    }
  }

  /** Whoever waits for a refresh that is out cannot resume yet. */
  lemma BusyIsQuiet(api: A.State)
    requires A.Inv(api) && api.fetching != {}
    ensures A.Quiet(api)
  {
    forall q ensures !A.Resumable(api, q) {
      if q in api.requests {
        assert A.RequestOk(api.requests[q], api.refreshPromise, api.nextRefresh, api.settled, api.token);
      }
    }
  }

  lemma RestIsIdle(api: A.State)
    requires A.Inv(api) && api.fetching == {} && A.Quiet(api)
    ensures Idle(api)
  {
    forall q | q in api.requests ensures !api.requests[q].phase.Waiting? {
      assert A.RequestOk(api.requests[q], api.refreshPromise, api.nextRefresh, api.settled, api.token);
      assert !A.Resumable(api, q);
    }
  }

  lemma SettledRests(api: A.State, r: nat)
    requires A.Inv(api) && r in api.fetching
    ensures A.Enabled(api, A.Settled(r, None))
    ensures
      var next := A.Apply(api, A.Settled(r, None));
      && A.Inv(next) && next.fetching == {} && next.nextRefresh == api.nextRefresh
      && next.requests.Keys == api.requests.Keys
  {
    BusyIsQuiet(api);
    A.InvStep(api, A.Settled(r, None));
  }

  /** The refresh that the client waits for ends without a new cookie: it fails, or its connection breaks. */
  lemma RefreshEnds(s: Session, call: Call) returns (l: Label, t: Session)
    requires call in s.flights && Awaits(s.clients, call) && A.Inv(s.clients[call.client].api)
    ensures CanStep(s, l) && t == Step(s, l) && (l == Lose(call) || l == Deliver(call, 0, false))
    ensures t.tokens == s.tokens && t.reuses == s.reuses && t.now == s.now && t.ttl == s.ttl
    ensures call.client in t.clients && t.clients[call.client].cookie == s.clients[call.client].cookie
    ensures
      var api, next := s.clients[call.client].api, t.clients[call.client].api;
      && A.Inv(next) && next.fetching == {} && next.nextRefresh == api.nextRefresh
      && next.requests.Keys == api.requests.Keys
    ensures !s.flights[call].Answer? ==> l.Lose? && t.flights == s.flights
  {
    SettledRests(s.clients[call.client].api, call.refresh);
    if s.flights[call].Answer? && s.flights[call].change.Keep? && !s.flights[call].ok {
      l := Deliver(call, 0, false);
    } else {
      l := Lose(call);
    }
    t := Step(s, l);
  }

  /** The client comes to rest with the cookie it has. */
  lemma ClientRests(s: Session, c: nat) returns (ls: seq<Label>, t: Session)
    requires ApisOk(s.clients) && Flying(s.clients, s.flights) && c in s.clients
    ensures IsRun(s, ls) && t == End(s, ls)
    ensures t.tokens == s.tokens && t.reuses == s.reuses && t.now == s.now && t.ttl == s.ttl
    ensures c in t.clients && t.clients[c].cookie == s.clients[c].cookie && Idle(t.clients[c].api)
    ensures t.clients[c].api.nextRefresh == s.clients[c].api.nextRefresh
    ensures t.clients[c].api.requests.Keys == s.clients[c].api.requests.Keys
    ensures s.clients[c].api.fetching == {} ==> t.flights == s.flights
  {
    assert A.Inv(s.clients[c].api);
    var m := s;
    ls := [];
    if r: nat :| r in s.clients[c].api.fetching {
      var l: Label;
      assert Awaits(s.clients, Call(c, r));
      l, m := RefreshEnds(s, Call(c, r));
      RunSnoc(s, [], l);
      ls := [] + [l];
    }
    var ms: seq<Label>;
    ms, t := WaitersResume(m, c);
    RunAppend(s, ls, ms);
    ls := ls + ms;
    RestIsIdle(t.clients[c].api);
  }

  /** The client's state once a new request has met an expired access token and started a refresh. */
  ghost predicate RefreshingApi(api: A.State, q: nat, next: A.State) {
    var expired := A.Response(401, true, 0);
    && A.Enabled(api, A.Begin(q)) && A.Enabled(A.Apply(api, A.Begin(q)), A.Respond(q, expired))
    && A.Enabled(A.Apply(A.Apply(api, A.Begin(q)), A.Respond(q, expired)), A.CodeRead(q))
    && next == A.Apply(A.Apply(A.Apply(api, A.Begin(q)), A.Respond(q, expired)), A.CodeRead(q))
  }

  /** A quiet client whose access token has expired refreshes with the cookie it has. */
  lemma NextRefresh(s: Session, c: nat, q: nat) returns (ls: seq<Label>, t: Session)
    requires c in s.clients && q !in s.clients[c].api.requests && Idle(s.clients[c].api)
    ensures IsRun(s, ls) && t == End(s, ls)
    ensures t.tokens == s.tokens && t.reuses == s.reuses && t.now == s.now && t.ttl == s.ttl
    ensures t.flights == s.flights[Call(c, s.clients[c].api.nextRefresh) := Sent(s.clients[c].cookie)]
    ensures c in t.clients && t.clients[c].cookie == s.clients[c].cookie
    ensures RefreshingApi(s.clients[c].api, q, t.clients[c].api)
  {
    var expired := A.Response(401, true, 0);
    ls := [] + [Request(c, A.Begin(q))];
    RunSnoc(s, [], Request(c, A.Begin(q)));
    t := Step(s, Request(c, A.Begin(q)));
    RunSnoc(s, ls, Request(c, A.Respond(q, expired)));
    ls, t := ls + [Request(c, A.Respond(q, expired))], Step(t, Request(c, A.Respond(q, expired)));
    RunSnoc(s, ls, Request(c, A.CodeRead(q)));
    ls, t := ls + [Request(c, A.CodeRead(q))], Step(t, Request(c, A.CodeRead(q)));
  }

  // ---------- What a loss leads to ----------

  /** The client is quiet, and its cookie is a revoked token. */
  ghost predicate Stranded(s: Session, c: nat) {
    && c in s.clients && Idle(s.clients[c].api) && s.clients[c].cookie.Some?
    && s.clients[c].cookie.value in s.tokens && s.tokens[s.clients[c].cookie.value].revoked
  }

  /** No token of the user is live. */
  ghost predicate NoSession(tokens: Table, user: nat) {
    forall tok | tok in tokens && tokens[tok].user == user :: tokens[tok].revoked
  }

  /** The next refresh of a stranded client revokes every session of its token's user. */
  lemma StrandedCookieEndsEverySession(s: Session, c: nat, q: nat) returns (ls: seq<Label>, t: Session)
    requires Stranded(s, c) && q !in s.clients[c].api.requests
    ensures IsRun(s, ls) && t == End(s, ls) && t.reuses == s.reuses + 1
    ensures NoSession(t.tokens, s.tokens[s.clients[c].cookie.value].user)
  {
    var ks, m := NextRefresh(s, c, q);
    var call := Call(c, s.clients[c].api.nextRefresh);
    RunSnoc(s, ks, Lookup(call, true, true));
    ls, t := ks + [Lookup(call, true, true)], Step(m, Lookup(call, true, true));
  }

  /** Wherever a client's cookie is a revoked token, its next refresh can cost its user every session. */
  lemma SpentCookieEndsEverySession(s: Session, c: nat) returns (ls: seq<Label>, t: Session)
    requires ApisOk(s.clients) && Flying(s.clients, s.flights) && c in s.clients && s.clients[c].cookie.Some?
    requires s.clients[c].cookie.value in s.tokens && s.tokens[s.clients[c].cookie.value].revoked
    ensures IsRun(s, ls) && t == End(s, ls) && t.reuses == s.reuses + 1
    ensures NoSession(t.tokens, s.tokens[s.clients[c].cookie.value].user)
  {
    var ks, m := ClientRests(s, c);
    var q := Larger(m.clients[c].api.requests.Keys);
    var ms: seq<Label>;
    ms, t := StrandedCookieEndsEverySession(m, c, q);
    RunAppend(s, ks, ms);
    ls := ks + ms;
  }

  /** The client's cookie is the token of this call, which the server has found, or can find, valid. */
  ghost predicate AtStake(s: Session, call: Call) {
    && call in s.flights && call.client in s.clients && s.clients[call.client].cookie.Some?
    && var tok := s.clients[call.client].cookie.value;
    && tok in s.tokens
    && (s.flights[call] == Found(tok) || (s.flights[call] == Sent(Some(tok)) && s.now <= s.tokens[tok].expiresAt))
  }

  /** The server goes on with a call, and spends its token. */
  lemma CallSpends(s: Session, call: Call) returns (ls: seq<Label>, t: Session)
    requires AtStake(s, call) && !s.tokens[s.clients[call.client].cookie.value].revoked
    ensures IsRun(s, ls) && t == End(s, ls) && t.clients == s.clients && t.flights.Keys == s.flights.Keys
    ensures t.reuses == s.reuses
    ensures
      var tok := s.clients[call.client].cookie.value;
      tok in t.tokens && t.tokens[tok].revoked && t.tokens[tok].user == s.tokens[tok].user
  {
    var tok := s.clients[call.client].cookie.value;
    var m := s;
    ls := [];
    if s.flights[call].Sent? {
      RunSnoc(s, [], Lookup(call, true, true));
      ls, m := [] + [Lookup(call, true, true)], Step(s, Lookup(call, true, true));
    }
    var next := Larger(m.tokens.Keys);
    var ms: seq<Label>;
    ms, t := CallIssues(m, call, tok, next);
    RunAppend(s, ls, ms);
    ls := ls + ms;
  }

  /** The client's cookie is the token of this call, and it is spent or can be. */
  ghost predicate Doomed(s: Session, call: Call) {
    && call.client in s.clients && s.clients[call.client].cookie.Some?
    && s.clients[call.client].cookie.value in s.tokens
    && (s.tokens[s.clients[call.client].cookie.value].revoked || AtStake(s, call))
  }

  /** The step changed no cookie and no token's user, and nothing was found reused. */
  ghost predicate SameCookie(s: Session, t: Session, c: nat) {
    && t.reuses == s.reuses && c in s.clients && c in t.clients && t.clients[c].cookie == s.clients[c].cookie
    && forall tok | tok in s.tokens :: tok in t.tokens && t.tokens[tok].user == s.tokens[tok].user
  }

  lemma LostCallIsDoomed(s: Session, call: Call)
    requires Sane(s.tokens, s.flights) && call in s.flights && Awaited(s, call) && CanStrand(s, call)
    ensures Doomed(Lost(s, call), call) && SameCookie(s, Lost(s, call), call.client)
  {
    assert FlightSane(s.flights[call], s.tokens);
  }

  lemma FailedRevokeIsDoomed(s: Session, call: Call, fault: Fault)
    requires AtFound(s, call) && Rotated(s, call, fault).losses > s.losses
    ensures Doomed(Rotated(s, call, fault), call) && SameCookie(s, Rotated(s, call, fault), call.client)
  {
  }

  lemma FailedIssueIsDoomed(s: Session, call: Call, tok: Tok, fault: Fault)
    requires Sane(s.tokens, s.flights) && AtRotating(s, call) && tok !in s.tokens
    requires Issued(s, call, tok, fault).losses > s.losses
    ensures Doomed(Issued(s, call, tok, fault), call) && SameCookie(s, Issued(s, call, tok, fault), call.client)
  {
    assert FlightSane(s.flights[call], s.tokens);
  }

  /** Only these steps raise the count, and only for a client whose cookie the call has spent or can spend. */
  lemma LossDooms(s: Session, l: Label)
    requires Sound(s) && CanStep(s, l) && Step(s, l).losses > s.losses
    ensures l.Lose? || l.Rotate? || l.Issue?
    ensures Doomed(Step(s, l), l.call) && SameCookie(s, Step(s, l), l.call.client)
  {
    match l
    case Lose(call) => LostCallIsDoomed(s, call);
    case Rotate(call, fault) => FailedRevokeIsDoomed(s, call, fault);
    case Issue(call, tok, fault) => FailedIssueIsDoomed(s, call, tok, fault);
    case Lookup(call, ok, family) => LookupMovesOne(s, call, ok, family);
    case _ =>
  }

  lemma DoomEndsEverySession(s: Session, call: Call) returns (ls: seq<Label>, t: Session)
    requires ApisOk(s.clients) && Flying(s.clients, s.flights) && Doomed(s, call)
    ensures IsRun(s, ls) && t == End(s, ls) && t.reuses == s.reuses + 1
    ensures NoSession(t.tokens, s.tokens[s.clients[call.client].cookie.value].user)
  {
    var c := call.client;
    if s.tokens[s.clients[c].cookie.value].revoked {
      ls, t := SpentCookieEndsEverySession(s, c);
    } else {
      var ms, n := CallSpends(s, call);
      var ns: seq<Label>;
      ns, t := SpentCookieEndsEverySession(n, c);
      RunAppend(s, ms, ns);
      ls := ms + ns;
    }
  }

  /**
   * Every such loss can cost the user every session: whatever was lost or failed, wherever that
   * was, some run from there has the client's cookie found reused.
   */
  lemma LossCanEndEverySession(now: int, ttl: int, ks: seq<Label>, s: Session, l: Label)
    returns (ls: seq<Label>, t: Session, tok: Tok)
    requires Reached(now, ttl, ks, s) && CanStep(s, l) && Step(s, l).losses > s.losses
    ensures IsRun(Step(s, l), ls) && t == End(Step(s, l), ls) && t.reuses == s.reuses + 1
    ensures (l.Lose? || l.Rotate? || l.Issue?) && CookieOf(s.clients, l.call.client) == Some(tok)
    ensures tok in Step(s, l).tokens && NoSession(t.tokens, Step(s, l).tokens[tok].user)
  {
    ReachedInv(now, ttl, ks, s);
    LossDooms(s, l);
    SoundStep(s, l);
    tok := Step(s, l).clients[l.call.client].cookie.value;
    ls, t := DoomEndsEverySession(Step(s, l), l.call);
  }

  // ---------- From the start ----------

  /** A client joins and logs in. */
  lemma OneClientSignsOn(now: int, ttl: int) returns (ls: seq<Label>, t: Session)
    ensures Reached(now, ttl, ls, t)
    ensures t.tokens == map[0 := Token(0, now + ttl, false, None)] && t.now == now && t.ttl == ttl
    ensures t.flights == map[] && t.reuses == 0
    ensures 0 in t.clients && t.clients[0].cookie == Some(0)
    ensures Idle(t.clients[0].api) && t.clients[0].api.requests == map[] && t.clients[0].api.nextRefresh == 0
    ensures A.Inv(t.clients[0].api)
  {
    var s := Start(now, ttl);
    RunSnoc(s, [], Join(0, 0));
    t := Step(s, Join(0, 0));
    RunSnoc(s, [] + [Join(0, 0)], SignOn(0, 0, 0));
    t := Step(t, SignOn(0, 0, 0));
    RunSnoc(s, [] + [Join(0, 0)] + [SignOn(0, 0, 0)], SignOnDone(0, 0));
    ls, t := [] + [Join(0, 0)] + [SignOn(0, 0, 0)] + [SignOnDone(0, 0)], Step(t, SignOnDone(0, 0));
  }

  /** The refresh of a quiet client gets past its look-up. */
  lemma RefreshIsFound(s: Session, c: nat, q: nat) returns (ls: seq<Label>, t: Session)
    requires c in s.clients && q !in s.clients[c].api.requests && Idle(s.clients[c].api) && s.clients[c].cookie.Some?
    requires
      var tok := s.clients[c].cookie.value;
      tok in s.tokens && !s.tokens[tok].revoked && s.now <= s.tokens[tok].expiresAt
    ensures IsRun(s, ls) && t == End(s, ls)
    ensures t.tokens == s.tokens && t.now == s.now && t.ttl == s.ttl
    ensures t.flights == s.flights[Call(c, s.clients[c].api.nextRefresh) := Found(s.clients[c].cookie.value)]
    ensures c in t.clients && t.clients[c].cookie == s.clients[c].cookie
  {
    var ks, m := NextRefresh(s, c, q);
    var call := Call(c, s.clients[c].api.nextRefresh);
    RunSnoc(s, ks, Lookup(call, true, true));
    ls, t := ks + [Lookup(call, true, true)], Step(m, Lookup(call, true, true));
  }

  lemma ExpiredApi(api: A.State, q: nat, next: A.State)
    requires A.Inv(api) && Idle(api) && q !in api.requests && RefreshingApi(api, q, next)
    ensures A.Inv(next) && api.nextRefresh in next.fetching
    ensures next.nextRefresh == api.nextRefresh + 1 && next.requests.Keys == api.requests.Keys + {q}
  {
    var expired := A.Response(401, true, 0);
    A.InvStep(api, A.Begin(q));
    var begun := A.Apply(api, A.Begin(q));
    A.InvStep(begun, A.Respond(q, expired));
    A.InvStep(A.Apply(begun, A.Respond(q, expired)), A.CodeRead(q));
  }

  /** The first client's first refresh is sent. */
  lemma FirstRefreshIsSent(now: int, ttl: nat) returns (ls: seq<Label>, t: Session)
    ensures Reached(now, ttl, ls, t)
    ensures t.tokens == map[0 := Token(0, now + ttl, false, None)] && t.now == now && t.ttl == ttl && t.reuses == 0
    ensures t.flights == map[Call(0, 0) := Sent(Some(0))]
    ensures 0 in t.clients && t.clients[0].cookie == Some(0)
    ensures A.Inv(t.clients[0].api) && 0 in t.clients[0].api.fetching
    ensures t.clients[0].api.requests.Keys == {0} && t.clients[0].api.nextRefresh == 1
  {
    var s := Start(now, ttl);
    ls, t := OneClientSignsOn(now, ttl);
    var ms, m := NextRefresh(t, 0, 0);
    ExpiredApi(t.clients[0].api, 0, m.clients[0].api);
    RunAppend(s, ls, ms);
    ls, t := ls + ms, m;
  }

  /** Reuse detection does strike an honest client, in a run from the start with one broken connection. */
  lemma ReuseCanHappen(now: int, ttl: nat) returns (ls: seq<Label>, t: Session)
    ensures Reached(now, ttl, ls, t) && t.reuses == 1 && NoSession(t.tokens, 0)
  {
    var ks, s := FirstRefreshIsSent(now, ttl);
    var first := Call(0, 0);
    SettledRests(s.clients[0].api, 0);
    var ms, u, tok := LossCanEndEverySession(now, ttl, ks, s, Lose(first));
    RunSnoc(Start(now, ttl), ks, Lose(first));
    RunAppend(Start(now, ttl), ks + [Lose(first)], ms);
    ls, t := ks + [Lose(first)] + ms, u;
  }

  /** The client's first refresh is past its look-up when its connection breaks. */
  lemma FirstRefreshIsCut(now: int, ttl: nat) returns (ls: seq<Label>, t: Session)
    ensures Reached(now, ttl, ls, t)
    ensures t.tokens == map[0 := Token(0, now + ttl, false, None)] && t.now == now && t.ttl == ttl
    ensures t.flights == map[Call(0, 0) := Found(0)]
    ensures 0 in t.clients && t.clients[0].cookie == Some(0) && Idle(t.clients[0].api)
    ensures 1 !in t.clients[0].api.requests && t.clients[0].api.nextRefresh == 1
  {
    var s := Start(now, ttl);
    ls, t := FirstRefreshIsSent(now, ttl);
    var first := Call(0, 0);
    RunSnoc(s, ls, Lookup(first, true, true));
    ls, t := ls + [Lookup(first, true, true)], Step(t, Lookup(first, true, true));
    assert Awaits(t.clients, first);
    var l, m := RefreshEnds(t, first);
    RunSnoc(s, ls, l);
    var ms: seq<Label>;
    ms, t := WaitersResume(m, 0);
    RestIsIdle(t.clients[0].api);
    RunAppend(s, ls + [l], ms);
    ls := ls + [l] + ms;
  }

  /**
   * A token does get two live successors: one client, one connection that breaks while its
   * refresh is past the look-up, and the same client's next refresh. Chains need `Refresh` to be
   * one step, or no loss.
   */
  lemma OverlappingRefreshesFork(now: int, ttl: nat) returns (ls: seq<Label>, t: Session)
    ensures Reached(now, ttl, ls, t)
    ensures Child(t.tokens, 1, 0) && Child(t.tokens, 2, 0) && !t.tokens[1].revoked && !t.tokens[2].revoked
  {
    var s := Start(now, ttl);
    ls, t := FirstRefreshIsCut(now, ttl);
    var ms, m := RefreshIsFound(t, 0, 1);
    RunAppend(s, ls, ms);
    ls := ls + ms;
    ms, t := CrossingForks(m, Call(0, 0), Call(0, 1), 0, 1, 2);
    RunAppend(s, ls, ms);
    ls := ls + ms;
  }
}
