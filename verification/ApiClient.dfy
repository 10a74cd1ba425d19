/**
 * `ApiClient`'s token refresh (frontend/app/lib/apiClient.ts) as a state machine over the
 * code between `await`s. When a refresh settles, the requests that wait for it resume as
 * microtasks, before any other event is handled: every other step needs an empty queue.
 */
module ApiClient {
  import opened Options

  type AccessToken = nat

  /** A response; `expired` says that its body parses and carries the code `token_expired`. */
  datatype Response = Response(status: int, expired: bool, serial: nat)

  datatype Phase =
    | First(sentWith: Option<AccessToken>)        // the first fetch is out
    | ReadingCode(first: Response)                // a 401 came; its body is being read
    | Waiting(first: Response, refresh: nat)      // for the shared refresh
    | Second(sentWith: Option<AccessToken>)       // the retry is out
    | Returned(response: Response)
    | Threw

  /** `via` is history: the refresh that the request has waited for, or waits for. */
  datatype Request = Request(phase: Phase, fetches: nat, via: Option<nat>)

  datatype State = State(
    token: Option<AccessToken>,
    refreshPromise: Option<nat>,
    nextRefresh: nat,
    fetching: set<nat>,                        // calls of /auth/refresh that are out
    settled: map<nat, Option<AccessToken>>,    // and how the others ended
    requests: map<nat, Request>)

  function Init(token: Option<AccessToken>): State {
    State(token, None, 0, {}, map[], map[])
  }

  datatype Label =
    | Begin(q: nat)
    | Respond(q: nat, response: Response)
    | CodeRead(q: nat)
    | Settled(refresh: nat, outcome: Option<AccessToken>)
    | Resume(q: nat)
    | Break(q: nat)
    | SignIn(access: AccessToken)

  predicate Resumable(s: State, q: nat) {
    q in s.requests && s.requests[q].phase.Waiting? && s.requests[q].phase.refresh in s.settled
  }

  /** The microtask queue is empty. */
  ghost predicate Quiet(s: State) {
    forall q :: !Resumable(s, q)
  }

  ghost predicate Enabled(s: State, l: Label) {
    match l
    case Begin(q) => Quiet(s) && q !in s.requests
    case Respond(q, _) => Quiet(s) && q in s.requests && (s.requests[q].phase.First? || s.requests[q].phase.Second?)
    case CodeRead(q) => Quiet(s) && q in s.requests && s.requests[q].phase.ReadingCode?
    case Settled(r, _) => Quiet(s) && r in s.fetching
    case Resume(q) => Resumable(s, q)
    case Break(q) => Quiet(s) && q in s.requests && (s.requests[q].phase.First? || s.requests[q].phase.Second?)
    case SignIn(_) => Quiet(s)
  }

  function Move(s: State, q: nat, phase: Phase): State
    requires q in s.requests
  {
    s.(requests := s.requests[q := s.requests[q].(phase := phase)])
  }

  /** `refreshToken()`: the running refresh if there is one, else a new one. */
  function SharedRefresh(s: State): (State, nat) {
    if s.refreshPromise.Some? then (s, s.refreshPromise.value)
    else (s.(refreshPromise := Some(s.nextRefresh), nextRefresh := s.nextRefresh + 1,
             fetching := s.fetching + {s.nextRefresh}), s.nextRefresh)
  }

  ghost function Apply(s: State, l: Label): State
    requires Enabled(s, l)
  {
    match l
    case Begin(q) => s.(requests := s.requests[q := Request(First(s.token), 1, None)])
    case Respond(q, response) =>
      if s.requests[q].phase.First? && response.status == 401 then Move(s, q, ReadingCode(response))
      else Move(s, q, Returned(response))
    case CodeRead(q) =>
      var first := s.requests[q].phase.first;
      if !first.expired then Move(s, q, Returned(first))
      else
        var (t, r) := SharedRefresh(s);
        t.(requests := t.requests[q := Request(Waiting(first, r), t.requests[q].fetches, Some(r))])
    case Settled(r, outcome) =>
      s.(token := if outcome.Some? then outcome else s.token,
         refreshPromise := None, fetching := s.fetching - {r}, settled := s.settled[r := outcome])
    case Resume(q) =>
      var Waiting(first, r) := s.requests[q].phase;
      if s.settled[r].Some? then
        s.(requests := s.requests[q := Request(Second(s.token), s.requests[q].fetches + 1, Some(r))])
      else
        Move(s.(token := None), q, Returned(first))
    case Break(q) => Move(s, q, Threw)
    case SignIn(access) => s.(token := Some(access))
  }

  // ---------- Invariant ----------

  ghost predicate OneRefresh(refreshPromise: Option<nat>, nextRefresh: nat, fetching: set<nat>,
                             settled: map<nat, Option<AccessToken>>) {
    && fetching == (if refreshPromise.Some? then {refreshPromise.value} else {})
    && (refreshPromise.Some? ==> refreshPromise.value == nextRefresh - 1)
    && (forall r | r in settled :: r < nextRefresh && r !in fetching)
  }

  /** A first response is passed on as it is, unless it says that the token expired: then the refresh has failed. */
  predicate GaveUpRightly(via: Option<nat>, response: Response, settled: map<nat, Option<AccessToken>>) {
    if response.status == 401 && response.expired then
      via.Some? && via.value in settled && settled[via.value].None?
    else via.None?
  }

  predicate RequestOk(request: Request, refreshPromise: Option<nat>, nextRefresh: nat,
                      settled: map<nat, Option<AccessToken>>, token: Option<AccessToken>) {
    && 1 <= request.fetches <= 2
    && (request.fetches == 2 ==>
          request.via.Some? && request.via.value in settled && settled[request.via.value].Some?)
    && match request.phase
       case First(_) => request.fetches == 1 && request.via.None?
       case ReadingCode(first) => request.fetches == 1 && request.via.None? && first.status == 401
       case Waiting(first, r) =>
         && request.fetches == 1 && request.via == Some(r) && first.status == 401 && first.expired
         && (refreshPromise == Some(r) ||
             (r in settled && refreshPromise.None? && r == nextRefresh - 1
              && (settled[r].Some? ==> token == settled[r])))
       case Second(_) => request.fetches == 2
       case Returned(response) => request.fetches == 1 ==> GaveUpRightly(request.via, response, settled)
       case Threw => true
  }

  ghost predicate RequestsOk(requests: map<nat, Request>, refreshPromise: Option<nat>, nextRefresh: nat,
                             settled: map<nat, Option<AccessToken>>, token: Option<AccessToken>) {
    forall q | q in requests :: RequestOk(requests[q], refreshPromise, nextRefresh, settled, token)
  }

  ghost predicate Inv(s: State) {
    && OneRefresh(s.refreshPromise, s.nextRefresh, s.fetching, s.settled)
    && RequestsOk(s.requests, s.refreshPromise, s.nextRefresh, s.settled, s.token)
  }

  lemma RequestStays(s: State, t: State, q: nat)
    requires Inv(s) && q in s.requests && q in t.requests && t.requests[q] == s.requests[q]
    requires Quiet(s) && Inv(s)
    requires s.refreshPromise.Some? ==> t.refreshPromise == s.refreshPromise
    requires forall r | r in s.settled :: r in t.settled && t.settled[r] == s.settled[r]
    ensures RequestOk(t.requests[q], t.refreshPromise, t.nextRefresh, t.settled, t.token)
  {
    assert RequestOk(s.requests[q], s.refreshPromise, s.nextRefresh, s.settled, s.token);
    assert !Resumable(s, q);
  }

  lemma SettledInv(s: State, r: nat, outcome: Option<AccessToken>)
    requires Inv(s) && Enabled(s, Settled(r, outcome))
    ensures Inv(Apply(s, Settled(r, outcome)))
  {
    var t := Apply(s, Settled(r, outcome));
    forall q | q in t.requests ensures RequestOk(t.requests[q], t.refreshPromise, t.nextRefresh, t.settled, t.token) {
      assert RequestOk(s.requests[q], s.refreshPromise, s.nextRefresh, s.settled, s.token);
      assert !Resumable(s, q);
    }
  }

  lemma ResumeInv(s: State, q: nat)
    requires Inv(s) && Enabled(s, Resume(q))
    ensures Inv(Apply(s, Resume(q)))
  {
    var t := Apply(s, Resume(q));
    assert RequestOk(s.requests[q], s.refreshPromise, s.nextRefresh, s.settled, s.token);
    forall p | p in t.requests ensures RequestOk(t.requests[p], t.refreshPromise, t.nextRefresh, t.settled, t.token) {
      assert RequestOk(s.requests[p], s.refreshPromise, s.nextRefresh, s.settled, s.token);
    }
  }

  lemma InvStep(s: State, l: Label)
    requires Inv(s) && Enabled(s, l)
    ensures Inv(Apply(s, l))
  {
    match l
    case Settled(r, outcome) => SettledInv(s, r, outcome);
    case Resume(q) => ResumeInv(s, q);
    case _ =>
      var t := Apply(s, l);
      forall q | q in t.requests ensures RequestOk(t.requests[q], t.refreshPromise, t.nextRefresh, t.settled, t.token) {
        if q in s.requests {
          assert RequestOk(s.requests[q], s.refreshPromise, s.nextRefresh, s.settled, s.token);
          if t.requests[q] == s.requests[q] {
            RequestStays(s, t, q);
          }
        }
      }
  }

  ghost predicate Valid(s: State, ls: seq<Label>)
    decreases |ls|
  {
    ls == [] || (Enabled(s, ls[0]) && Valid(Apply(s, ls[0]), ls[1..]))
  }

  ghost function After(s: State, ls: seq<Label>): State
    requires Valid(s, ls)
    decreases |ls|
  {
    if ls == [] then s else After(Apply(s, ls[0]), ls[1..])
  }

  lemma {:induction false} InvAfter(s: State, ls: seq<Label>)
    requires Inv(s) && Valid(s, ls)
    ensures Inv(After(s, ls))
    decreases |ls|
  {
    if ls != [] {
      InvStep(s, ls[0]);
      InvAfter(Apply(s, ls[0]), ls[1..]);
    }
  }

  ghost predicate Reached(token: Option<AccessToken>, ls: seq<Label>, t: State) {
    Valid(Init(token), ls) && t == After(Init(token), ls)
  }

  lemma {:induction false} RunSnoc(s: State, ls: seq<Label>, l: Label)
    requires Valid(s, ls) && Enabled(After(s, ls), l)
    ensures Valid(s, ls + [l]) && After(s, ls + [l]) == Apply(After(s, ls), l)
    decreases |ls|
  {
    if ls == [] {
      assert [l][1..] == [];
    } else {
      RunSnoc(Apply(s, ls[0]), ls[1..], l);
      assert (ls + [l])[1..] == ls[1..] + [l];
    }
  }

  ghost predicate Reachable(s: State) {
    exists token, ls :: Reached(token, ls, s)
  }

  lemma ReachableStep(s: State, l: Label)
    requires Reachable(s) && Enabled(s, l)
    ensures Reachable(Apply(s, l))
  {
    var token, ls :| Reached(token, ls, s);
    RunSnoc(Init(token), ls, l);
    assert Reached(token, ls + [l], Apply(s, l));
  }

  // ---------- Theorems ----------

  /** However many requests expire together, at most one refresh is out, and everyone who waits waits for it. */
  lemma RefreshIsSingleFlight(token: Option<AccessToken>, ls: seq<Label>, t: State, q: nat)
    requires Reached(token, ls, t)
    ensures |t.fetching| <= 1
    ensures q in t.requests && t.requests[q].phase.Waiting? ==>
              t.fetching == {t.requests[q].phase.refresh} || Resumable(t, q)
  {
    InvAfter(Init(token), ls);
    assert q in t.requests ==> RequestOk(t.requests[q], t.refreshPromise, t.nextRefresh, t.settled, t.token);
  }

  /** Each request fetches its path at most twice, and the second time only behind a refresh that succeeded for it. */
  lemma AtMostTwoFetches(token: Option<AccessToken>, ls: seq<Label>, t: State, q: nat)
    requires Reached(token, ls, t) && q in t.requests
    ensures 1 <= t.requests[q].fetches <= 2
    ensures t.requests[q].fetches == 2 ==>
              && t.requests[q].via.Some? && t.requests[q].via.value in t.settled
              && t.settled[t.requests[q].via.value].Some?
    ensures t.requests[q].phase.First? || t.requests[q].phase.ReadingCode? || t.requests[q].phase.Waiting? ==>
              t.requests[q].fetches == 1
  {
    InvAfter(Init(token), ls);
    assert RequestOk(t.requests[q], t.refreshPromise, t.nextRefresh, t.settled, t.token);
  }

  /**
   * A request returns its first response as it came, without any refresh, unless that is a 401
   * whose token expired; such a one it returns if and only if the refresh it waited for failed.
   */
  lemma OnlyAFailedRefreshGivesUp(token: Option<AccessToken>, ls: seq<Label>, t: State, q: nat)
    requires Reached(token, ls, t) && q in t.requests && t.requests[q].phase.Returned? && t.requests[q].fetches == 1
    ensures
      var request := t.requests[q];
      var response := request.phase.response;
      && (request.via.Some? <==> response.status == 401 && response.expired)
      && (request.via.Some? ==> request.via.value in t.settled && t.settled[request.via.value].None?)
  {
    InvAfter(Init(token), ls);
    assert RequestOk(t.requests[q], t.refreshPromise, t.nextRefresh, t.settled, t.token);
  }

  // ---------- Whose responses requests return ----------

  /** The response that the request has in its hands. */
  function Held(request: Request): Option<Response> {
    match request.phase
    case ReadingCode(first) => Some(first)
    case Waiting(first, _) => Some(first)
    case Returned(response) => Some(response)
    case _ => None
  }

  ghost predicate Holds(s: State, q: nat, response: Response) {
    q in s.requests && Held(s.requests[q]) == Some(response)
  }

  lemma HeldStep(s: State, l: Label, q: nat, response: Response)
    requires Enabled(s, l) && Holds(Apply(s, l), q, response)
    ensures Holds(s, q, response) || l == Respond(q, response)
  {
  }

  lemma {:induction false} HeldAfter(s: State, ls: seq<Label>, q: nat, response: Response)
    requires Valid(s, ls) && Holds(After(s, ls), q, response)
    ensures Holds(s, q, response) || Respond(q, response) in ls
    decreases |ls|
  {
    if ls != [] {
      HeldAfter(Apply(s, ls[0]), ls[1..], q, response);
      if Holds(Apply(s, ls[0]), q, response) {
        HeldStep(s, ls[0], q, response);
      }
    }
  }

  /** A request returns only what the server answered to that very request. */
  lemma ResponsesAreTheServers(token: Option<AccessToken>, ls: seq<Label>, t: State, q: nat)
    requires Reached(token, ls, t) && q in t.requests && t.requests[q].phase.Returned?
    ensures Respond(q, t.requests[q].phase.response) in ls
  {
    HeldAfter(Init(token), ls, q, t.requests[q].phase.response);
  }

  // ---------- Which token a request is sent with ----------

  /** The step changes the stored token: a login, a refresh that succeeds, or a waiter that gives up. */
  predicate Changes(s: State, l: Label) {
    || l.SignIn?
    || (l.Settled? && l.outcome.Some?)
    || (l.Resume? && Resumable(s, l.q) && s.settled[s.requests[l.q].phase.refresh].None?)
  }

  /** What the stored token is after a step that changes it. */
  function ChangedTo(l: Label): Option<AccessToken> {
    match l
    case SignIn(access) => Some(access)
    case Settled(_, outcome) => outcome
    case _ => None
  }

  ghost predicate NoChange(s: State, ls: seq<Label>)
    requires Valid(s, ls)
    decreases |ls|
  {
    ls == [] || (!Changes(s, ls[0]) && NoChange(Apply(s, ls[0]), ls[1..]))
  }

  lemma TokenStep(s: State, l: Label)
    requires Enabled(s, l)
    ensures Apply(s, l).token == if Changes(s, l) then ChangedTo(l) else s.token
  {
  }

  lemma {:induction false} TokenAfter(s: State, ls: seq<Label>)
    requires Valid(s, ls) && NoChange(s, ls)
    ensures After(s, ls).token == s.token
    decreases |ls|
  {
    if ls != [] {
      TokenStep(s, ls[0]);
      TokenAfter(Apply(s, ls[0]), ls[1..]);
    }
  }

  lemma FirstFetchStep(s: State, l: Label, q: nat)
    requires Enabled(s, l) && q in s.requests
    ensures q in Apply(s, l).requests
    ensures Apply(s, l).requests[q].phase.First? ==> Apply(s, l).requests[q].phase == s.requests[q].phase
  {
  }

  lemma {:induction false} FirstFetchAfter(s: State, ls: seq<Label>, q: nat)
    requires Valid(s, ls) && q in s.requests
    ensures q in After(s, ls).requests
    ensures After(s, ls).requests[q].phase.First? ==> After(s, ls).requests[q].phase == s.requests[q].phase
    decreases |ls|
  {
    if ls != [] {
      FirstFetchStep(s, ls[0], q);
      FirstFetchAfter(Apply(s, ls[0]), ls[1..], q);
    }
  }

  /**
   * A request begun after a change of the stored token and before the next one is sent with what
   * the change left: the token of the login, that of the refresh that succeeded, or none after a
   * waiter gave up; and it stays sent with that while its first fetch is out.
   */
  lemma FirstFetchCarriesTheToken(s: State, change: Label, ls: seq<Label>, q: nat, ms: seq<Label>)
    requires Enabled(s, change) && Changes(s, change)
    requires Valid(Apply(s, change), ls) && NoChange(Apply(s, change), ls)
    requires Enabled(After(Apply(s, change), ls), Begin(q))
    requires Valid(Apply(After(Apply(s, change), ls), Begin(q)), ms)
    ensures
      var begun := Apply(After(Apply(s, change), ls), Begin(q));
      && q in begun.requests && q in After(begun, ms).requests
      && (change.SignIn? ==> begun.requests[q].phase == First(Some(change.access)))
      && (change.Settled? ==> begun.requests[q].phase == First(change.outcome) && change.outcome.Some?)
      && (change.Resume? ==> begun.requests[q].phase == First(None))
      && (After(begun, ms).requests[q].phase.First? ==>
            After(begun, ms).requests[q].phase == begun.requests[q].phase)
  {
    TokenStep(s, change);
    TokenAfter(Apply(s, change), ls);
    FirstFetchAfter(Apply(After(Apply(s, change), ls), Begin(q)), ms, q);
  }

  /** Before any change a request is sent with the token that was stored when the page was opened, if any. */
  lemma FirstFetchCarriesTheStoredToken(token: Option<AccessToken>, ls: seq<Label>, q: nat)
    requires Valid(Init(token), ls) && NoChange(Init(token), ls) && Enabled(After(Init(token), ls), Begin(q))
    ensures
      var begun := Apply(After(Init(token), ls), Begin(q));
      q in begun.requests && begun.requests[q].phase == First(token)
  {
    TokenAfter(Init(token), ls);
  }

  /**
   * A waiter whose refresh succeeded retries with exactly the token that refresh stored; one
   * whose refresh failed returns its own original 401 and leaves no token behind.
   */
  lemma WaitersResumeFaithfully(token: Option<AccessToken>, ls: seq<Label>, t: State, q: nat)
    requires Reached(token, ls, t) && Enabled(t, Resume(q))
    ensures
      var u := Apply(t, Resume(q));
      var Waiting(first, r) := t.requests[q].phase;
      && first.status == 401 && first.expired
      && (t.settled[r].Some? ==> u.requests[q].phase == Second(t.settled[r]) && u.token == t.settled[r])
      && (t.settled[r].None? ==> u.requests[q].phase == Returned(first) && u.token == None)
  {
    InvAfter(Init(token), ls);
    assert RequestOk(t.requests[q], t.refreshPromise, t.nextRefresh, t.settled, t.token);
  }

  // ---------- The client as an object ----------

  /**
   * `ApiClient` with its field `refreshPromise` and the stored access token, cut at its `await`s.
   * Requests that wait are kept by the language runtime, and so is what each refresh came to.
   */
  class Client {
    var token: Option<AccessToken>
    var refreshPromise: Option<nat>     // names the promise
    var nextRefresh: nat
    var requests: map<nat, Request>
    var settled: map<nat, Option<AccessToken>>
    ghost var fetching: set<nat>

    ghost function View(): State
      reads this
    {
      State(token, refreshPromise, nextRefresh, fetching, settled, requests)
    }

    ghost predicate Valid()
      reads this
    {
      Reachable(View())
    }

    constructor (token: Option<AccessToken>)
      ensures Valid() && View() == Init(token)
    {
      this.token, refreshPromise, nextRefresh, requests, settled := token, None, 0, map[], map[];
      fetching := {};
      new;
      assert Reached(token, [], View());
    }

    method RefreshToken() returns (promise: nat)
      modifies this`refreshPromise, this`nextRefresh, this`fetching
      ensures (View(), promise) == SharedRefresh(old(View()))
    {
      if refreshPromise.None? {
        refreshPromise := Some(nextRefresh);
        fetching := fetching + {nextRefresh};
        nextRefresh := nextRefresh + 1;
      }
      return refreshPromise.value;
    }

    /** `fetchWithRefresh` up to its first await. */
    method FetchWithRefresh(q: nat)
      requires Valid() && Enabled(View(), Begin(q))
      modifies this`requests
      ensures Valid() && View() == Apply(old(View()), Begin(q))
      ensures requests == old(requests)[q := Request(First(token), 1, None)]
    {
      ReachableStep(View(), Begin(q));
      requests := requests[q := Request(First(token), 1, None)];
    }

    /** A response to the first fetch, or to the retry, which allows no further one. */
    method ResponseArrives(q: nat, response: Response)
      requires Valid() && Enabled(View(), Respond(q, response))
      modifies this`requests
      ensures Valid() && View() == Apply(old(View()), Respond(q, response))
      ensures q in requests && requests == old(requests)[q := requests[q]]
      ensures requests[q] == old(requests[q]).(phase :=
                if old(requests[q]).phase.First? && response.status == 401 then ReadingCode(response)
                else Returned(response))
    {
      ReachableStep(View(), Respond(q, response));
      var allowRetry := requests[q].phase.First?;
      if response.status != 401 || !allowRetry {
        requests := requests[q := requests[q].(phase := Returned(response))];
      } else {
        requests := requests[q := requests[q].(phase := ReadingCode(response))];
      }
    }

    method BodyIsRead(q: nat)
      requires Valid() && Enabled(View(), CodeRead(q))
      modifies this`requests, this`refreshPromise, this`nextRefresh, this`fetching
      ensures Valid() && View() == Apply(old(View()), CodeRead(q))
      ensures q in requests && requests == old(requests)[q := requests[q]]
      ensures
        var first := old(requests[q]).phase.first;
        if first.expired then
          && refreshPromise.Some? && requests[q].phase == Waiting(first, refreshPromise.value)
          && (old(refreshPromise).Some? ==> refreshPromise == old(refreshPromise) && nextRefresh == old(nextRefresh))
        else requests[q].phase == Returned(first) && refreshPromise == old(refreshPromise)
    {
      ReachableStep(View(), CodeRead(q));
      var first := requests[q].phase.first;
      if !first.expired {
        requests := requests[q := requests[q].(phase := Returned(first))];
        return;
      }
      var promise := RefreshToken();
      requests := requests[q := Request(Waiting(first, promise), requests[q].fetches, Some(promise))];
    }

    /** The refresh is answered and parsed, or not; the `finally` clears the field. */
    method RefreshSettles(refresh: nat, outcome: Option<AccessToken>)
      requires Valid() && Enabled(View(), Settled(refresh, outcome))
      modifies this
      ensures Valid() && View() == Apply(old(View()), Settled(refresh, outcome))
      ensures token == (if outcome.Some? then outcome else old(token)) && refreshPromise.None?
      ensures settled == old(settled)[refresh := outcome] && requests == old(requests)
    {
      ReachableStep(View(), Settled(refresh, outcome));
      if outcome.Some? {
        token := outcome;
      }
      refreshPromise := None;
      fetching, settled := fetching - {refresh}, settled[refresh := outcome];
    }

    /** The await of the refresh ends: retry with the stored token, or give up on it. */
    method WaiterResumes(q: nat)
      requires Valid() && Enabled(View(), Resume(q))
      modifies this`requests, this`token
      ensures Valid() && View() == Apply(old(View()), Resume(q))
      ensures q in requests && requests == old(requests)[q := requests[q]]
      ensures
        var Waiting(first, refresh) := old(requests[q]).phase;
        if settled[refresh].Some? then requests[q].phase == Second(token) && token == old(token)
        else requests[q].phase == Returned(first) && token.None?
    {
      ReachableStep(View(), Resume(q));
      var Waiting(first, refresh) := requests[q].phase;
      if settled[refresh].None? {
        token := None;
        requests := requests[q := requests[q].(phase := Returned(first))];
        return;
      }
      requests := requests[q := Request(Second(token), requests[q].fetches + 1, Some(refresh))];
    }

    method FetchThrows(q: nat)
      requires Valid() && Enabled(View(), Break(q))
      modifies this`requests
      ensures Valid() && View() == Apply(old(View()), Break(q))
    {
      ReachableStep(View(), Break(q));
      requests := requests[q := requests[q].(phase := Threw)];
    }

    method SetToken(access: AccessToken)
      requires Valid() && Enabled(View(), SignIn(access))
      modifies this`token
      ensures Valid() && View() == Apply(old(View()), SignIn(access))
    {
      ReachableStep(View(), SignIn(access));
      token := Some(access);
    }
  }
}
