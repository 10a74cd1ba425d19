/** The sessions machine's guarantees over every run: when reuse detection strikes, and when chains fork. */
module SessionTheorems {
  import opened Faults
  import opened Options
  import opened R = RefreshTokens
  import opened Sessions    // and with it its abbreviation A of ApiClient
  import opened I = SessionInvariants

  lemma ReachedInv(now: int, ttl: int, ls: seq<Label>, t: Session)
    requires Reached(now, ttl, ls, t)
    ensures I.Inv(t)
  {
    I.InvAfter(Start(now, ttl), ls);
  }

  /**
   * Clients that coalesce their refreshes never trip reuse detection: if "refresh token already
   * used" was ever answered, then before that a call was lost that could spend its client's
   * cookie or had spent it, or one failed that had just revoked it.
   */
  lemma ReuseNeedsALoss(now: int, ttl: int, ls: seq<Label>, t: Session)
    requires Reached(now, ttl, ls, t) && t.reuses > 0
    ensures t.losses > 0
  {
    ReachedInv(now, ttl, ls, t);
  }

  /**
   * Until such a loss, each cookie is an unrevoked token issued to that very client, or the
   * client's one refresh is replacing it; and no two clients have the same cookie.
   */
  lemma CookiesStayLive(now: int, ttl: int, ls: seq<Label>, t: Session, c: nat, d: nat)
    requires Reached(now, ttl, ls, t) && t.losses == 0
    requires c in t.clients && d in t.clients && t.clients[c].cookie.Some?
    ensures
      var tok := t.clients[c].cookie.value;
      && HeldBy(t.tokens, t.holders, tok, c)
      && (t.tokens[tok].revoked ==>
            exists r: nat :: t.clients[c].api.fetching == {r} && Replaces(t.flights, Call(c, r), tok))
    ensures c != d ==> t.clients[c].cookie != t.clients[d].cookie
  {
    ReachedInv(now, ttl, ls, t);
    var tok := t.clients[c].cookie.value;
    assert CookieOk(c, t.clients[c], t.tokens, t.holders, t.flights);
    assert CookieOk(d, t.clients[d], t.tokens, t.holders, t.flights);
    assert A.Inv(t.clients[c].api);
    if t.tokens[tok].revoked {
      var r: nat :| r in t.clients[c].api.fetching && Replaces(t.flights, Call(c, r), tok);
      assert t.clients[c].api.fetching == {r};
    }
  }

  /** Until such a loss, two calls carry one token only when it has expired and neither has been looked up. */
  lemma OneCallPerToken(now: int, ttl: int, ls: seq<Label>, t: Session, a: Call, b: Call, tok: Tok)
    requires Reached(now, ttl, ls, t) && t.losses == 0 && a != b
    requires Carries(t.flights, a, tok) && Carries(t.flights, b, tok)
    ensures t.flights[a].Sent? && t.flights[b].Sent? && tok in t.tokens && t.tokens[tok].expiresAt < t.now
  {
    ReachedInv(now, ttl, ls, t);
  }

  // ---------- One call per client ----------

  /** Nobody's connection breaks. */
  ghost predicate NoneLost(ls: seq<Label>) {
    forall i | 0 <= i < |ls| :: !ls[i].Lose?
  }

  ghost predicate AllAwaited(clients: map<nat, Browser>, flights: Flights) {
    forall call | call in flights :: Awaits(clients, call)
  }

  lemma RequestAwaited(s: Session, c: nat, a: A.Label)
    requires ApisOk(s.clients) && AllAwaited(s.clients, s.flights) && CanStep(s, Request(c, a))
    ensures
      var t := Requesting(s, c, A.Apply(s.clients[c].api, a));
      AllAwaited(t.clients, t.flights)
  {
    RequestApi(s, c, a);
  }

  lemma DeliveredAwaited(s: Session, call: Call, access: A.AccessToken, parsed: bool)
    requires ApisOk(s.clients) && AllAwaited(s.clients, s.flights) && AtAnswer(s, call) && Awaited(s, call)
    ensures AllAwaited(Delivered(s, call, access, parsed).clients, Delivered(s, call, access, parsed).flights)
  {
    var t := Delivered(s, call, access, parsed);
    forall other | other in t.flights ensures Awaits(t.clients, other) {
      assert Awaits(s.clients, other);
    }
  }

  lemma SignedOnAwaited(s: Session, n: nat, access: A.AccessToken)
    requires AllAwaited(s.clients, s.flights) && CanStep(s, SignOnDone(n, access))
    ensures AllAwaited(SignedOn(s, n, access).clients, s.flights)
  {
    forall call | call in s.flights ensures Awaits(SignedOn(s, n, access).clients, call) {
      assert Awaits(s.clients, call);
    }
  }

  lemma AwaitedStep(s: Session, l: Label)
    requires ApisOk(s.clients) && AllAwaited(s.clients, s.flights) && Flying(s.clients, s.flights)
    requires CanStep(s, l) && !l.Lose?
    ensures AllAwaited(Step(s, l).clients, Step(s, l).flights)
  {
    match l
    case Request(c, a) => RequestAwaited(s, c, a);
    case Deliver(call, access, parsed) => DeliveredAwaited(s, call, access, parsed);
    case SignOnDone(n, access) => SignedOnAwaited(s, n, access);
    case Lookup(_, _, _) => ServerFlying(s, l);
    case Rotate(_, _) => ServerFlying(s, l);
    case Issue(_, _, _) => ServerFlying(s, l);
    case _ =>
  }

  lemma {:induction false} AwaitedAfter(s: Session, ls: seq<Label>)
    requires Sound(s) && AllAwaited(s.clients, s.flights) && IsRun(s, ls) && NoneLost(ls)
    ensures Sound(End(s, ls)) && AllAwaited(End(s, ls).clients, End(s, ls).flights)
    decreases |ls|
  {
    if ls != [] {
      SoundStep(s, ls[0]);
      AwaitedStep(s, ls[0]);
      AwaitedAfter(Step(s, ls[0]), ls[1..]);
    }
  }

  /** While no connection breaks, a client never has two refresh calls under way. */
  lemma OneFlightPerClient(now: int, ttl: int, ls: seq<Label>, t: Session, a: Call, b: Call)
    requires Reached(now, ttl, ls, t) && NoneLost(ls)
    requires a in t.flights && b in t.flights && a.client == b.client
    ensures a == b
  {
    AwaitedAfter(Start(now, ttl), ls);
    OneAwaited(t, a, b);
  }

  // ---------- Chains fork only where two calls cross ----------

  /** The call has found the token valid and has not finished rotating it. */
  predicate Past(flight: Flight, p: Tok) {
    flight == Found(p) || flight == Rotating(p)
  }

  /** Two calls are past their look-up of one token at once. */
  ghost predicate Crossing(flights: Flights, p: Tok) {
    exists a, b :: a in flights && b in flights && a != b && Past(flights[a], p) && Past(flights[b], p)
  }

  ghost predicate EverCrossing(s: Session, ls: seq<Label>, p: Tok)
    requires IsRun(s, ls)
    decreases |ls|
  {
    Crossing(s.flights, p) || (ls != [] && EverCrossing(Step(s, ls[0]), ls[1..], p))
  }

  predicate Child(tokens: Table, t: Tok, p: Tok) {
    t in tokens && tokens[t].parent == Some(p)
  }

  /** At most one successor, whose predecessor is revoked and in nobody's hands. */
  ghost predicate OneChild(tokens: Table, flights: Flights, p: Tok) {
    && (forall call | call in flights && Past(flights[call], p) :: p in tokens)
    && (forall call | call in flights && flights[call] == Rotating(p) :: p in tokens && tokens[p].revoked)
    && (forall t | Child(tokens, t, p) :: p in tokens && tokens[p].revoked)
    && (forall t, call | Child(tokens, t, p) && call in flights :: !Past(flights[call], p))
    && (forall t, u | Child(tokens, t, p) && Child(tokens, u, p) :: t == u)
  }

  /** The same tokens with the same predecessors, and no revocation taken back. */
  ghost predicate OnlyRevoked(before: Table, after: Table) {
    && before.Keys == after.Keys
    && forall tok | tok in before ::
         after[tok].parent == before[tok].parent && (before[tok].revoked ==> after[tok].revoked)
  }

  lemma RevokingOneChild(before: Table, after: Table, flights: Flights, p: Tok)
    requires OneChild(before, flights, p) && OnlyRevoked(before, after)
    ensures OneChild(after, flights, p)
  {
    assert forall u :: Child(after, u, p) == Child(before, u, p);
  }

  lemma MovingOneChild(tokens: Table, flights: Flights, call: Call, next: Flight, p: Tok)
    requires OneChild(tokens, flights, p)
    requires next == Rotating(p) ==> p in tokens && tokens[p].revoked
    requires Past(next, p) ==> p in tokens && forall u :: !Child(tokens, u, p)
    ensures OneChild(tokens, flights[call := next], p)
  {
    var after := flights[call := next];
    forall u, c | Child(tokens, u, p) && c in after ensures !Past(after[c], p) {
      if c != call { assert c in flights && after[c] == flights[c]; }
    }
    forall c | c in after && Past(after[c], p) ensures p in tokens {
      if c != call { assert c in flights && after[c] == flights[c]; }
    }
    forall c | c in after && after[c] == Rotating(p) ensures p in tokens && tokens[p].revoked {
      if c != call { assert c in flights && after[c] == flights[c]; }
    }
  }

  lemma FamilyOnlyRevoked(tokens: Table, user: nat)
    ensures OnlyRevoked(tokens, RevokeForUser(tokens, user))
  {
  }

  lemma LookupOnlyRevokes(s: Session, call: Call, ok: bool, family: bool)
    requires AtSent(s, call)
    ensures OnlyRevoked(s.tokens, LookedUp(s, call, ok, family).tokens)
  {
    var cookie := s.flights[call].cookie;
    if cookie.Some? && cookie.value in s.tokens {
      FamilyOnlyRevoked(s.tokens, s.tokens[cookie.value].user);
    }
  }

  lemma LookupFinds(s: Session, call: Call, ok: bool, family: bool)
    requires AtSent(s, call)
    ensures
      var t := LookedUp(s, call, ok, family);
      && call in t.flights && t.flights == s.flights[call := t.flights[call]] && !t.flights[call].Rotating?
      && (t.flights[call].Found? ==> t.flights[call].tok in s.tokens && !s.tokens[t.flights[call].tok].revoked)
  {
  }

  lemma LookupOneChild(s: Session, call: Call, ok: bool, family: bool, p: Tok)
    requires AtSent(s, call) && OneChild(s.tokens, s.flights, p)
    ensures OneChild(LookedUp(s, call, ok, family).tokens, LookedUp(s, call, ok, family).flights, p)
  {
    LookupOnlyRevokes(s, call, ok, family);
    LookupFinds(s, call, ok, family);
    var t := LookedUp(s, call, ok, family);
    MovingOneChild(s.tokens, s.flights, call, t.flights[call], p);
    RevokingOneChild(s.tokens, t.tokens, t.flights, p);
  }

  lemma RotateOneChild(s: Session, call: Call, fault: Fault, p: Tok)
    requires AtFound(s, call) && OneChild(s.tokens, s.flights, p)
    ensures OneChild(Rotated(s, call, fault).tokens, Rotated(s, call, fault).flights, p)
  {
    var t := Rotated(s, call, fault);
    assert Past(s.flights[call], s.flights[call].tok);
    RevokingOneChild(s.tokens, t.tokens, s.flights, p);
    assert forall u :: Child(s.tokens, u, p) == Child(t.tokens, u, p);
    MovingOneChild(t.tokens, s.flights, call, t.flights[call], p);
  }

  lemma MintOneChild(s: Session, c: nat, user: nat, tok: Tok, parent: Option<Tok>, p: Tok)
    requires OneChild(s.tokens, s.flights, p) && tok !in s.tokens && parent != Some(p)
    ensures OneChild(Mint(s, c, user, tok, parent).tokens, s.flights, p)
  {
    var t := Mint(s, c, user, tok, parent);
    assert forall u | Child(t.tokens, u, p) :: Child(s.tokens, u, p);
  }

  /** The only call past its look-up of a token without successor issues the first one. */
  lemma FirstChild(s: Session, call: Call, tok: Tok, next: Flight, p: Tok)
    requires call in s.flights && s.flights[call] == Rotating(p) && !Past(next, p)
    requires tok !in s.tokens && OneChild(s.tokens, s.flights, p) && !Crossing(s.flights, p)
    ensures p in s.tokens
    ensures OneChild(Mint(s, call.client, s.tokens[p].user, tok, Some(p)).tokens, s.flights[call := next], p)
  {
    assert Past(s.flights[call], p);
    var t := Mint(s, call.client, s.tokens[p].user, tok, Some(p));
    forall u | Child(t.tokens, u, p) ensures u == tok {
      assert u == tok || Child(s.tokens, u, p);
    }
    var after := s.flights[call := next];
    forall other | other in after ensures !Past(after[other], p) {
      if other != call { assert other in s.flights && after[other] == s.flights[other]; }
    }
  }

  lemma IssueOneChild(s: Session, call: Call, tok: Tok, fault: Fault, p: Tok)
    requires AtRotating(s, call) && tok !in s.tokens && OneChild(s.tokens, s.flights, p) && !Crossing(s.flights, p)
    ensures OneChild(Issued(s, call, tok, fault).tokens, Issued(s, call, tok, fault).flights, p)
  {
    var t := Issued(s, call, tok, fault);
    var previous := s.flights[call].tok;
    if fault.Clean? {
      MovingOneChild(s.tokens, s.flights, call, t.flights[call], p);
    } else if previous == p {
      FirstChild(s, call, tok, t.flights[call], p);
    } else {
      MintOneChild(s, call.client, s.tokens[previous].user, tok, Some(previous), p);
      MovingOneChild(t.tokens, s.flights, call, t.flights[call], p);
    }
  }

  /** The other steps leave the tokens, but for a fresh one, and bring no call past its look-up. */
  lemma OthersOneChild(s: Session, l: Label, p: Tok)
    requires CanStep(s, l) && OneChild(s.tokens, s.flights, p)
    requires !l.Lookup? && !l.Rotate? && !l.Issue?
    ensures OneChild(Step(s, l).tokens, Step(s, l).flights, p)
  {
    match l
    case SignOn(c, n, tok) => MintOneChild(s, c, s.clients[c].user, tok, None, p);
    case _ =>
  }

  lemma OneChildStep(s: Session, l: Label, p: Tok)
    requires CanStep(s, l) && OneChild(s.tokens, s.flights, p) && !Crossing(s.flights, p)
    ensures OneChild(Step(s, l).tokens, Step(s, l).flights, p)
  {
    match l
    case Lookup(call, ok, family) => LookupOneChild(s, call, ok, family, p);
    case Rotate(call, fault) => RotateOneChild(s, call, fault, p);
    case Issue(call, tok, fault) => IssueOneChild(s, call, tok, fault, p);
    case _ => OthersOneChild(s, l, p);
  }

  lemma {:induction false} OneChildAfter(s: Session, ls: seq<Label>, p: Tok)
    requires IsRun(s, ls) && OneChild(s.tokens, s.flights, p) && !EverCrossing(s, ls, p)
    ensures OneChild(End(s, ls).tokens, End(s, ls).flights, p)
    decreases |ls|
  {
    if ls != [] {
      OneChildStep(s, ls[0], p);
      OneChildAfter(Step(s, ls[0]), ls[1..], p);
    }
  }

  /** A second successor, or one of a token that is still live, needs two calls past their look-up of it at once. */
  lemma ForkNeedsCrossing(now: int, ttl: int, ls: seq<Label>, t: Session, p: Tok, a: Tok, b: Tok)
    requires Reached(now, ttl, ls, t) && Child(t.tokens, a, p) && Child(t.tokens, b, p)
    requires a != b || p !in t.tokens || !t.tokens[p].revoked
    ensures EverCrossing(Start(now, ttl), ls, p)
  {
    if !EverCrossing(Start(now, ttl), ls, p) {
      OneChildAfter(Start(now, ttl), ls, p);
    }
  }

  lemma HealthyCallsDoNotCross(s: Session, p: Tok)
    requires OneUse(s.flights, s.tokens, s.now)
    ensures !Crossing(s.flights, p)
  {
    forall a, b | a in s.flights && b in s.flights && Past(s.flights[a], p) && Past(s.flights[b], p) ensures a == b {
      assert Carries(s.flights, a, p) && Carries(s.flights, b, p);
    }
  }

  lemma {:induction false} NoCrossingWithoutLoss(s: Session, ls: seq<Label>, p: Tok)
    requires I.Inv(s) && IsRun(s, ls) && End(s, ls).losses == 0
    ensures !EverCrossing(s, ls, p)
    decreases |ls|
  {
    I.InvAfter(s, ls);
    HealthyCallsDoNotCross(s, p);
    if ls != [] {
      I.InvStep(s, ls[0]);
      NoCrossingWithoutLoss(Step(s, ls[0]), ls[1..], p);
    }
  }

  /** While nothing was lost, rotation forms chains: one successor at most, and its predecessor is revoked. */
  lemma ChainsWithoutLoss(now: int, ttl: int, ls: seq<Label>, t: Session, p: Tok, a: Tok, b: Tok)
    requires Reached(now, ttl, ls, t) && t.losses == 0 && Child(t.tokens, a, p) && Child(t.tokens, b, p)
    ensures a == b && p in t.tokens && t.tokens[p].revoked
  {
    NoCrossingWithoutLoss(Start(now, ttl), ls, p);
    OneChildAfter(Start(now, ttl), ls, p);
  }
}
