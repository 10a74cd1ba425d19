/** How long an issued token works, and how an answer reaches its client, over every interleaved run. */
module SessionLifetimes {
  import opened Faults
  import opened Options
  import opened R = RefreshTokens
  import opened Sessions    // and with it its abbreviation A of ApiClient
  import opened I = SessionInvariants
  import opened SessionTheorems

  // ---------- A token works until it is spent or too old ----------

  /** The step revokes the token: it rotates it away, or answers reuse of a token of the same user. */
  predicate SpendsNow(s: Session, l: Label, tok: Tok)
    requires tok in s.tokens
  {
    match l
    case Rotate(call, fault) => call in s.flights && s.flights[call] == Found(tok) && !fault.Clean?
    case Lookup(call, ok, family) =>
      && call in s.flights && s.flights[call].Sent? && s.flights[call].cookie.Some? && ok && family
      && var shown := s.flights[call].cookie.value;
      shown in s.tokens && s.tokens[shown].revoked && s.tokens[shown].user == s.tokens[tok].user
    case _ => false
  }

  /** From `s` to `t` the token is unchanged, or only revoked. */
  ghost predicate Keeps(s: Session, t: Session, tok: Tok, spent: bool) {
    && tok in s.tokens && tok in t.tokens && t.ttl == s.ttl
    && t.tokens[tok] == s.tokens[tok].(revoked := s.tokens[tok].revoked || spent)
  }

  lemma LookupKeeps(s: Session, call: Call, ok: bool, family: bool, tok: Tok)
    requires AtSent(s, call) && tok in s.tokens
    ensures Keeps(s, LookedUp(s, call, ok, family), tok, SpendsNow(s, Lookup(call, ok, family), tok))
  {
  }

  lemma RotateKeeps(s: Session, call: Call, fault: Fault, tok: Tok)
    requires AtFound(s, call) && tok in s.tokens
    ensures Keeps(s, Rotated(s, call, fault), tok, SpendsNow(s, Rotate(call, fault), tok))
  {
  }

  lemma IssueKeeps(s: Session, call: Call, next: Tok, fault: Fault, tok: Tok)
    requires AtRotating(s, call) && next !in s.tokens && tok in s.tokens
    ensures Keeps(s, Issued(s, call, next, fault), tok, false)
  {
  }

  lemma HearingKeeps(s: Session, l: Label, tok: Tok)
    requires CanStep(s, l) && (l.Request? || l.Deliver? || l.Lose? || l.SignOnDone?) && tok in s.tokens
    ensures Keeps(s, Step(s, l), tok, false)
  {
    match l
    case Request(_, _) =>
    case Deliver(_, _, _) =>
    case Lose(_) =>
    case SignOnDone(_, _) =>
  }

  lemma TokenStep(s: Session, l: Label, tok: Tok)
    requires CanStep(s, l) && tok in s.tokens
    ensures Keeps(s, Step(s, l), tok, SpendsNow(s, l, tok))
  {
    match l
    case Lookup(call, ok, family) => LookupKeeps(s, call, ok, family, tok);
    case Rotate(call, fault) => RotateKeeps(s, call, fault, tok);
    case Issue(call, next, fault) => IssueKeeps(s, call, next, fault, tok);
    case Tick(_) =>
    case Join(_, _) =>
    case SignOn(_, _, _) =>
    case SignOnLost(_) =>
    case _ => HearingKeeps(s, l, tok);
  }

  /** Some step of the run revokes the token. */
  ghost predicate EverSpent(s: Session, ls: seq<Label>, tok: Tok)
    requires IsRun(s, ls) && tok in s.tokens
    decreases |ls|
  {
    ls != [] && (SpendsNow(s, ls[0], tok) || (tok in Step(s, ls[0]).tokens && EverSpent(Step(s, ls[0]), ls[1..], tok)))
  }

  lemma {:induction false} TokenAfter(s: Session, ls: seq<Label>, tok: Tok)
    requires IsRun(s, ls) && tok in s.tokens
    ensures Keeps(s, End(s, ls), tok, EverSpent(s, ls, tok))
    decreases |ls|
  {
    if ls != [] {
      TokenStep(s, ls[0], tok);
      TokenAfter(Step(s, ls[0]), ls[1..], tok);
    }
  }

  /** A step that issues a token: a login, or the re-issue of a refresh that reaches the database. */
  predicate Mints(l: Label) {
    l.SignOn? || (l.Issue? && !l.fault.Clean?)
  }

  lemma MintedToken(s: Session, l: Label)
    requires CanStep(s, l) && Mints(l)
    ensures
      var t := Step(s, l);
      && l.tok in t.tokens && t.ttl == s.ttl
      && !t.tokens[l.tok].revoked && t.tokens[l.tok].expiresAt == s.now + s.ttl
      && t.tokens[l.tok].user == if l.SignOn? then s.clients[l.c].user else s.tokens[s.flights[l.call].tok].user
  {
  }

  /** The answer of a look-up. */
  predicate Refuses(t: Session, call: Call) {
    call in t.flights && t.flights[call] == Answer(None, Clear, false)
  }

  /**
   * A token issued at time n, by a login or by the re-issue of a refresh, looked up after any
   * further steps of any calls: it is found good if and only if no step has spent it and it is at
   * most `ttl` old; it counts as reuse if and only if it is spent; otherwise it is refused.
   */
  lemma MintedTokenLasts(s: Session, l: Label, ls: seq<Label>, call: Call, family: bool)
    requires CanStep(s, l) && Mints(l) && IsRun(Step(s, l), ls) && l.tok in Step(s, l).tokens
    requires AtSent(End(Step(s, l), ls), call) && End(Step(s, l), ls).flights[call].cookie == Some(l.tok)
    ensures
      var t := End(Step(s, l), ls);
      var u, spent := LookedUp(t, call, true, family), EverSpent(Step(s, l), ls, l.tok);
      && (call in u.flights && u.flights[call] == Found(l.tok) <==> !spent && t.now <= s.now + s.ttl)
      && (Refuses(u, call) <==> spent || t.now > s.now + s.ttl)
      && u.reuses == t.reuses + (if spent then 1 else 0)
    ensures
      var t := End(Step(s, l), ls);
      && l.tok in t.tokens
      && t.tokens[l.tok].user == if l.SignOn? then s.clients[l.c].user else s.tokens[s.flights[l.call].tok].user
  {
    MintedToken(s, l);
    TokenAfter(Step(s, l), ls, l.tok);
  }

  // ---------- An answer reaches its client ----------

  /** Nobody hears the answer of this call. */
  ghost predicate Unheard(ls: seq<Label>, call: Call) {
    forall i | 0 <= i < |ls| :: !(ls[i].Deliver? && ls[i].call == call) && ls[i] != Lose(call)
  }

  lemma RequestKeepsFlight(s: Session, c: nat, a: A.Label, call: Call)
    requires Sound(s) && CanStep(s, Request(c, a)) && call in s.flights
    ensures
      var t := Requesting(s, c, A.Apply(s.clients[c].api, a));
      call in t.flights && t.flights[call] == s.flights[call]
  {
  }

  lemma ServerKeepsAnswer(s: Session, l: Label, call: Call)
    requires CanStep(s, l) && (l.Lookup? || l.Rotate? || l.Issue?) && AtAnswer(s, call)
    ensures call in Step(s, l).flights && Step(s, l).flights[call] == s.flights[call]
  {
    match l
    case Lookup(other, ok, family) => LookupMovesOne(s, other, ok, family);
    case Rotate(_, _) =>
    case Issue(_, _, _) =>
  }

  lemma HearingKeepsAnswer(s: Session, l: Label, call: Call)
    requires CanStep(s, l) && (l.Deliver? || l.Lose?) && l.call != call && AtAnswer(s, call)
    ensures call in Step(s, l).flights && Step(s, l).flights[call] == s.flights[call]
  {
    match l
    case Deliver(_, _, _) =>
    case Lose(_) =>
  }

  lemma OthersKeepFlights(s: Session, l: Label)
    requires CanStep(s, l) && (l.Tick? || l.Join? || l.SignOn? || l.SignOnDone? || l.SignOnLost?)
    ensures Step(s, l).flights == s.flights
  {
    match l
    case SignOnDone(_, _) =>
    case _ =>
  }

  lemma AnswerStays(s: Session, l: Label, call: Call)
    requires Sound(s) && CanStep(s, l) && AtAnswer(s, call)
    requires !(l.Deliver? && l.call == call) && l != Lose(call)
    ensures AtAnswer(Step(s, l), call) && Step(s, l).flights[call] == s.flights[call]
  {
    if l.Request? {
      RequestKeepsFlight(s, l.c, l.a, call);
    } else if l.Lookup? || l.Rotate? || l.Issue? {
      ServerKeepsAnswer(s, l, call);
    } else if l.Deliver? || l.Lose? {
      HearingKeepsAnswer(s, l, call);
    } else {
      OthersKeepFlights(s, l);
    }
  }

  lemma {:induction false} AnswerIsKept(s: Session, ls: seq<Label>, call: Call)
    requires Sound(s) && IsRun(s, ls) && AtAnswer(s, call) && Unheard(ls, call)
    ensures AtAnswer(End(s, ls), call) && End(s, ls).flights[call] == s.flights[call]
    decreases |ls|
  {
    if ls != [] {
      AnswerStays(s, ls[0], call);
      SoundStep(s, ls[0]);
      AnswerIsKept(Step(s, ls[0]), ls[1..], call);
    }
  }

  /** Only this client hears it, and its refresh ends so. */
  ghost predicate HeardBy(t: Session, u: Session, call: Call, cookie: Option<Tok>, outcome: Option<A.AccessToken>) {
    && call.client in t.clients && call.client in u.clients
    && u.clients == t.clients[call.client := u.clients[call.client]]
    && u.clients[call.client].cookie == cookie
    && call.refresh in u.clients[call.client].api.settled
    && u.clients[call.client].api.settled[call.refresh] == outcome
    && u.clients[call.client].api.token == (if outcome.Some? then outcome else t.clients[call.client].api.token)
  }

  /**
   * Whenever the answer of a refresh arrives, whatever ran in between, its client has the new
   * cookie after a success, none after a refusal, and the one it had after any other failure; and
   * its refresh has succeeded, with the token of the answer, exactly if the answer is a success
   * that parses. No other client notices.
   */
  lemma AnswersReachTheirClient(now: int, ttl: int, ks: seq<Label>, s: Session, ls: seq<Label>, call: Call,
                                access: A.AccessToken, parsed: bool)
    requires Reached(now, ttl, ks, s) && AtAnswer(s, call) && IsRun(s, ls) && Unheard(ls, call)
    requires CanStep(End(s, ls), Deliver(call, access, parsed))
    ensures
      var t := End(s, ls);
      var Answer(_, change, ok) := s.flights[call];
      var cookie := if change.Set? then Some(change.tok) else if change.Clear? then None
                    else t.clients[call.client].cookie;
      HeardBy(t, Step(t, Deliver(call, access, parsed)), call, cookie, if ok && parsed then Some(access) else None)
  {
    ReachedInv(now, ttl, ks, s);
    AnswerIsKept(s, ls, call);
  }
}
