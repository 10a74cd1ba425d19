/**
 * The refresh-token table and its rotation (backend/internal/users/handler.go,
 * backend/internal/postgres/sqlc/refresh_token_queries.sql), with each request as one step.
 * Tokens stand for their hashes. `parent` is history: the token a rotation replaced.
 */
module RefreshTokens {
  import opened Faults
  import opened Options

  type Tok = nat

  datatype Token = Token(user: nat, expiresAt: int, revoked: bool, parent: Option<Tok>)

  type Table = map<Tok, Token>

  datatype Reply = Granted(tok: Tok) | Missing | Invalid | AlreadyUsed | Expired | Failed

  datatype CookieChange = Keep | Clear | Set(tok: Tok)

  function Create(table: Table, tok: Tok, user: nat, expiresAt: int, parent: Option<Tok>): Table {
    table[tok := Token(user, expiresAt, false, parent)]
  }

  function Revoke(table: Table, tok: Tok): Table
    requires tok in table
  {
    table[tok := table[tok].(revoked := true)]
  }

  function RevokeForUser(table: Table, user: nat): Table {
    map t | t in table :: if table[t].user == user then table[t].(revoked := true) else table[t]
  }

  /** What `Refresh` does with the presented cookie when nothing fails; `next` is the generated token. */
  function RefreshStep(table: Table, cookie: Option<Tok>, next: Tok, now: int, ttl: int): (Table, Reply, CookieChange) {
    if cookie.None? then (table, Missing, Keep)
    else if cookie.value !in table then (table, Invalid, Clear)
    else
      var stored := table[cookie.value];
      if stored.revoked then (RevokeForUser(table, stored.user), AlreadyUsed, Clear)
      else if now > stored.expiresAt then (table, Expired, Clear)
      else (Create(Revoke(table, cookie.value), next, stored.user, now + ttl, cookie), Granted(next), Set(next))
  }

  /** How the calls of one `Refresh` go: the look-up, the two revocations, and what follows them. */
  datatype Luck = Luck(find: bool, family: bool, revoke: Fault, issue: Fault)

  /** `Refresh` when calls may fail. Only the error of revoking a whole family is ignored. */
  function FaultyRefresh(table: Table, cookie: Option<Tok>, next: Tok, now: int, ttl: int, luck: Luck)
    : (Table, Reply, CookieChange)
  {
    var step := RefreshStep(table, cookie, next, now, ttl);
    if cookie.None? then step
    else if !luck.find then (table, Failed, Keep)
    else if step.1.AlreadyUsed? && !luck.family then (table, AlreadyUsed, Clear)
    else if !step.1.Granted? then step
    else if luck.revoke.Clean? then (table, Failed, Keep)
    else if luck.revoke.Dirty? || luck.issue.Clean? then (Revoke(table, cookie.value), Failed, Keep)
    else if luck.issue.Dirty? then (step.0, Failed, Keep)
    else step
  }

  /** What a refresh that finds its token, or finds none, answers, and what becomes of the cookie. */
  predicate Answers(table: Table, tok: Tok, now: int, reply: Reply, change: CookieChange) {
    && (reply.Invalid? <==> tok !in table)
    && (reply.AlreadyUsed? <==> tok in table && table[tok].revoked)
    && (reply.Expired? <==> tok in table && !table[tok].revoked && now > table[tok].expiresAt)
    && (reply.Granted? ==> change == Set(reply.tok))
    && (reply.Granted? || reply.Failed? <==> tok in table && !table[tok].revoked && now <= table[tok].expiresAt)
    && (reply.Failed? ==> change == Keep)
    && (reply.Invalid? || reply.AlreadyUsed? || reply.Expired? ==> change == Clear)
  }

  /** The handler with its table, written as the source writes it. */
  class AuthHandler {
    var tokens: Table
    const ttl: int

    constructor (ttl: int)
      ensures tokens == map[] && this.ttl == ttl
    {
      tokens, this.ttl := map[], ttl;
    }

    method FindRefreshTokenByHash(tok: Tok) returns (stored: Option<Token>)
      ensures stored == if tok in tokens then Some(tokens[tok]) else None
    {
      stored := if tok in tokens then Some(tokens[tok]) else None;
    }

    method RevokeRefreshToken(tok: Tok, fault: Fault)
      requires tok in tokens
      modifies this`tokens
      ensures tokens == if fault.Clean? then old(tokens) else Revoke(old(tokens), tok)
    {
      if !fault.Clean? {
        tokens := tokens[tok := tokens[tok].(revoked := true)];
      }
    }

    method RevokeRefreshTokensForUser(user: nat)
      modifies this`tokens
      ensures tokens == RevokeForUser(old(tokens), user)
    {
      tokens := map t | t in tokens :: if tokens[t].user == user then tokens[t].(revoked := true) else tokens[t];
    }

    method IssueRefreshToken(user: nat, next: Tok, now: int, parent: Option<Tok>, fault: Fault)
      returns (cookie: CookieChange)
      modifies this`tokens
      ensures cookie == if fault.Fine? then Set(next) else Keep
      ensures tokens == if fault.Clean? then old(tokens)
                        else old(tokens)[next := Token(user, now + ttl, false, parent)]
    {
      if !fault.Clean? {
        tokens := tokens[next := Token(user, now + ttl, false, parent)];
      }
      cookie := if fault.Fine? then Set(next) else Keep;
    }

    method Login(user: nat, next: Tok, now: int, fault: Fault) returns (cookie: CookieChange)
      modifies this`tokens
      ensures cookie == if fault.Fine? then Set(next) else Keep
      ensures tokens == if fault.Clean? then old(tokens)
                        else old(tokens)[next := Token(user, now + ttl, false, None)]
    {
      cookie := IssueRefreshToken(user, next, now, None, fault);
    }

    method Refresh(cookie: Option<Tok>, next: Tok, now: int, luck: Luck) returns (reply: Reply, change: CookieChange)
      modifies this`tokens
      ensures (tokens, reply, change) == FaultyRefresh(old(tokens), cookie, next, now, ttl, luck)
      ensures reply.Missing? <==> cookie.None?
      ensures cookie.None? || !luck.find ==> !reply.Granted? && change == Keep && tokens == old(tokens)
      ensures cookie.Some? && luck.find ==> Answers(old(tokens), cookie.value, now, reply, change)
      ensures reply.AlreadyUsed? ==>
        && tokens.Keys == old(tokens).Keys
        && forall t | t in tokens ::
             tokens[t].revoked == (old(tokens)[t].revoked
                                   || (luck.family && old(tokens)[t].user == old(tokens)[cookie.value].user))
      ensures reply.Granted? ==>
        && reply.tok == next && luck.revoke.Fine? && luck.issue.Fine?
        && tokens == old(tokens)[cookie.value := old(tokens)[cookie.value].(revoked := true)]
                                [next := Token(old(tokens)[cookie.value].user, now + ttl, false, cookie)]
    {
      if cookie.None? {
        return Missing, Keep;
      }
      if !luck.find {
        return Failed, Keep;
      }
      var stored := FindRefreshTokenByHash(cookie.value);
      if stored.None? {
        return Invalid, Clear;
      }
      if stored.value.revoked {
        if luck.family {
          RevokeRefreshTokensForUser(stored.value.user);
        }
        return AlreadyUsed, Clear;
      }
      if now > stored.value.expiresAt {
        return Expired, Clear;
      }
      RevokeRefreshToken(cookie.value, luck.revoke);
      if !luck.revoke.Fine? {
        return Failed, Keep;
      }
      change := IssueRefreshToken(stored.value.user, next, now, cookie, luck.issue);
      return if luck.issue.Fine? then Granted(next) else Failed, change;
    }
  }

  // ---------- Histories of logins and refreshes ----------

  datatype Op =
    | LogIn(user: nat, next: Tok, now: int)
    | Present(cookie: Option<Tok>, next: Tok, now: int)

  /** The table and every login so far. */
  datatype State = State(table: Table, logins: multiset<nat>)

  ghost predicate Enabled(s: State, op: Op) {
    op.next !in s.table
  }

  function Apply(s: State, op: Op, ttl: int): State {
    match op
    case LogIn(user, next, now) =>
      State(Create(s.table, next, user, now + ttl, None), s.logins + multiset{user})
    case Present(cookie, next, now) => s.(table := RefreshStep(s.table, cookie, next, now, ttl).0)
  }

  ghost predicate Valid(s: State, ops: seq<Op>, ttl: int)
    decreases |ops|
  {
    ops == [] || (Enabled(s, ops[0]) && Valid(Apply(s, ops[0], ttl), ops[1..], ttl))
  }

  function After(s: State, ops: seq<Op>, ttl: int): State
    decreases |ops|
  {
    if ops == [] then s else After(Apply(s, ops[0], ttl), ops[1..], ttl)
  }

  /** A token replaces at most one other of its user, which is revoked and replaced by no other. */
  ghost predicate Chains(table: Table) {
    && (forall t | t in table && table[t].parent.Some? ::
          var p := table[t].parent.value;
          p != t && p in table && table[p].revoked && table[p].user == table[t].user)
    && (forall t, u | t in table && u in table && table[t].parent.Some? && table[t].parent == table[u].parent :: t == u)
  }

  ghost function Live(table: Table, user: nat): set<Tok> {
    set t | t in table && table[t].user == user && !table[t].revoked
  }

  ghost predicate Inv(s: State) {
    Chains(s.table) && forall user :: |Live(s.table, user)| <= s.logins[user]
  }

  lemma LiveAfterCreate(table: Table, tok: Tok, user: nat, expiresAt: int, parent: Option<Tok>, u: nat)
    requires tok !in table
    ensures |Live(Create(table, tok, user, expiresAt, parent), u)| == |Live(table, u)| + (if u == user then 1 else 0)
  {
    if u == user {
      assert Live(Create(table, tok, user, expiresAt, parent), u) == Live(table, u) + {tok};
    } else {
      assert Live(Create(table, tok, user, expiresAt, parent), u) == Live(table, u);
    }
  }

  lemma LiveAfterRevoke(table: Table, tok: Tok, u: nat)
    requires tok in table && !table[tok].revoked
    ensures |Live(Revoke(table, tok), u)| == |Live(table, u)| - (if u == table[tok].user then 1 else 0)
  {
    assert Live(Revoke(table, tok), u) == Live(table, u) - {tok};
  }

  lemma LiveAfterRevokeForUser(table: Table, user: nat, u: nat)
    ensures Live(RevokeForUser(table, user), u) == if u == user then {} else Live(table, u)
  {
  }

  lemma LoginKeepsChains(table: Table, next: Tok, user: nat, expiresAt: int)
    requires Chains(table) && next !in table
    ensures Chains(Create(table, next, user, expiresAt, None))
  {
  }

  lemma RotationKeepsChains(table: Table, tok: Tok, next: Tok, expiresAt: int)
    requires Chains(table) && tok in table && !table[tok].revoked && next !in table
    ensures Chains(Create(Revoke(table, tok), next, table[tok].user, expiresAt, Some(tok)))
  {
  }

  lemma RevocationKeepsChains(table: Table, user: nat)
    requires Chains(table)
    ensures Chains(RevokeForUser(table, user))
  {
  }

  lemma LiveStep(s: State, cookie: Option<Tok>, next: Tok, now: int, ttl: int, u: nat)
    requires next !in s.table
    ensures |Live(RefreshStep(s.table, cookie, next, now, ttl).0, u)| <= |Live(s.table, u)|
  {
    if cookie.Some? && cookie.value in s.table {
      var stored := s.table[cookie.value];
      if stored.revoked {
        LiveAfterRevokeForUser(s.table, stored.user, u);
      } else if now <= stored.expiresAt {
        LiveAfterRevoke(s.table, cookie.value, u);
        LiveAfterCreate(Revoke(s.table, cookie.value), next, stored.user, now + ttl, cookie, u);
      }
    }
  }

  lemma RefreshKeepsChains(table: Table, cookie: Option<Tok>, next: Tok, now: int, ttl: int)
    requires Chains(table) && next !in table
    ensures Chains(RefreshStep(table, cookie, next, now, ttl).0)
  {
    if cookie.Some? && cookie.value in table {
      var stored := table[cookie.value];
      if stored.revoked {
        RevocationKeepsChains(table, stored.user);
      } else if now <= stored.expiresAt {
        RotationKeepsChains(table, cookie.value, next, now + ttl);
      }
    }
  }

  lemma LoginInv(s: State, user: nat, next: Tok, now: int, ttl: int)
    requires Inv(s) && next !in s.table
    ensures Inv(Apply(s, LogIn(user, next, now), ttl))
  {
    LoginKeepsChains(s.table, next, user, now + ttl);
    var t := Apply(s, LogIn(user, next, now), ttl);
    forall u: nat ensures |Live(t.table, u)| <= t.logins[u] {
      LiveAfterCreate(s.table, next, user, now + ttl, None, u);
    }
  }

  lemma PresentInv(s: State, cookie: Option<Tok>, next: Tok, now: int, ttl: int)
    requires Inv(s) && next !in s.table
    ensures Inv(Apply(s, Present(cookie, next, now), ttl))
  {
    RefreshKeepsChains(s.table, cookie, next, now, ttl);
    var t := Apply(s, Present(cookie, next, now), ttl);
    forall u: nat ensures |Live(t.table, u)| <= t.logins[u] {
      LiveStep(s, cookie, next, now, ttl, u);
    }
  }

  lemma InvStep(s: State, op: Op, ttl: int)
    requires Inv(s) && Enabled(s, op)
    ensures Inv(Apply(s, op, ttl))
  {
    match op
    case LogIn(user, next, now) => LoginInv(s, user, next, now, ttl);
    case Present(cookie, next, now) => PresentInv(s, cookie, next, now, ttl);
  }

  lemma {:induction false} InvAfter(s: State, ops: seq<Op>, ttl: int)
    requires Inv(s) && Valid(s, ops, ttl)
    ensures Inv(After(s, ops, ttl))
    decreases |ops|
  {
    if ops != [] {
      InvStep(s, ops[0], ttl);
      InvAfter(Apply(s, ops[0], ttl), ops[1..], ttl);
    }
  }

  const EMPTY := State(map[], multiset{})

  lemma EmptyInv()
    ensures Inv(EMPTY)
  {
    forall user: nat ensures |Live(EMPTY.table, user)| <= EMPTY.logins[user] {
      assert Live(EMPTY.table, user) == {};
    }
  }

  /** Over any history of requests each token has at most one successor, and a token with one is revoked. */
  lemma RotationFormsChains(ops: seq<Op>, ttl: int, p: Tok, t: Tok, u: Tok)
    requires Valid(EMPTY, ops, ttl)
    requires
      var table := After(EMPTY, ops, ttl).table;
      t in table && u in table && table[t].parent == Some(p) && table[u].parent == Some(p)
    ensures t == u
    ensures
      var table := After(EMPTY, ops, ttl).table;
      p in table && table[p].revoked && table[p].user == table[t].user
  {
    EmptyInv();
    InvAfter(EMPTY, ops, ttl);
  }

  /** A user never has more unrevoked tokens than logins. */
  lemma LiveTokensAreBoundedByLogins(ops: seq<Op>, ttl: int, user: nat)
    requires Valid(EMPTY, ops, ttl)
    ensures |Live(After(EMPTY, ops, ttl).table, user)| <= After(EMPTY, ops, ttl).logins[user]
  {
    EmptyInv();
    InvAfter(EMPTY, ops, ttl);
  }

  /** Presenting a revoked token leaves its user without any, and touches nobody else's. */
  lemma ReuseRevokesTheFamily(table: Table, tok: Tok, next: Tok, now: int, ttl: int, other: nat)
    requires tok in table && table[tok].revoked
    ensures
      var (after, reply, change) := RefreshStep(table, Some(tok), next, now, ttl);
      && reply == AlreadyUsed && change == Clear
      && Live(after, table[tok].user) == {}
      && (other != table[tok].user ==> Live(after, other) == Live(table, other))
  {
    LiveAfterRevokeForUser(table, table[tok].user, table[tok].user);
    LiveAfterRevokeForUser(table, table[tok].user, other);
  }

  lemma {:induction false} RevokedStaysRevoked(s: State, ops: seq<Op>, ttl: int, tok: Tok)
    requires Valid(s, ops, ttl) && tok in s.table && s.table[tok].revoked
    ensures tok in After(s, ops, ttl).table && After(s, ops, ttl).table[tok] == s.table[tok]
    decreases |ops|
  {
    if ops != [] {
      RevokedStaysRevoked(Apply(s, ops[0], ttl), ops[1..], ttl, tok);
    }
  }

  /** A spent token is spent for good: presented after any further requests, it costs its user every session. */
  lemma SpentTokenStaysSpent(s: State, ops: seq<Op>, ttl: int, tok: Tok, next: Tok, now: int)
    requires Valid(s, ops, ttl) && tok in s.table && s.table[tok].revoked
    ensures
      var (after, reply, change) := RefreshStep(After(s, ops, ttl).table, Some(tok), next, now, ttl);
      reply == AlreadyUsed && Live(after, s.table[tok].user) == {}
  {
    RevokedStaysRevoked(s, ops, ttl, tok);
    var table := After(s, ops, ttl).table;
    ReuseRevokesTheFamily(table, tok, next, now, ttl, table[tok].user);
  }

  /** The request ends the life of this token: it rotates it away, or gives a revoked token of the same user. */
  predicate Spends(table: Table, op: Op, tok: Tok)
    requires tok in table
  {
    && op.Present? && op.cookie.Some? && op.cookie.value in table
    && var shown := table[op.cookie.value];
    || (op.cookie.value == tok && op.now <= shown.expiresAt)
    || (shown.revoked && shown.user == table[tok].user)
  }

  lemma SpendsExactly(s: State, op: Op, ttl: int, tok: Tok)
    requires Enabled(s, op) && tok in s.table && !s.table[tok].revoked
    ensures
      var table := Apply(s, op, ttl).table;
      tok in table && table[tok] == s.table[tok].(revoked := Spends(s.table, op, tok))
  {
  }

  /** None of the requests ends the life of this token. */
  predicate Unspent(s: State, ops: seq<Op>, ttl: int, tok: Tok)
    requires Valid(s, ops, ttl) && tok in s.table
    decreases |ops|
  {
    ops == [] || (!Spends(s.table, ops[0], tok) && Unspent(Apply(s, ops[0], ttl), ops[1..], ttl, tok))
  }

  lemma {:induction false} SpentExactly(s: State, ops: seq<Op>, ttl: int, tok: Tok)
    requires Valid(s, ops, ttl) && tok in s.table && !s.table[tok].revoked
    ensures
      var table := After(s, ops, ttl).table;
      tok in table && table[tok] == s.table[tok].(revoked := !Unspent(s, ops, ttl, tok))
    decreases |ops|
  {
    if ops != [] {
      var m := Apply(s, ops[0], ttl);
      SpendsExactly(s, ops[0], ttl, tok);
      if Spends(s.table, ops[0], tok) {
        RevokedStaysRevoked(m, ops[1..], ttl, tok);
      } else {
        SpentExactly(m, ops[1..], ttl, tok);
      }
    }
  }

  /**
   * After any history of requests a live token is granted a refresh exactly if no request has
   * rotated it away, none has presented a revoked token of its user, and it has not expired.
   */
  lemma TokenWorksUntilSpent(s: State, ops: seq<Op>, ttl: int, tok: Tok, next: Tok, now: int)
    requires Valid(s, ops, ttl) && tok in s.table && !s.table[tok].revoked
    ensures RefreshStep(After(s, ops, ttl).table, Some(tok), next, now, ttl).1.Granted? <==>
            Unspent(s, ops, ttl, tok) && now <= s.table[tok].expiresAt
  {
    SpentExactly(s, ops, ttl, tok);
  }

  /** The request issues a token: a login, or a refresh with a live token. */
  predicate Issues(table: Table, op: Op) {
    op.Present? ==>
      && op.cookie.Some? && op.cookie.value in table
      && !table[op.cookie.value].revoked && op.now <= table[op.cookie.value].expiresAt
  }

  lemma IssuedToken(s: State, op: Op, ttl: int)
    requires Issues(s.table, op)
    ensures
      var table := Apply(s, op, ttl).table;
      && op.next in table && !table[op.next].revoked && table[op.next].expiresAt == op.now + ttl
      && table[op.next].user == (if op.LogIn? then op.user else s.table[op.cookie.value].user)
      && table[op.next].parent == (if op.LogIn? then None else op.cookie)
  {
  }

  /**
   * A token that a login or a granted refresh issued at time n, presented after any further
   * requests: it is granted if and only if it is unspent and at most `ttl` old, found used if and
   * only if it is spent, and refused as expired otherwise, for whatever user it was issued.
   */
  lemma IssuedTokenLasts(s: State, op: Op, ops: seq<Op>, ttl: int, next: Tok, now: int)
    requires Enabled(s, op) && Issues(s.table, op) && Valid(Apply(s, op, ttl), ops, ttl)
    ensures op.next in Apply(s, op, ttl).table
    ensures
      var m := Apply(s, op, ttl);
      var reply := RefreshStep(After(m, ops, ttl).table, Some(op.next), next, now, ttl).1;
      && (reply.Granted? <==> Unspent(m, ops, ttl, op.next) && now <= op.now + ttl)
      && (reply.AlreadyUsed? <==> !Unspent(m, ops, ttl, op.next))
      && (reply.Expired? <==> Unspent(m, ops, ttl, op.next) && now > op.now + ttl)
    ensures
      var token := After(Apply(s, op, ttl), ops, ttl).table[op.next];
      token.user == if op.LogIn? then op.user else s.table[op.cookie.value].user
  {
    IssuedToken(s, op, ttl);
    SpentExactly(Apply(s, op, ttl), ops, ttl, op.next);
  }

  /**
   * A refresh that fails leaves the cookie alone and grants nothing new to anybody: the token it
   * was called with is as it was, or it is spent, and then the cookie is of no use any more.
   */
  lemma FailedRefreshKeepsOrSpends(table: Table, tok: Tok, next: Tok, now: int, ttl: int, luck: Luck, user: nat)
    requires tok in table && next !in table
    ensures
      var (after, reply, change) := FaultyRefresh(table, Some(tok), next, now, ttl, luck);
      reply.Failed? ==>
        && change == Keep && tok in after && (after == table || after[tok].revoked)
        && |Live(after, user)| <= |Live(table, user)|
  {
    LiveStep(State(table, multiset{}), Some(tok), next, now, ttl, user);
    if !table[tok].revoked {
      LiveAfterRevoke(table, tok, user);
    }
  }
}
