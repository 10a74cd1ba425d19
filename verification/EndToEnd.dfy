/**
 * One phone and the server together. The n-th entry of the phone's send log is its n-th
 * request; it may reach the server late, never, or more than once, and its answer may be
 * lost. A 2xx or a 423 reaches the phone only as the reply of a handler of that very
 * request; any other error may also come from the network in between.
 */
module EndToEnd {
  import opened ApiErrors
  import opened Octets
  import U = Uploader
  import PhotoQueue
  import UC = UploaderCaptures
  import UI = UploaderInvariants
  import UT = UploaderTheorems
  import P = PhotoServer
  import PI = PhotoServerInvariants
  import PT = PhotoServerTheorems

  datatype State = State(phone: U.State, server: P.State)

  datatype Label = OnPhone(u: U.Label) | OnServer(p: P.Label)

  /** Some handler of the phone's request `i` has sent a reply with this status. */
  ghost predicate Answered(server: P.State, i: nat, ok: bool) {
    exists h :: h in server.handlers && AnsweredBy(server.handlers[h], i, ok)
  }

  predicate AnsweredBy(handler: P.Handler, i: nat, ok: bool) {
    && handler.req.origin == P.Phone(i) && handler.pc.Replied?
    && (if ok then IsOk(P.StatusOf(handler.pc.reply)) else IsLocked(P.StatusOf(handler.pc.reply)))
  }

  ghost predicate Justified(server: P.State, i: nat, outcome: U.Outcome) {
    && (outcome.Accepted? ==> Answered(server, i, true))
    && (outcome.Refused? && IsLocked(outcome.status) ==> Answered(server, i, false))
  }

  /** The request carries what the phone sent, or comes from elsewhere and is about another capture. */
  predicate Plausible(log: seq<U.Send>, captured: map<string, PhotoQueue.Item>, req: P.Request) {
    match req.origin
    case Phone(i) =>
      && i < |log|
      && req.clientId == log[i].item.clientId
      && req.bytes == log[i].item.bytes
      && req.takenAt == log[i].item.takenAt
    case Elsewhere => req.clientId !in captured
  }

  ghost predicate Enabled(s: State, l: Label) {
    match l
    case OnPhone(u) =>
      && U.Enabled(s.phone, u)
      && (u.Settle? ==> Justified(s.server, s.phone.runs[u.run].request, u.outcome))
      && (u.Capture? ==> forall h | h in s.server.handlers :: s.server.handlers[h].req.clientId != u.clientId)
    case OnServer(p) =>
      && P.Enabled(s.server, p)
      && (p.Arrive? ==> Plausible(s.phone.log, s.phone.captured, p.req))
  }

  ghost function Apply(s: State, l: Label): State
    requires Enabled(s, l)
  {
    match l
    case OnPhone(u) => s.(phone := U.Apply(s.phone, u))
    case OnServer(p) => s.(server := P.Apply(s.server, p))
  }

  ghost predicate Valid(s: State, ls: seq<Label>)
    decreases |ls|
  {
    ls == [] || (Enabled(s, ls[0]) && Valid(Apply(s, ls[0]), ls[1..]))
  }

  ghost function After(s: State, ls: seq<Label>): State
    requires Valid(s, ls)
    decreases |ls|
  {
    if ls == [] then s else After(Apply(s, ls[0]), ls[1..])
  }

  function Init(phoneClock: nat, serverClock: int): State {
    State(U.Init(phoneClock), P.Init(serverClock))
  }

  /** The phone reads the server's replies as they are meant: which are final, and which are worth a retry. */
  lemma RepliesAreUnderstood(reply: P.Reply)
    ensures IsOk(P.StatusOf(reply)) <==> PT.Succeeded(reply)
    ensures IsLocked(P.StatusOf(reply)) <==> reply.Locked?
    ensures IsPermanent(P.StatusOf(reply)) <==>
              reply.NoEvent? || reply.Unauthorized? || reply.TooLarge? || reply.BadRequest?
    ensures P.StatusOf(reply) >= 500 <==> reply.BadGateway? || reply.ServerError?
    ensures P.StatusOf(reply) == 201 <==> reply.Created?
    ensures P.StatusOf(reply) == 200 <==> reply.Duplicate?
    ensures P.StatusOf(reply) == 423 <==> reply.Locked?
    ensures P.StatusOf(reply) == 401 <==> reply.Unauthorized?
    ensures P.StatusOf(reply) == 404 <==> reply.NoEvent?
    ensures P.StatusOf(reply) == 413 <==> reply.TooLarge?
    ensures P.StatusOf(reply) == 400 <==> reply.BadRequest?
    ensures P.StatusOf(reply) == 502 <==> reply.BadGateway?
    ensures P.StatusOf(reply) == 500 <==> reply.ServerError?
  {
  }

  // ---------- Invariant ----------

  /** The server has a row for the capture. */
  ghost predicate Secured(rows: P.Rows, c: string) {
    exists id :: id in rows && rows[id].clientId == c
  }

  /** A handler of the capture answered 423. */
  ghost predicate TurnedAway(handlers: P.Handlers, c: string) {
    exists h :: h in handlers && handlers[h].req.clientId == c && handlers[h].pc == P.Replied(P.Locked)
  }

  ghost predicate RequestsPlausible(log: seq<U.Send>, captured: map<string, PhotoQueue.Item>, handlers: P.Handlers) {
    forall h | h in handlers :: Plausible(log, captured, handlers[h].req)
  }

  /** A drain that is about to remove a capture knows it stored, or refused for good. */
  ghost predicate RemovalJustified(run: U.Run, rows: P.Rows, handlers: P.Handlers) {
    run.Removing? ==> if run.tripOver then TurnedAway(handlers, run.item.clientId) else Secured(rows, run.item.clientId)
  }

  ghost predicate RemovalsJustified(runs: map<nat, U.Run>, rows: P.Rows, handlers: P.Handlers) {
    forall r | r in runs :: RemovalJustified(runs[r], rows, handlers)
  }

  ghost predicate GoneForAReason(acked: set<string>, dropped: set<string>, rows: P.Rows, handlers: P.Handlers) {
    && (forall c | c in acked :: Secured(rows, c))
    && (forall c | c in dropped :: TurnedAway(handlers, c))
  }

  ghost predicate Linked(s: State) {
    && RequestsPlausible(s.phone.log, s.phone.captured, s.server.handlers)
    && RemovalsJustified(s.phone.runs, s.server.rows, s.server.handlers)
    && GoneForAReason(s.phone.acked, s.phone.dropped, s.server.rows, s.server.handlers)
  }

  ghost predicate Inv(s: State) {
    UT.Inv(s.phone) && PI.Inv(s.server) && Linked(s)
  }

  // ---------- Server steps ----------

  lemma ServerKeepsEvidence(s: P.State, p: P.Label, c: string)
    requires PI.Inv(s) && P.Enabled(s, p)
    ensures Secured(s.rows, c) ==> Secured(P.Apply(s, p).rows, c)
    ensures TurnedAway(s.handlers, c) ==> TurnedAway(P.Apply(s, p).handlers, c)
  {
    var t := P.Apply(s, p);
    PT.StepOnlyAdds(s, p);
    if Secured(s.rows, c) {
      var id :| id in s.rows && s.rows[id].clientId == c;
      assert id in t.rows && t.rows[id].clientId == c;
    }
    if TurnedAway(s.handlers, c) {
      var h :| h in s.handlers && s.handlers[h].req.clientId == c && s.handlers[h].pc == P.Replied(P.Locked);
      PT.RepliesAreFinal(s, p, h);
      assert t.handlers[h].req.clientId == c && t.handlers[h].pc == P.Replied(P.Locked);
    }
  }

  lemma ServerStep(s: State, p: P.Label)
    requires Inv(s) && Enabled(s, OnServer(p))
    ensures Linked(Apply(s, OnServer(p)))
  {
    var t := Apply(s, OnServer(p));
    forall h | h in t.server.handlers ensures Plausible(s.phone.log, s.phone.captured, t.server.handlers[h].req) {
      PT.RequestsAreFixed(s.server, p, h);
    }
    forall r | r in t.phone.runs ensures RemovalJustified(t.phone.runs[r], t.server.rows, t.server.handlers) {
      assert RemovalJustified(s.phone.runs[r], s.server.rows, s.server.handlers);
      if t.phone.runs[r].Removing? {
        ServerKeepsEvidence(s.server, p, t.phone.runs[r].item.clientId);
      }
    }
    forall c | c in t.phone.acked ensures Secured(t.server.rows, c) {
      ServerKeepsEvidence(s.server, p, c);
    }
    forall c | c in t.phone.dropped ensures TurnedAway(t.server.handlers, c) {
      ServerKeepsEvidence(s.server, p, c);
    }
  }

  // ---------- Phone steps ----------

  /** An answer that reached the phone is evidence about the capture it was waiting for. */
  lemma AnswerIsEvidence(server: P.State, log: seq<U.Send>, captured: map<string, PhotoQueue.Item>, i: nat, ok: bool)
    requires ServerHandlersOk(server) && RequestsPlausible(log, captured, server.handlers)
    requires i < |log| && Answered(server, i, ok)
    ensures ok ==> Secured(server.rows, log[i].item.clientId)
    ensures !ok ==> TurnedAway(server.handlers, log[i].item.clientId)
  {
    var h :| h in server.handlers && AnsweredBy(server.handlers[h], i, ok);
    var handler := server.handlers[h];
    assert Plausible(log, captured, handler.req);
    assert PI.HandlerOk(h, handler, server.now, server.events, server.rows, server.objects,
                        server.owner, server.orphans);
    if ok {
      assert handler.pc.reply.Created? || handler.pc.reply.Duplicate?;
      assert server.rows[handler.pc.reply.id].clientId == handler.req.clientId;
    }
  }

  ghost predicate ServerHandlersOk(s: P.State) {
    PI.HandlersOk(s.handlers, s.now, s.events, s.rows, s.objects, s.owner, s.orphans)
  }

  lemma SettledRunIsJustified(s: State, r: nat, outcome: U.Outcome)
    requires ServerHandlersOk(s.server) && RequestsPlausible(s.phone.log, s.phone.captured, s.server.handlers)
    requires r in s.phone.runs && s.phone.runs[r].Sending? && SentByRun(s.phone.log, s.phone.runs[r])
    requires Justified(s.server, s.phone.runs[r].request, outcome)
    ensures RemovalJustified(U.AfterUpload(s.phone.now, s.phone.runs[r], outcome), s.server.rows, s.server.handlers)
  {
    var i := s.phone.runs[r].request;
    if outcome.Accepted? {
      AnswerIsEvidence(s.server, s.phone.log, s.phone.captured, i, true);
    } else if outcome.Refused? && IsLocked(outcome.status) {
      AnswerIsEvidence(s.server, s.phone.log, s.phone.captured, i, false);
    }
  }

  /** The request a drain waits for is the one it sent. */
  predicate SentByRun(log: seq<U.Send>, run: U.Run)
    requires run.Sending?
  {
    run.request < |log| && log[run.request].item == run.item
  }

  lemma SendLinked(log: seq<U.Send>, captured: map<string, PhotoQueue.Item>, handlers: P.Handlers, e: U.Send)
    requires RequestsPlausible(log, captured, handlers)
    ensures RequestsPlausible(log + [e], captured, handlers)
  {
    forall h | h in handlers ensures Plausible(log + [e], captured, handlers[h].req) {
      assert Plausible(log, captured, handlers[h].req);
    }
  }

  lemma NextItemLinked(phone: U.State, server: P.State, r: nat, rest: seq<PhotoQueue.Item>)
    requires Linked(State(phone, server))
    ensures Linked(State(U.NextItem(phone, r, rest), server))
  {
    UI.NextItemFrame(phone, r, rest);
    if rest != [] {
      SendLinked(phone.log, phone.captured, server.handlers, U.Send(rest[0], phone.now));
    }
  }

  lemma SettleLinked(phone: U.State, server: P.State, r: nat, outcome: U.Outcome)
    requires ServerHandlersOk(server) && UI.Core(phone) && Linked(State(phone, server)) && U.AtSend(phone, r)
    requires Justified(server, phone.runs[r].request, outcome)
    ensures Linked(State(U.SendSettled(phone, r, outcome), server))
  {
    assert UI.RunCurrent(phone.store, phone.now, phone.log, phone.runs[r]);
    SettledRunIsJustified(State(phone, server), r, outcome);
  }

  lemma DueReadLinked(phone: U.State, server: P.State, r: nat, snapshot: seq<PhotoQueue.Item>)
    requires Linked(State(phone, server)) && U.CanRead(phone, r, snapshot)
    ensures Linked(State(U.ReadArrived(phone, r, snapshot), server))
  {
    NextItemLinked(U.BeginPass(phone, phone.runs[r].at, snapshot), server, r, snapshot);
  }

  lemma RemovalLinked(phone: U.State, server: P.State, r: nat)
    requires Linked(State(phone, server)) && U.AtRemove(phone, r)
    ensures Linked(State(U.RemoveCommitted(phone, r), server))
  {
    assert RemovalJustified(phone.runs[r], server.rows, server.handlers);
  }

  lemma PutLinked(phone: U.State, server: P.State, r: nat)
    requires Linked(State(phone, server)) && U.AtPut(phone, r)
    ensures Linked(State(U.PutCommitted(phone, r), server))
  {
  }

  lemma NewPageLinked(phone: U.State, server: P.State, passes: seq<U.Pass>)
    requires Linked(State(phone, server))
    ensures Linked(State(U.NewPage(phone.(passes := passes)), server))
  {
  }

  lemma WriteLinked(phone: U.State, server: P.State, u: U.Label)
    requires Linked(State(phone, server)) && U.Enabled(phone, u)
    requires u.Removed? || u.PutDone? || u.RemovedUnseen? || u.PutUnseen?
    ensures Linked(State(U.Apply(phone, u), server))
  {
    match u
    case Removed(r) =>
      RemovalLinked(phone, server, r);
      NextItemLinked(U.RemoveCommitted(phone, r), server, r, phone.runs[r].rest);
    case PutDone(r) =>
      PutLinked(phone, server, r);
      NextItemLinked(U.PutCommitted(phone, r), server, r, phone.runs[r].rest);
    case RemovedUnseen(r) =>
      RemovalLinked(phone, server, r);
      NewPageLinked(U.RemoveCommitted(phone, r), server, U.CutLast(phone.passes));
    case PutUnseen(r) =>
      PutLinked(phone, server, r);
      NewPageLinked(U.PutCommitted(phone, r), server, U.CutLast(phone.passes));
  }

  lemma CaptureLinked(phone: U.State, server: P.State, c: string, bytes: Bytes, blobType: string,
                      takenAt: string)
    requires Linked(State(phone, server)) && c !in phone.captured
    requires forall h | h in server.handlers :: server.handlers[h].req.clientId != c
    ensures Linked(State(U.Capturing(phone, c, bytes, blobType, takenAt), server))
  {
    var t := U.Capturing(phone, c, bytes, blobType, takenAt);
    forall h | h in server.handlers ensures Plausible(t.log, t.captured, server.handlers[h].req) {
      assert Plausible(phone.log, phone.captured, server.handlers[h].req);
    }
  }

  lemma WrittenLinked(phone: U.State, server: P.State, c: string)
    requires Linked(State(phone, server)) && U.CanWrite(phone, c)
    ensures Linked(State(U.CaptureStored(phone, c), server))
  {
  }

  lemma OtherLinked(phone: U.State, server: P.State, u: U.Label)
    requires Linked(State(phone, server)) && U.Enabled(phone, u)
    requires !u.DueRead? && !u.Removed? && !u.PutDone? && !u.RemovedUnseen? && !u.PutUnseen?
    requires !u.Settle? && !u.Capture? && !u.Written?
    ensures Linked(State(U.Apply(phone, u), server))
  {
    UI.OthersKeepRecord(phone, u);
    var t := U.Apply(phone, u);
    forall r | r in t.runs ensures RemovalJustified(t.runs[r], server.rows, server.handlers) {
      if t.runs[r].Removing? {
        assert RemovalJustified(phone.runs[r], server.rows, server.handlers);
      }
    }
  }

  lemma QuietLinked(phone: U.State, server: P.State, u: U.Label)
    requires Linked(State(phone, server)) && U.Enabled(phone, u)
    requires !u.DueRead? && !u.Settle? && !u.Capture? && !u.Written?
    ensures Linked(State(U.Apply(phone, u), server))
  {
    if u.Removed? || u.PutDone? || u.RemovedUnseen? || u.PutUnseen? {
      WriteLinked(phone, server, u);
    } else {
      OtherLinked(phone, server, u);
    }
  }

  lemma DrainLinked(phone: U.State, server: P.State, u: U.Label)
    requires ServerHandlersOk(server) && UI.Core(phone) && Linked(State(phone, server)) && U.Enabled(phone, u)
    requires u.Settle? || u.DueRead?
    requires u.Settle? ==> Justified(server, phone.runs[u.run].request, u.outcome)
    ensures Linked(State(U.Apply(phone, u), server))
  {
    match u
    case Settle(r, outcome) => SettleLinked(phone, server, r, outcome);
    case DueRead(r, snapshot) => DueReadLinked(phone, server, r, snapshot);
  }

  lemma EnqueueLinked(phone: U.State, server: P.State, u: U.Label)
    requires Linked(State(phone, server)) && U.Enabled(phone, u) && (u.Capture? || u.Written?)
    requires u.Capture? ==> forall h | h in server.handlers :: server.handlers[h].req.clientId != u.clientId
    ensures Linked(State(U.Apply(phone, u), server))
  {
    match u
    case Capture(c, bytes, blobType, takenAt) => CaptureLinked(phone, server, c, bytes, blobType, takenAt);
    case Written(c) => WrittenLinked(phone, server, c);
  }

  lemma PhoneLinked(phone: U.State, server: P.State, u: U.Label)
    requires ServerHandlersOk(server) && UI.Core(phone) && Linked(State(phone, server)) && U.Enabled(phone, u)
    requires u.Settle? ==> Justified(server, phone.runs[u.run].request, u.outcome)
    requires u.Capture? ==> forall h | h in server.handlers :: server.handlers[h].req.clientId != u.clientId
    ensures Linked(State(U.Apply(phone, u), server))
  {
    if u.Settle? || u.DueRead? {
      DrainLinked(phone, server, u);
    } else if u.Capture? || u.Written? {
      EnqueueLinked(phone, server, u);
    } else {
      QuietLinked(phone, server, u);
    }
  }

  // ---------- Every run ----------

  lemma InvStep(s: State, l: Label)
    requires Inv(s) && Enabled(s, l)
    ensures Inv(Apply(s, l))
  {
    match l
    case OnPhone(u) =>
      UT.InvStep(s.phone, u);
      PhoneLinked(s.phone, s.server, u);
    case OnServer(p) =>
      PI.InvStep(s.server, p);
      ServerStep(s, p);
  }

  lemma {:induction false} InvAfter(s: State, ls: seq<Label>)
    requires Inv(s) && Valid(s, ls)
    ensures Inv(After(s, ls))
    decreases |ls|
  {
    if ls != [] {
      InvStep(s, ls[0]);
      InvAfter(Apply(s, ls[0]), ls[1..]);
    }
  }

  /** A run of a fresh phone and a fresh server. */
  ghost predicate Reached(phoneClock: nat, serverClock: int, ls: seq<Label>, t: State) {
    Valid(Init(phoneClock, serverClock), ls) && t == After(Init(phoneClock, serverClock), ls)
  }

  lemma InitLinked(phoneClock: nat, serverClock: int)
    ensures Linked(Init(phoneClock, serverClock))
  {
  }

  lemma InitInv(phoneClock: nat, serverClock: int)
    ensures Inv(Init(phoneClock, serverClock))
  {
    UT.InitInv(phoneClock);
    PT.ReachedInv(serverClock, [], P.Init(serverClock));
    InitLinked(phoneClock, serverClock);
  }

  lemma ReachedInv(phoneClock: nat, serverClock: int, ls: seq<Label>, t: State)
    requires Reached(phoneClock, serverClock, ls, t)
    ensures Inv(t)
  {
    InitInv(phoneClock, serverClock);
    InvAfter(Init(phoneClock, serverClock), ls);
  }

  /** The row of a photo on the server: whose it is, its bytes, and when it was taken. */
  ghost predicate HoldsPhoto(server: P.State, id: string, c: string, bytes: Bytes, takenAt: string) {
    && id in server.rows
    && server.rows[id].clientId == c
    && server.rows[id].takenAt == takenAt
    && server.rows[id].sizeBytes == |bytes|
    && server.rows[id].storageKey in server.objects
    && server.objects[server.rows[id].storageKey].body == bytes
  }

  ghost predicate OnTheServer(server: P.State, id: string, capture: PhotoQueue.Item) {
    HoldsPhoto(server, id, capture.clientId, capture.bytes, capture.takenAt)
  }

  /** A row under one of the phone's client ids holds that capture, whoever else uploads. */
  lemma RowsHoldTheCapture(t: State, id: string)
    requires Inv(t) && id in t.server.rows && t.server.rows[id].clientId in t.phone.captured
    ensures OnTheServer(t.server, id, t.phone.captured[t.server.rows[id].clientId])
  {
    var row := t.server.rows[id];
    assert PI.RowBacked(id, row, t.server.handlers, t.server.objects, t.server.owner);
    var req := t.server.handlers[row.writer].req;
    assert Plausible(t.phone.log, t.phone.captured, req);
    assert t.phone.captured[row.clientId].clientId == row.clientId;
  }

  /** A handler of the capture answered 423, for an event that is over. */
  ghost predicate RefusedForGood(server: P.State, h: nat, c: string) {
    && h in server.handlers && server.handlers[h].req.clientId == c
    && server.handlers[h].pc == P.Replied(P.Locked)
    && server.handlers[h].event < |server.events|
    && server.events[server.handlers[h].event].endsAt <= server.now
  }

  // ---------- The phone's part of a run ----------

  function PhonePart(ls: seq<Label>): seq<U.Label> {
    if ls == [] then [] else (if ls[0].OnPhone? then [ls[0].u] else []) + PhonePart(ls[1..])
  }

  lemma {:induction false} PhonePartRuns(s: State, ls: seq<Label>)
    requires Valid(s, ls)
    ensures U.Valid(s.phone, PhonePart(ls)) && U.After(s.phone, PhonePart(ls)) == After(s, ls).phone
    decreases |ls|
  {
    if ls != [] {
      PhonePartRuns(Apply(s, ls[0]), ls[1..]);
      if ls[0].OnPhone? {
        assert PhonePart(ls)[1..] == PhonePart(ls[1..]);
      } else {
        assert PhonePart(ls) == PhonePart(ls[1..]);
      }
    }
  }

  lemma {:induction false} PhonePartHas(ls: seq<Label>, u: U.Label)
    ensures OnPhone(u) in ls <==> u in PhonePart(ls)
  {
    if ls != [] {
      PhonePartHas(ls[1..], u);
      assert ls == [ls[0]] + ls[1..];
    }
  }

  lemma PhoneReached(phoneClock: nat, serverClock: int, ls: seq<Label>, t: State)
    requires Reached(phoneClock, serverClock, ls, t)
    ensures UT.Reached(phoneClock, PhonePart(ls), t.phone)
  {
    PhonePartRuns(Init(phoneClock, serverClock), ls);
  }

  /**
   * A row under one of the phone's client ids holds the photo that was taken under it, whoever
   * else uploads: its object has the very bytes, the row their number and the capture time.
   */
  lemma RowsAreAsTaken(phoneClock: nat, serverClock: int, ls: seq<Label>, t: State, id: string, c: string,
                       bytes: Bytes, blobType: string, takenAt: string)
    requires Reached(phoneClock, serverClock, ls, t) && OnPhone(U.Capture(c, bytes, blobType, takenAt)) in ls
    requires id in t.server.rows && t.server.rows[id].clientId == c
    ensures t.server.rows[id].takenAt == takenAt && t.server.rows[id].sizeBytes == |bytes|
    ensures t.server.rows[id].storageKey in t.server.objects
    ensures t.server.objects[t.server.rows[id].storageKey].body == bytes
  {
    TakenIsRecorded(phoneClock, serverClock, ls, t, c, bytes, blobType, takenAt);
    ReachedInv(phoneClock, serverClock, ls, t);
    RowsHoldTheCapture(t, id);
  }

  lemma TakenIsRecorded(phoneClock: nat, serverClock: int, ls: seq<Label>, t: State, c: string, bytes: Bytes,
                        blobType: string, takenAt: string)
    requires Reached(phoneClock, serverClock, ls, t) && OnPhone(U.Capture(c, bytes, blobType, takenAt)) in ls
    ensures c in t.phone.captured && PhotoQueue.IsCapture(t.phone.captured[c], c, bytes, blobType, takenAt)
    ensures c in t.phone.store ==> PhotoQueue.IsCapture(t.phone.store[c], c, bytes, blobType, takenAt)
  {
    PhoneReached(phoneClock, serverClock, ls, t);
    PhonePartHas(ls, U.Capture(c, bytes, blobType, takenAt));
    UC.CapturesAreKeptAsTaken(phoneClock, PhonePart(ls), t.phone, c, bytes, blobType, takenAt);
  }

  /** Whatever was written durably was taken by somebody. */
  lemma WrittenWasTaken(phoneClock: nat, serverClock: int, ls: seq<Label>, t: State, c: string)
    returns (bytes: Bytes, blobType: string, takenAt: string)
    requires Reached(phoneClock, serverClock, ls, t) && c in t.phone.written
    ensures OnPhone(U.Capture(c, bytes, blobType, takenAt)) in ls
  {
    ReachedInv(phoneClock, serverClock, ls, t);
    WrittenIsSomewhere(t, c);
    PhoneReached(phoneClock, serverClock, ls, t);
    bytes, blobType, takenAt := UC.RecordedWasCaptured(U.Init(phoneClock), PhonePart(ls), c);
    PhonePartHas(ls, U.Capture(c, bytes, blobType, takenAt));
  }

  lemma SecuredIsOnTheServer(t: State, c: string)
    requires Inv(t) && Secured(t.server.rows, c) && c in t.phone.captured
    ensures exists id :: OnTheServer(t.server, id, t.phone.captured[c])
  {
    var id :| id in t.server.rows && t.server.rows[id].clientId == c;
    RowsHoldTheCapture(t, id);
  }

  lemma TurnedAwayIsRefused(server: P.State, c: string)
    requires ServerHandlersOk(server) && TurnedAway(server.handlers, c)
    ensures exists h :: RefusedForGood(server, h, c)
  {
    var h :| h in server.handlers && server.handlers[h].req.clientId == c
             && server.handlers[h].pc == P.Replied(P.Locked);
    assert PI.HandlerOk(h, server.handlers[h], server.now, server.events, server.rows,
                        server.objects, server.owner, server.orphans);
    assert RefusedForGood(server, h, c);
  }

  lemma WrittenIsSomewhere(t: State, c: string)
    requires Inv(t) && c in t.phone.written
    ensures c in t.phone.captured
    ensures
      || c in t.phone.store
      || (c in t.phone.acked && Secured(t.server.rows, c))
      || (c in t.phone.dropped && TurnedAway(t.server.handlers, c))
  {
    assert UI.Conserved(t.phone.written, t.phone.store, t.phone.acked, t.phone.dropped);
  }

  /**
   * No capture is lost: over every interleaving of phone, network and server, with crashes,
   * reloads, lost and late replies, a photo whose durable write finished is still in the queue as
   * it was taken, or is on the server with the bytes and the time it was taken with, or was
   * dropped because a handler of it answered 423 for an event whose end had passed.
   */
  lemma NoCaptureIsLost(phoneClock: nat, serverClock: int, ls: seq<Label>, t: State, c: string, bytes: Bytes,
                        blobType: string, takenAt: string)
    requires Reached(phoneClock, serverClock, ls, t) && c in t.phone.written
    requires OnPhone(U.Capture(c, bytes, blobType, takenAt)) in ls
    ensures
      || (c in t.phone.store && PhotoQueue.IsCapture(t.phone.store[c], c, bytes, blobType, takenAt))
      || (c in t.phone.acked && exists id :: HoldsPhoto(t.server, id, c, bytes, takenAt))
      || (c in t.phone.dropped && exists h :: RefusedForGood(t.server, h, c))
  {
    ReachedInv(phoneClock, serverClock, ls, t);
    TakenIsRecorded(phoneClock, serverClock, ls, t, c, bytes, blobType, takenAt);
    WrittenIsSomewhere(t, c);
    if c in t.phone.acked {
      SecuredIsOnTheServer(t, c);
      var id :| OnTheServer(t.server, id, t.phone.captured[c]);
      assert HoldsPhoto(t.server, id, c, bytes, takenAt);
    } else if c in t.phone.dropped {
      TurnedAwayIsRefused(t.server, c);
    }
  }

  lemma RemovalIsSafe(t: State, r: nat)
    requires Inv(t) && r in t.phone.runs && t.phone.runs[r].Removing? && !t.phone.runs[r].tripOver
    ensures Secured(t.server.rows, t.phone.runs[r].item.clientId)
  {
    assert RemovalJustified(t.phone.runs[r], t.server.rows, t.server.handlers);
  }

  /** The queue forgets a capture after a 2xx only when the server has its row. */
  lemma RemovalAfterSuccessIsSafe(phoneClock: nat, serverClock: int, ls: seq<Label>, t: State, r: nat)
    requires Reached(phoneClock, serverClock, ls, t)
    requires r in t.phone.runs && t.phone.runs[r].Removing? && !t.phone.runs[r].tripOver
    ensures exists id :: id in t.server.rows && t.server.rows[id].clientId == t.phone.runs[r].item.clientId
  {
    ReachedInv(phoneClock, serverClock, ls, t);
    RemovalIsSafe(t, r);
  }

  lemma RowsAreUnique(t: State)
    requires Inv(t)
    ensures PI.Unique(t.server.rows)
  {
  }

  /** A capture never has two rows in one event, and all its rows hold the same bytes. */
  lemma CapturesAreStoredOncePerEvent(phoneClock: nat, serverClock: int, ls: seq<Label>, t: State, p: string, q: string)
    requires Reached(phoneClock, serverClock, ls, t)
    requires p in t.server.rows && q in t.server.rows && t.server.rows[p].clientId == t.server.rows[q].clientId
    requires t.server.rows[p].clientId in t.phone.captured
    ensures t.server.rows[p].event == t.server.rows[q].event ==> p == q
    ensures
      && t.server.rows[p].storageKey in t.server.objects && t.server.rows[q].storageKey in t.server.objects
      && t.server.objects[t.server.rows[p].storageKey].body == t.server.objects[t.server.rows[q].storageKey].body
  {
    ReachedInv(phoneClock, serverClock, ls, t);
    RowsAreUnique(t);
    RowsHoldTheCapture(t, p);
    RowsHoldTheCapture(t, q);
  }

  // ---------- When the notice is right ----------

  /** Some handler of the capture was let in. */
  ghost predicate LetIn(handlers: P.Handlers, c: string) {
    exists h :: h in handlers && handlers[h].req.clientId == c && handlers[h].admitted.Some?
  }

  /** Without a handler that was let in, a capture has no row: if it is dropped, the notice is right. */
  lemma NeverLetInIsNotStored(phoneClock: nat, serverClock: int, ls: seq<Label>, t: State, c: string)
    requires Reached(phoneClock, serverClock, ls, t) && !LetIn(t.server.handlers, c)
    ensures !Secured(t.server.rows, c)
  {
    ReachedInv(phoneClock, serverClock, ls, t);
    RowsNeedLetIn(t.server, c);
  }

  lemma RowsNeedLetIn(server: P.State, c: string)
    requires PI.RowsBacked(server.rows, server.handlers, server.objects, server.owner) && !LetIn(server.handlers, c)
    ensures !Secured(server.rows, c)
  {
    forall id | id in server.rows ensures server.rows[id].clientId != c {
      assert PI.RowBacked(id, server.rows[id], server.handlers, server.objects, server.owner);
    }
  }
}
