/** Runs of phone and server together: what can become of a pending capture, and when the notice is wrong. */
module EndToEndRuns {
  import opened Fresh
  import opened Octets
  import opened Options
  import opened EndToEnd    // and with it its abbreviations U, UI, UT, P, PI and PT
  import UR = UploaderRuns

  lemma {:induction false} RunSnoc(s: State, ls: seq<Label>, l: Label)
    requires Valid(s, ls) && Enabled(After(s, ls), l)
    ensures Valid(s, ls + [l]) && After(s, ls + [l]) == Apply(After(s, ls), l)
    decreases |ls|
  {
    if ls == [] {
      assert [l][1..] == [];
    } else {
      RunSnoc(Apply(s, ls[0]), ls[1..], l);
      assert (ls + [l])[1..] == ls[1..] + [l];
    }
  }

  lemma {:induction false} RunAppend(s: State, ls: seq<Label>, ms: seq<Label>)
    requires Valid(s, ls) && Valid(After(s, ls), ms)
    ensures Valid(s, ls + ms) && After(s, ls + ms) == After(After(s, ls), ms)
    decreases |ms|
  {
    if ms == [] {
      assert ls + ms == ls;
    } else {
      RunSnoc(s, ls, ms[0]);
      RunAppend(s, ls + [ms[0]], ms[1..]);
      assert ls + ms == (ls + [ms[0]]) + ms[1..];
    }
  }

  // ---------- Reached states ----------

  ghost predicate Reachable(s: State) {
    exists phoneClock: nat, serverClock: int, ls :: Reached(phoneClock, serverClock, ls, s)
  }

  lemma ReachableInit(phoneClock: nat, serverClock: int)
    ensures Reachable(Init(phoneClock, serverClock))
  {
    assert Reached(phoneClock, serverClock, [], Init(phoneClock, serverClock));
  }

  lemma ReachableAfter(s: State, ls: seq<Label>)
    requires Reachable(s) && Valid(s, ls)
    ensures Reachable(After(s, ls))
  {
    var phoneClock: nat, serverClock: int, ks :| Reached(phoneClock, serverClock, ks, s);
    RunAppend(Init(phoneClock, serverClock), ks, ls);
    assert Reached(phoneClock, serverClock, ks + ls, After(s, ls));
  }

  /** Phone and server are each in a state of their own runs. */
  ghost predicate PartsReachable(s: State) {
    UT.Reachable(s.phone) && PT.Reachable(s.server)
  }

  lemma PartsStep(s: State, l: Label)
    requires PartsReachable(s) && Enabled(s, l)
    ensures PartsReachable(Apply(s, l))
  {
    match l
    case OnPhone(u) => UT.ReachableStep(s.phone, u);
    case OnServer(p) => PT.ReachableStep(s.server, p);
  }

  lemma {:induction false} PartsAfter(s: State, ls: seq<Label>)
    requires PartsReachable(s) && Valid(s, ls)
    ensures PartsReachable(After(s, ls))
    decreases |ls|
  {
    if ls != [] {
      PartsStep(s, ls[0]);
      PartsAfter(Apply(s, ls[0]), ls[1..]);
    }
  }

  lemma ReachableParts(s: State)
    requires Reachable(s)
    ensures PartsReachable(s)
  {
    var phoneClock: nat, serverClock: int, ls :| Reached(phoneClock, serverClock, ls, s);
    UT.ReachableInit(phoneClock);
    PT.ReachableInit(serverClock);
    PartsAfter(Init(phoneClock, serverClock), ls);
  }

  /** A row of one of the phone's captures holds it. */
  lemma StoredIsOnTheServer(s: State, c: string)
    requires Reachable(s) && Secured(s.server.rows, c) && c in s.phone.captured
    ensures exists id :: OnTheServer(s.server, id, s.phone.captured[c])
  {
    var phoneClock: nat, serverClock: int, ls :| Reached(phoneClock, serverClock, ls, s);
    ReachedInv(phoneClock, serverClock, ls, s);
    SecuredIsOnTheServer(s, c);
  }

  // ---------- Runs of one side ----------

  lemma {:induction false} LiftPhone(s: State, us: seq<U.Label>) returns (ls: seq<Label>)
    requires U.Valid(s.phone, us) && UR.AllAlone(us)
    ensures Valid(s, ls) && After(s, ls) == State(U.After(s.phone, us), s.server)
    decreases |us|
  {
    ls := [];
    if us != [] {
      var l := OnPhone(us[0]);
      assert UR.Alone(us[0]);
      assert forall i | 0 <= i < |us[1..]| :: us[1..][i] == us[i + 1];
      var rest := LiftPhone(Apply(s, l), us[1..]);
      ls := [l] + rest;
      assert ls[1..] == rest;
    }
  }

  lemma {:induction false} LiftServer(s: State, ps: seq<P.Label>, req: P.Request) returns (ls: seq<Label>)
    requires P.Valid(s.server, ps) && PT.Brings(ps, req) && Plausible(s.phone.log, s.phone.captured, req)
    ensures Valid(s, ls) && After(s, ls) == State(s.phone, P.After(s.server, ps))
    decreases |ps|
  {
    ls := [];
    if ps != [] {
      var l := OnServer(ps[0]);
      assert forall i | 0 <= i < |ps[1..]| :: ps[1..][i] == ps[i + 1];
      var rest := LiftServer(Apply(s, l), ps[1..], req);
      ls := [l] + rest;
      assert ls[1..] == rest;
    }
  }

  // ---------- One upload, seen from both sides ----------

  ghost predicate Pending(phone: U.State, c: string) {
    c in phone.store && !phone.store[c].failed
  }

  /** What the phone's upload of a drain sends, with a decodable JPEG. */
  function RequestOf(run: U.Run): P.Request
    requires run.Sending?
  {
    P.Request(P.Phone(run.request), run.item.clientId, run.item.bytes, run.item.takenAt, P.WellFormed, Some([]))
  }

  lemma SentRequestIsPlausible(s: State, r: nat)
    requires UT.Reachable(s.phone) && U.AtSend(s.phone, r)
    ensures Plausible(s.phone.log, s.phone.captured, RequestOf(s.phone.runs[r]))
    ensures Pending(s.phone, s.phone.runs[r].item.clientId)
  {
    UT.ReachableInv(s.phone);
    assert UI.RunCurrent(s.phone.store, s.phone.now, s.phone.log, s.phone.runs[r]);
  }

  /** A pending capture is sent: the page is opened anew when it is due. */
  lemma PendingIsSent(s: State, c: string) returns (ls: seq<Label>, t: State, r: nat)
    requires Reachable(s) && Pending(s.phone, c)
    ensures Valid(s, ls) && t == After(s, ls) && Reachable(t)
    ensures t.server == s.server && t.phone.captured == s.phone.captured
    ensures U.AtSend(t.phone, r) && t.phone.runs[r].item.clientId == c && Pending(t.phone, c)
  {
    ReachableParts(s);
    UR.StoreIsKeyed(s.phone);
    var us, u: U.State;
    us, u, r := UR.PendingCanBeSent(s.phone, c);
    ls := LiftPhone(s, us);
    t := State(u, s.server);
    ReachableAfter(s, ls);
    SentRequestIsPlausible(t, r);
  }

  /** The server has a row of the upload's capture, and a handler of this very upload has said so. */
  ghost predicate IsServed(server: P.State, run: U.Run)
    requires run.Sending?
  {
    Secured(server.rows, run.item.clientId) && Answered(server, run.request, true)
  }

  lemma ServerStores(server: P.State, req: P.Request) returns (ps: seq<P.Label>, q: P.State, h: nat, id: string)
    requires PT.Reachable(server) && PT.Running(server) && req.form.WellFormed? && req.thumb.Some?
    ensures P.Valid(server, ps) && q == P.After(server, ps) && PT.Brings(ps, req)
    ensures h in q.handlers && q.handlers[h].req == req && q.handlers[h].pc.Replied?
    ensures q.handlers[h].pc.reply == P.Created(id) || q.handlers[h].pc.reply == P.Duplicate(id)
    ensures P.IsRowOf(q.rows, |server.events| - 1, req.clientId, id) && PI.Extends(server.rows, q.rows)
    ensures q.events == server.events
  {
    h := Larger(server.handlers.Keys);
    var unused := Longer(server.owner.Keys + server.named);
    var e := |server.events| - 1;
    if P.Stored(server.rows, e, req.clientId) {
      id := P.Find(server.rows, e, req.clientId);
      ps, q := PT.RetryIsADuplicate(server, h, req, id, unused);
    } else {
      id := unused;
      PT.RowsAreOfKnownEvents(server);
      ps, q := PT.UploadIsStored(server, h, req, id);
    }
  }

  /** While an event runs, the upload that a drain waits for can be stored in it, now or before, and answered so. */
  lemma UploadIsServed(s: State, r: nat) returns (ls: seq<Label>, t: State, id: string)
    requires Reachable(s) && U.AtSend(s.phone, r) && PT.Running(s.server)
    ensures Valid(s, ls) && t == After(s, ls) && Reachable(t)
    ensures t.phone == s.phone && IsServed(t.server, s.phone.runs[r]) && t.server.events == s.server.events
    ensures P.IsRowOf(t.server.rows, |s.server.events| - 1, s.phone.runs[r].item.clientId, id)
    ensures PI.Extends(s.server.rows, t.server.rows)
  {
    ReachableParts(s);
    SentRequestIsPlausible(s, r);
    var req := RequestOf(s.phone.runs[r]);
    var ps, q, h: nat;
    ps, q, h, id := ServerStores(s.server, req);
    assert AnsweredBy(q.handlers[h], req.origin.request, true);
    ls := LiftServer(s, ps, req);
    t := State(s.phone, q);
    ReachableAfter(s, ls);
  }

  lemma HeardIsRemoved(phone: U.State, r: nat, outcome: U.Outcome)
    requires U.AtSend(phone, r) && (outcome == U.Accepted || outcome == U.Refused(423, ""))
    ensures
      var m := U.SendSettled(phone, r, outcome);
      && U.AtRemove(m, r)
      && var t, c := U.RemoveSeen(m, r), phone.runs[r].item.clientId;
      && t.captured == phone.captured
      && (outcome.Accepted? ==> c in t.acked)
      && (outcome.Refused? ==> c in t.dropped && t.status.notice)
  {
    var m := U.SendSettled(phone, r, outcome);
    UI.NextItemFrame(U.RemoveCommitted(m, r), r, m.runs[r].rest);
  }

  /** The drain hears the answer, and removes the capture on it. */
  lemma AnswerIsHeard(s: State, r: nat, outcome: U.Outcome) returns (ls: seq<Label>, t: State)
    requires U.AtSend(s.phone, r) && Justified(s.server, s.phone.runs[r].request, outcome)
    requires outcome == U.Accepted || outcome == U.Refused(423, "")
    ensures Valid(s, ls) && t == After(s, ls) && t.server == s.server && t.phone.captured == s.phone.captured
    ensures outcome.Accepted? ==> s.phone.runs[r].item.clientId in t.phone.acked
    ensures outcome.Refused? ==> s.phone.runs[r].item.clientId in t.phone.dropped && t.phone.status.notice
  {
    HeardIsRemoved(s.phone, r, outcome);
    var m := U.SendSettled(s.phone, r, outcome);
    RunSnoc(s, [], OnPhone(U.Settle(r, outcome)));
    ls := [] + [OnPhone(U.Settle(r, outcome))];
    RunSnoc(s, ls, OnPhone(U.Removed(r)));
    ls, t := ls + [OnPhone(U.Removed(r))], State(U.RemoveSeen(m, r), s.server);
  }

  // ---------- A pending capture gets through ----------

  /** From every reached state, while an event runs, each pending capture can be stored and acknowledged. */
  lemma PendingCanBeAcknowledged(s: State, c: string) returns (ls: seq<Label>, t: State)
    requires Reachable(s) && Pending(s.phone, c) && PT.Running(s.server)
    ensures Valid(s, ls) && t == After(s, ls)
    ensures c in t.phone.acked && c in t.phone.captured && c in s.phone.captured
    ensures t.phone.captured[c] == s.phone.captured[c]
    ensures exists id :: OnTheServer(t.server, id, t.phone.captured[c])
  {
    var ks, m, r := PendingIsSent(s, c);
    var ms, n, id := UploadIsServed(m, r);
    RunAppend(s, ks, ms);
    var ns: seq<Label>;
    ns, t := AnswerIsHeard(n, r, U.Accepted);
    RunAppend(s, ks + ms, ns);
    ls := ks + ms + ns;
    ReachableAfter(s, ls);
    PendingIsCaptured(s, c);
    StoredIsOnTheServer(t, c);
  }

  lemma PendingIsCaptured(s: State, c: string)
    requires Reachable(s) && Pending(s.phone, c)
    ensures c in s.phone.captured
  {
    ReachableParts(s);
    UT.ReachableInv(s.phone);
    assert UI.Keyed(s.phone.store, s.phone.captured);
  }

  // ---------- The notice can be wrong ----------

  /** The phone has dropped the capture and reports a lost photo, which the server has. */
  ghost predicate WronglyReported(t: State, c: string) {
    && c in t.phone.dropped && t.phone.status.notice
    && c in t.phone.captured && exists id :: OnTheServer(t.server, id, t.phone.captured[c])
  }

  /** The current event ends. */
  lemma EventEnds(s: State) returns (ls: seq<Label>, t: State)
    requires Reachable(s) && s.server.events != []
    ensures Valid(s, ls) && t == After(s, ls) && Reachable(t)
    ensures t == s.(server := s.server.(now := t.server.now)) && !PT.Running(t.server)
  {
    var end := s.server.events[|s.server.events| - 1].endsAt;
    var l := OnServer(P.Tick(if end > s.server.now then end else s.server.now));
    RunSnoc(s, [], l);
    ls, t := [] + [l], Apply(s, l);
    ReachableAfter(s, ls);
  }

  /** After the end the upload that a drain waits for is refused. */
  lemma UploadIsRefused(s: State, r: nat) returns (ls: seq<Label>, t: State)
    requires Reachable(s) && U.AtSend(s.phone, r) && s.server.events != [] && !PT.Running(s.server)
    ensures Valid(s, ls) && t == After(s, ls)
    ensures t.phone == s.phone && t.server.rows == s.server.rows
    ensures Answered(t.server, s.phone.runs[r].request, false)
  {
    ReachableParts(s);
    SentRequestIsPlausible(s, r);
    var req := RequestOf(s.phone.runs[r]);
    var h := Larger(s.server.handlers.Keys);
    var ps, q := PT.LateRetryIsRefused(s.server, h, req);
    assert AnsweredBy(q.handlers[h], req.origin.request, false);
    ls := LiftServer(s, ps, req);
    t := State(s.phone, q);
  }

  /** Wherever a pending capture is stored, it can be sent once more, too late, and be reported lost. */
  lemma StoredCanBeReportedLost(s: State, c: string) returns (ls: seq<Label>, t: State)
    requires Reachable(s) && Pending(s.phone, c) && Secured(s.server.rows, c) && s.server.events != []
    ensures Valid(s, ls) && t == After(s, ls) && WronglyReported(t, c)
  {
    var ks, k := EventEnds(s);
    var ms, m, r := PendingIsSent(k, c);
    RunAppend(s, ks, ms);
    var ns, n := UploadIsRefused(m, r);
    RunAppend(s, ks + ms, ns);
    var os: seq<Label>;
    os, t := AnswerIsHeard(n, r, U.Refused(423, ""));
    RunAppend(s, ks + ms + ns, os);
    ls := ks + ms + ns + os;
    ReachableAfter(s, ls);
    PendingIsCaptured(s, c);
    StoredIsOnTheServer(t, c);
  }

  /**
   * The condition under which the notice can be wrong, and from `NeverLetInIsNotStored` the only
   * one: a handler of the capture was let in, and can still store it. Its answer is lost, the event
   * ends, and the retry is refused.
   */
  lemma LetInCanBeReportedLost(s: State, c: string, h: nat) returns (ls: seq<Label>, t: State)
    requires Reachable(s) && Pending(s.phone, c)
    requires P.AtLook(s.server, h) && s.server.handlers[h].req.clientId == c && s.server.handlers[h].req.thumb.Some?
    requires !P.Stored(s.server.rows, s.server.handlers[h].event, c)
    ensures Valid(s, ls) && t == After(s, ls) && WronglyReported(t, c)
  {
    var ks, m := LookedUpIsStored(s, h);
    var ms, u := StoredCanBeReportedLost(m, c);
    RunAppend(s, ks, ms);
    ls, t := ks + ms, u;
  }

  lemma LookedUpIsStored(s: State, h: nat) returns (ls: seq<Label>, t: State)
    requires Reachable(s) && P.AtLook(s.server, h) && s.server.handlers[h].req.thumb.Some?
    requires !P.Stored(s.server.rows, s.server.handlers[h].event, s.server.handlers[h].req.clientId)
    ensures Valid(s, ls) && t == After(s, ls) && Reachable(t)
    ensures t.phone == s.phone && Secured(t.server.rows, s.server.handlers[h].req.clientId) && t.server.events != []
  {
    var id := Longer(s.server.owner.Keys + s.server.named);
    var ps, q := PT.LookedUpIsStored(s.server, h, id);
    assert q.rows[id].clientId == s.server.handlers[h].req.clientId;
    HandlerIsOk(s, h);
    ls := LiftServer(s, ps, s.server.handlers[h].req);
    t := State(s.phone, q);
    ReachableAfter(s, ls);
  }

  lemma HandlerIsOk(s: State, h: nat)
    requires Reachable(s) && P.AtLook(s.server, h)
    ensures Plausible(s.phone.log, s.phone.captured, s.server.handlers[h].req) && s.server.events != []
  {
    var phoneClock: nat, serverClock: int, ls :| Reached(phoneClock, serverClock, ls, s);
    ReachedInv(phoneClock, serverClock, ls, s);
    HandlerIsPlausible(s, h);
  }

  lemma HandlerIsPlausible(s: State, h: nat)
    requires RequestsPlausible(s.phone.log, s.phone.captured, s.server.handlers) && ServerHandlersOk(s.server)
    requires P.AtLook(s.server, h)
    ensures Plausible(s.phone.log, s.phone.captured, s.server.handlers[h].req) && s.server.events != []
  {
    assert PI.HandlerOk(h, s.server.handlers[h], s.server.now, s.server.events, s.server.rows,
                        s.server.objects, s.server.owner, s.server.orphans);
  }

  /** Some event runs; if need be a new one. */
  lemma EventRuns(s: State) returns (ls: seq<Label>, t: State)
    requires Reachable(s)
    ensures Valid(s, ls) && t == After(s, ls) && Reachable(t) && t.phone == s.phone && PT.Running(t.server)
  {
    if PT.Running(s.server) {
      ls, t := [], s;
    } else {
      var l := OnServer(P.Create(s.server.now, s.server.now + 1));
      RunSnoc(s, [], l);
      ls, t := [] + [l], Apply(s, l);
      ReachableAfter(s, ls);
    }
  }

  /** No pending capture is safe from a wrong notice: it is stored, the answer is lost, and so on. */
  lemma PendingCanBeReportedLost(s: State, c: string) returns (ls: seq<Label>, t: State)
    requires Reachable(s) && Pending(s.phone, c)
    ensures Valid(s, ls) && t == After(s, ls) && WronglyReported(t, c)
  {
    var ks, k := EventRuns(s);
    var ms, m, r := PendingIsSent(k, c);
    RunAppend(s, ks, ms);
    var ns, n, id := UploadIsServed(m, r);
    RunAppend(s, ks + ms, ns);
    var os: seq<Label>;
    os, t := StoredCanBeReportedLost(n, c);
    RunAppend(s, ks + ms + ns, os);
    ls := ks + ms + ns + os;
  }

  lemma CaptureIsPending(phoneClock: nat, serverClock: int, c: string, bytes: Bytes)
    returns (ls: seq<Label>, t: State)
    ensures Reached(phoneClock, serverClock, ls, t) && Pending(t.phone, c)
  {
    var s := Init(phoneClock, serverClock);
    var capture, write := OnPhone(U.Capture(c, bytes, "image/jpeg", "")), OnPhone(U.Written(c));
    RunSnoc(s, [], capture);
    t := Apply(s, capture);
    RunSnoc(s, [] + [capture], write);
    ls, t := [] + [capture] + [write], Apply(t, write);
  }

  /** The notice does go wrong, in a run from the very start. */
  lemma NoticeCanBeWrong(phoneClock: nat, serverClock: int, c: string, bytes: Bytes)
    returns (ls: seq<Label>, t: State, id: string)
    ensures Reached(phoneClock, serverClock, ls, t)
    ensures c in t.phone.dropped && t.phone.status.notice
    ensures c in t.phone.captured && OnTheServer(t.server, id, t.phone.captured[c])
  {
    var ks, m := CaptureIsPending(phoneClock, serverClock, c, bytes);
    assert Reached(phoneClock, serverClock, ks, m);
    var ms, u := PendingCanBeReportedLost(m, c);
    RunAppend(Init(phoneClock, serverClock), ks, ms);
    ls, t := ks + ms, u;
    id :| OnTheServer(t.server, id, t.phone.captured[c]);
  }

  // ---------- One copy per event ----------

  /** The current event ends, and a new one is started. */
  lemma NextEventRuns(s: State) returns (ls: seq<Label>, t: State)
    requires Reachable(s) && s.server.events != []
    ensures Valid(s, ls) && t == After(s, ls) && Reachable(t) && PT.Running(t.server)
    ensures t.phone == s.phone && t.server.rows == s.server.rows && |t.server.events| == |s.server.events| + 1
  {
    var ks, m := EventEnds(s);
    var l := OnServer(P.Create(m.server.now, m.server.now + 1));
    RunSnoc(s, ks, l);
    ls, t := ks + [l], Apply(m, l);
    ReachableAfter(s, ls);
  }

  /** The server has two photos of the capture, in two events. */
  ghost predicate StoredTwice(t: State, c: string, first: string, second: string) {
    && c in t.phone.captured && first != second
    && OnTheServer(t.server, first, t.phone.captured[c]) && OnTheServer(t.server, second, t.phone.captured[c])
    && t.server.rows[first].event != t.server.rows[second].event
  }

  lemma RowIsTheCapture(s: State, id: string)
    requires Reachable(s) && id in s.server.rows && s.server.rows[id].clientId in s.phone.captured
    ensures OnTheServer(s.server, id, s.phone.captured[s.server.rows[id].clientId])
  {
    var phoneClock: nat, serverClock: int, ls :| Reached(phoneClock, serverClock, ls, s);
    ReachedInv(phoneClock, serverClock, ls, s);
    RowsHoldTheCapture(s, id);
  }

  lemma KnownEvents(s: State)
    requires Reachable(s)
    ensures forall id | id in s.server.rows :: s.server.rows[id].event < |s.server.events|
  {
    ReachableParts(s);
    PT.RowsAreOfKnownEvents(s.server);
  }

  /**
   * Wherever a pending capture is on the server, its retry can be stored a second time: its event
   * ends, a new one is started, and the phone sends it again.
   */
  lemma PendingCanBeStoredTwice(s: State, c: string, first: string) returns (ls: seq<Label>, t: State, second: string)
    requires Reachable(s) && Pending(s.phone, c)
    requires first in s.server.rows && s.server.rows[first].clientId == c
    ensures Valid(s, ls) && t == After(s, ls) && StoredTwice(t, c, first, second)
  {
    KnownEvents(s);
    var ks, k := NextEventRuns(s);
    var ms, m, r := PendingIsSent(k, c);
    RunAppend(s, ks, ms);
    var ns: seq<Label>;
    ns, t, second := UploadIsServed(m, r);
    RunAppend(s, ks + ms, ns);
    ls := ks + ms + ns;
    PendingIsCaptured(s, c);
    RowIsTheCapture(t, first);
    RowIsTheCapture(t, second);
  }

  /** A second copy does get stored, in a run from the very start with one lost answer. */
  lemma CaptureCanBeStoredTwice(phoneClock: nat, serverClock: int, c: string, bytes: Bytes)
    returns (ls: seq<Label>, t: State, first: string, second: string)
    ensures Reached(phoneClock, serverClock, ls, t) && StoredTwice(t, c, first, second)
  {
    var s := Init(phoneClock, serverClock);
    var js, j := CaptureIsPending(phoneClock, serverClock, c, bytes);
    assert Reached(phoneClock, serverClock, js, j);
    var ks, k := EventRuns(j);
    RunAppend(s, js, ks);
    var ms, m, r := PendingIsSent(k, c);
    RunAppend(s, js + ks, ms);
    var ns, n: State;
    ns, n, first := UploadIsServed(m, r);
    RunAppend(s, js + ks + ms, ns);
    var os: seq<Label>;
    os, t, second := PendingCanBeStoredTwice(n, c, first);
    RunAppend(s, js + ks + ms + ns, os);
    ls := js + ks + ms + ns + os;
  }
}
