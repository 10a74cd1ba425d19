/**
 * What every step of the uploader keeps, one conjunct at a time. Each conjunct is a
 * predicate of the fields it speaks of, so a step that leaves them alone keeps it.
 */
module UploaderInvariants {
  import opened Octets
  import opened Options
  import opened PhotoQueue
  import opened Uploader

  /** The head of the inner loop only sends, moves its own drain, and clears `again`. */
  lemma NextItemFrame(s: State, r: nat, rest: seq<Item>)
    ensures
      var t := NextItem(s, r, rest);
      && t == s.(log := t.log, again := t.again, runs := t.runs)
      && r in t.runs && t.runs == s.runs[r := t.runs[r]]
      && t.log == (if rest != [] then s.log + [Send(rest[0], s.now)] else s.log)
      && InFlight(t.runs[r]) == (if rest != [] then {rest[0].clientId} else {})
      && !t.runs[r].Removing? && !t.runs[r].Putting? && !t.runs[r].Scheduling?
  {
    if rest != [] {
    } else if s.again {
    } else {
    }
  }

  /** Nothing is captured, stored, sent or removed, and no drain gets to remove a capture. */
  ghost predicate SameRecord(s: State, t: State) {
    && t.log == s.log && t.captured == s.captured && t.written == s.written
    && t.store == s.store && t.acked == s.acked && t.dropped == s.dropped
    && t.now >= s.now && |t.passes| == |s.passes|
    && (forall r | r in t.runs && t.runs[r].Removing? :: r in s.runs && s.runs[r] == t.runs[r])
  }

  lemma CallDrainFrame(s: State)
    ensures
      var t := CallDrain(s);
      && t == s.(draining := t.draining, nextRun := t.nextRun, again := t.again, runs := t.runs)
      && (forall r | r in t.runs && !t.runs[r].ReadingDue? :: r in s.runs && s.runs[r] == t.runs[r])
  {
  }

  lemma CallDrainKeepsRecord(s: State, t: State)
    requires SameRecord(s, t)
    ensures SameRecord(s, CallDrain(t))
  {
    CallDrainFrame(t);
  }

  lemma RecountKeepsRecord(s: State, r: nat)
    requires AtRecount(s, r)
    ensures SameRecord(s, RecountSeen(s, r))
  {
  }

  lemma ScheduleKeepsRecord(s: State, r: nat, soonest: int)
    requires CanSchedule(s, r, soonest)
    ensures SameRecord(s, ScheduleSeen(s, r, soonest))
  {
  }

  lemma EndOfDrainKeepsRecord(s: State, l: Label)
    requires Enabled(s, l) && (l.Recounted? || l.Scheduled?)
    ensures SameRecord(s, Apply(s, l))
  {
    match l
    case Recounted(r) => RecountKeepsRecord(s, r);
    case Scheduled(r, soonest) => ScheduleKeepsRecord(s, r, soonest);
  }

  lemma PageKeepsRecord(s: State, l: Label)
    requires Enabled(s, l) && (l.Tick? || l.Stop? || l.Dismiss? || l.Reload?)
    ensures SameRecord(s, Apply(s, l))
  {
  }

  /** Wake-ups, counts, timers and reloads leave the record alone. */
  lemma OthersKeepRecord(s: State, l: Label)
    requires Enabled(s, l)
    requires !l.DueRead? && !l.Removed? && !l.PutDone? && !l.RemovedUnseen? && !l.PutUnseen?
    requires !l.Settle? && !l.Capture? && !l.Written?
    ensures SameRecord(s, Apply(s, l))
  {
    match l
    case Start => if !s.started { CallDrainKeepsRecord(s, s.(started := true)); }
    case Trigger => CallDrainKeepsRecord(s, s);
    case Fire => CallDrainKeepsRecord(s, s.(timer := None));
    case Tallied(c) => CallDrainKeepsRecord(s, Recount(s.(enqueues := s.enqueues - {c})));
    case Recounted(_) => EndOfDrainKeepsRecord(s, l);
    case Scheduled(_, _) => EndOfDrainKeepsRecord(s, l);
    case _ => PageKeepsRecord(s, l);
  }

  // ---------- Single flight ----------

  /** `draining` names the one running drain, and is null exactly when there is none. */
  ghost predicate SingleFlight(runs: map<nat, Run>, draining: Option<nat>, nextRun: nat) {
    && (draining.None? ==> runs == map[])
    && (draining.Some? ==> (forall r :: r in runs <==> r == draining.value) && draining.value < nextRun)
  }

  // ---------- The store and the captures ----------

  predicate SameCapture(a: Item, b: Item) {
    a.clientId == b.clientId && a.bytes == b.bytes && a.contentType == b.contentType && a.takenAt == b.takenAt
  }

  /** Every stored item is a written capture, filed under its own id, with its content untouched. */
  ghost predicate Keyed(store: Store, captured: map<ClientId, Item>) {
    && (forall c | c in captured :: captured[c].clientId == c && Untried(captured[c]))
    && (forall c | c in store :: c in captured && SameCapture(store[c], captured[c]))
  }

  ghost predicate Enqueuing(enqueues: map<ClientId, EnqueuePhase>, captured: map<ClientId, Item>,
                            written: set<ClientId>) {
    && written <= captured.Keys
    && (forall c | c in enqueues :: c in captured && (enqueues[c].Writing? <==> c !in written))
  }

  /** Nothing vanishes: a written capture is stored, was acknowledged, or was dropped, and only one of these. */
  ghost predicate Conserved(written: set<ClientId>, store: Store, acked: set<ClientId>, dropped: set<ClientId>) {
    && (forall c :: c in written <==> c in store || c in acked || c in dropped)
    && (forall c | c in store :: c !in acked && c !in dropped)
    && acked !! dropped
  }

  // ---------- The snapshot a drain holds is never stale ----------

  ghost predicate RestCurrent(store: Store, now: int, rest: seq<Item>) {
    && (forall i | 0 <= i < |rest| ::
          rest[i].clientId in store && store[rest[i].clientId] == rest[i] && IsDue(rest[i], now))
    && DistinctIds(rest)
  }

  ghost predicate InHand(store: Store, now: int, log: seq<Send>, item: Item, rest: seq<Item>) {
    && item.clientId in store && store[item.clientId] == item && IsDue(item, now)
    && RestCurrent(store, now, rest)
    && (forall i | 0 <= i < |rest| :: rest[i].clientId != item.clientId)
    && log != [] && log[|log| - 1].item == item
  }

  ghost predicate RunCurrent(store: Store, now: int, log: seq<Send>, run: Run) {
    match run
    case ReadingDue(at) => at <= now
    case Sending(item, rest, request) => InHand(store, now, log, item, rest) && request == |log| - 1
    case Removing(item, rest, _) => InHand(store, now, log, item, rest)
    case Putting(item, rest) =>
      && item.clientId in store
      && InHand(store, now, log, store[item.clientId], rest)
      && SameCapture(item, store[item.clientId])
      && item.attempts == store[item.clientId].attempts + 1
    case Recounting => true
    case Scheduling => true
  }

  /** Each item a drain still holds equals the stored one, so writing it back loses no update. */
  ghost predicate Current(store: Store, now: int, log: seq<Send>, runs: map<nat, Run>) {
    forall r | r in runs :: RunCurrent(store, now, log, runs[r])
  }

  ghost predicate Core(s: State) {
    && SingleFlight(s.runs, s.draining, s.nextRun)
    && Keyed(s.store, s.captured)
    && Enqueuing(s.enqueues, s.captured, s.written)
    && Conserved(s.written, s.store, s.acked, s.dropped)
    && Current(s.store, s.now, s.log, s.runs)
  }

  lemma RestCurrentAfterWrite(store: Store, now: int, rest: seq<Item>, c: ClientId, item: Item)
    requires RestCurrent(store, now, rest)
    requires forall i | 0 <= i < |rest| :: rest[i].clientId != c
    ensures RestCurrent(store[c := item], now, rest)
    ensures RestCurrent(store - {c}, now, rest)
  {
  }

  /** `NextItem` from a current remainder leaves a current run. */
  lemma NextItemCore(s: State, r: nat, rest: seq<Item>)
    requires s.draining == Some(r) && SingleFlight(s.runs, s.draining, s.nextRun)
    requires Keyed(s.store, s.captured)
    requires Enqueuing(s.enqueues, s.captured, s.written)
    requires Conserved(s.written, s.store, s.acked, s.dropped)
    requires RestCurrent(s.store, s.now, rest)
    ensures Core(NextItem(s, r, rest))
  {
    var t := NextItem(s, r, rest);
    if rest != [] {
      assert RestCurrent(t.store, t.now, rest[1..]);
      assert RunCurrent(t.store, t.now, t.log, t.runs[r]);
    }
  }

  lemma DueReadCore(s: State, r: nat, snapshot: seq<Item>)
    requires Core(s) && CanRead(s, r, snapshot)
    ensures Core(ReadArrived(s, r, snapshot))
  {
    assert RunCurrent(s.store, s.now, s.log, s.runs[r]);
    assert RestCurrent(s.store, s.now, snapshot);
    NextItemCore(BeginPass(s, s.runs[r].at, snapshot), r, snapshot);
  }

  lemma SettleCore(s: State, r: nat, outcome: Outcome)
    requires Core(s) && AtSend(s, r)
    ensures Core(SendSettled(s, r, outcome))
  {
    var t := SendSettled(s, r, outcome);
    assert RunCurrent(s.store, s.now, s.log, s.runs[r]);
    assert RunCurrent(t.store, t.now, t.log, t.runs[r]);
  }

  lemma WrittenCore(s: State, c: ClientId)
    requires Core(s) && CanWrite(s, c)
    ensures Core(CaptureStored(s, c))
  {
    var t := CaptureStored(s, c);
    assert c !in s.store;
    forall r | r in t.runs ensures RunCurrent(t.store, t.now, t.log, t.runs[r]) {
      assert RunCurrent(s.store, s.now, s.log, s.runs[r]);
    }
  }

  lemma TickCore(s: State, to: int)
    requires Core(s) && s.now <= to
    ensures Core(s.(now := to))
  {
    var t := s.(now := to);
    forall r | r in t.runs ensures RunCurrent(t.store, t.now, t.log, t.runs[r]) {
      assert RunCurrent(s.store, s.now, s.log, s.runs[r]);
    }
  }

  lemma CallDrainCore(s: State)
    requires Core(s)
    ensures Core(CallDrain(s))
  {
    if s.draining.None? {
      assert CallDrain(s).runs == map[s.nextRun := ReadingDue(s.now)];
    }
  }

  lemma FinishCore(s: State, r: nat)
    requires Core(s) && r in s.runs
    ensures Core(Finish(s, r))
  {
    assert s.runs - {r} == map[];
  }

  lemma RecountedCore(s: State, r: nat)
    requires Core(s) && AtRecount(s, r)
    ensures Core(RecountSeen(s, r))
  {
    var t := Recount(s).(timer := None);
    if !t.started {
      FinishCore(t, r);
    }
  }

  lemma ScheduledCore(s: State, r: nat, soonest: int)
    requires Core(s) && AtSchedule(s, r)
    ensures Core(ScheduleSeen(s, r, soonest))
  {
    FinishCore(if Waiting(s.store) then s.(timer := Some(Timer(s.now, if soonest > s.now then soonest else s.now)))
               else s, r);
  }

  lemma CaptureCore(s: State, c: ClientId, bytes: Bytes, blobType: string, takenAt: string)
    requires Core(s) && c !in s.captured
    ensures Core(Capturing(s, c, bytes, blobType, takenAt))
  {
  }

  /** A new page has only the database to agree with. */
  lemma NewPageCore(s: State)
    requires Keyed(s.store, s.captured) && s.written <= s.captured.Keys
    requires Conserved(s.written, s.store, s.acked, s.dropped)
    ensures Core(NewPage(s))
  {
  }

  lemma ReloadCore(s: State)
    requires Core(s)
    ensures Core(Reloading(s))
  {
    NewPageCore(s.(cuts := s.cuts + multiset(AllInFlight(s)),
                   passes := if AllInFlight(s) == {} then s.passes else CutLast(s.passes)));
  }

  lemma OneLeaves(written: set<ClientId>, store: Store, acked: set<ClientId>, dropped: set<ClientId>, c: ClientId)
    requires Conserved(written, store, acked, dropped) && c in store
    ensures Conserved(written, store - {c}, acked + {c}, dropped)
    ensures Conserved(written, store - {c}, acked, dropped + {c})
  {
  }

  /** What the database and the record of the phone agree on after a committed removal. */
  lemma RemoveCommittedCore(s: State, r: nat)
    requires Core(s) && AtRemove(s, r)
    ensures
      var t := RemoveCommitted(s, r);
      Keyed(t.store, t.captured) && Conserved(t.written, t.store, t.acked, t.dropped)
      && RestCurrent(t.store, t.now, s.runs[r].rest)
  {
    assert RunCurrent(s.store, s.now, s.log, s.runs[r]);
    RestCurrentAfterWrite(s.store, s.now, s.runs[r].rest, s.runs[r].item.clientId, s.runs[r].item);
    OneLeaves(s.written, s.store, s.acked, s.dropped, s.runs[r].item.clientId);
  }

  lemma PutCommittedCore(s: State, r: nat)
    requires Core(s) && AtPut(s, r)
    ensures
      var t := PutCommitted(s, r);
      Keyed(t.store, t.captured) && Conserved(t.written, t.store, t.acked, t.dropped)
      && RestCurrent(t.store, t.now, s.runs[r].rest)
  {
    assert RunCurrent(s.store, s.now, s.log, s.runs[r]);
    RestCurrentAfterWrite(s.store, s.now, s.runs[r].rest, s.runs[r].item.clientId, s.runs[r].item);
  }

  lemma RemovedCore(s: State, r: nat)
    requires Core(s) && AtRemove(s, r)
    ensures Core(RemoveSeen(s, r))
  {
    RemoveCommittedCore(s, r);
    NextItemCore(RemoveCommitted(s, r), r, s.runs[r].rest);
  }

  lemma PutDoneCore(s: State, r: nat)
    requires Core(s) && AtPut(s, r)
    ensures Core(PutSeen(s, r))
  {
    PutCommittedCore(s, r);
    NextItemCore(PutCommitted(s, r), r, s.runs[r].rest);
  }

  lemma RemovedUnseenCore(s: State, r: nat)
    requires Core(s) && AtRemove(s, r)
    ensures Core(RemoveNotSeen(s, r))
  {
    RemoveCommittedCore(s, r);
    NewPageCore(RemoveCommitted(s, r).(passes := CutLast(s.passes)));
  }

  lemma PutUnseenCore(s: State, r: nat)
    requires Core(s) && AtPut(s, r)
    ensures Core(PutNotSeen(s, r))
  {
    PutCommittedCore(s, r);
    NewPageCore(PutCommitted(s, r).(passes := CutLast(s.passes)));
  }

  lemma DrainCore(s: State, l: Label)
    requires Enabled(s, l) && Core(s) && ByDrain(l)
    ensures Core(Apply(s, l))
  {
    match l
    case DueRead(r, snapshot) => DueReadCore(s, r, snapshot);
    case Settle(r, outcome) => SettleCore(s, r, outcome);
    case Removed(r) => RemovedCore(s, r);
    case PutDone(r) => PutDoneCore(s, r);
    case RemovedUnseen(r) => RemovedUnseenCore(s, r);
    case PutUnseen(r) => PutUnseenCore(s, r);
    case Recounted(r) => RecountedCore(s, r);
    case Scheduled(r, soonest) => ScheduledCore(s, r, soonest);
  }

  lemma PageCore(s: State, l: Label)
    requires Enabled(s, l) && Core(s) && !ByDrain(l)
    ensures Core(Apply(s, l))
  {
    match l
    case Tick(to) => TickCore(s, to);
    case Start => CallDrainCore(s.(started := true));
    case Trigger => CallDrainCore(s);
    case Fire => CallDrainCore(s.(timer := None));
    case Written(c) => WrittenCore(s, c);
    case Tallied(c) => CallDrainCore(Recount(s.(enqueues := s.enqueues - {c})));
    case Capture(c, bytes, blobType, takenAt) => CaptureCore(s, c, bytes, blobType, takenAt);
    case Reload => ReloadCore(s);
    case Stop =>
    case Dismiss =>
  }

  /** The drain in flight is unique and holds only current items, and no capture vanishes. */
  lemma CoreStep(s: State, l: Label)
    requires Enabled(s, l) && Core(s)
    ensures Core(Apply(s, l))
  {
    if ByDrain(l) {
      DrainCore(s, l);
    } else {
      PageCore(s, l);
    }
  }
}
