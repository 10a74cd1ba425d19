/** What the uploader's send log and its passes look like after any run. */
module UploaderHistory {
  import opened Options
  import opened PhotoQueue
  import opened Backoff
  import opened Uploader
  import opened UploaderInvariants

  // ---------- Reading the log ----------

  /** When a capture was first sent, if it ever was. */
  function FirstAt(log: seq<Send>, c: ClientId): Option<int> {
    if log == [] then None
    else
      var earlier := FirstAt(log[..|log| - 1], c);
      if earlier.Some? then earlier
      else if log[|log| - 1].item.clientId == c then Some(log[|log| - 1].at) else None
  }

  /** How many times a capture was sent. */
  function CountSends(log: seq<Send>, c: ClientId): nat {
    if log == [] then 0
    else CountSends(log[..|log| - 1], c) + (if log[|log| - 1].item.clientId == c then 1 else 0)
  }

  lemma LogAppend(log: seq<Send>, e: Send, c: ClientId)
    ensures CountSends(log + [e], c) == CountSends(log, c) + (if e.item.clientId == c then 1 else 0)
    ensures FirstAt(log + [e], c) ==
            if FirstAt(log, c).Some? then FirstAt(log, c) else if e.item.clientId == c then Some(e.at) else None
  {
    assert (log + [e])[..|log|] == log;
  }

  lemma {:induction false} NeverSent(log: seq<Send>, c: ClientId)
    requires forall j | 0 <= j < |log| :: log[j].item.clientId != c
    ensures CountSends(log, c) == 0 && FirstAt(log, c).None?
  {
    if log != [] {
      NeverSent(log[..|log| - 1], c);
    }
  }

  lemma {:induction false} FirstAtIsPast(log: seq<Send>, c: ClientId, now: int)
    requires forall j | 0 <= j < |log| :: log[j].at <= now
    requires FirstAt(log, c).Some?
    ensures FirstAt(log, c).value <= now
  {
    if FirstAt(log[..|log| - 1], c).Some? {
      FirstAtIsPast(log[..|log| - 1], c, now);
    }
  }

  // ---------- Attempts are spaced by the backoff ----------

  ghost predicate LogSpaced(log: seq<Send>, now: int) {
    forall j | 0 <= j < |log| ::
      && log[j].at <= now
      && FirstAt(log, log[j].item.clientId).Some?
      && log[j].at >= FirstAt(log, log[j].item.clientId).value + Wait(log[j].item.attempts + 1)
  }

  /** A failed attempt's item may not be tried again before its share of the total wait. */
  ghost predicate ItemSpaced(log: seq<Send>, item: Item) {
    !item.failed && item.attempts > 0 ==>
      && FirstAt(log, item.clientId).Some?
      && item.nextAttemptAt >= FirstAt(log, item.clientId).value + Wait(item.attempts + 1)
  }

  ghost predicate StoreSpaced(log: seq<Send>, store: Store) {
    forall c | c in store :: ItemSpaced(log, store[c])
  }

  ghost predicate RunsSpaced(log: seq<Send>, runs: map<nat, Run>) {
    forall r | r in runs && runs[r].Putting? :: ItemSpaced(log, runs[r].item)
  }

  ghost predicate Spaced(s: State) {
    LogSpaced(s.log, s.now) && StoreSpaced(s.log, s.store) && RunsSpaced(s.log, s.runs)
  }

  lemma SendSpaced(log: seq<Send>, now: int, store: Store, item: Item)
    requires LogSpaced(log, now) && StoreSpaced(log, store)
    requires item.clientId in store && store[item.clientId] == item && IsDue(item, now)
    requires forall c | c in store :: store[c].clientId == c
    ensures LogSpaced(log + [Send(item, now)], now) && StoreSpaced(log + [Send(item, now)], store)
  {
    var e := Send(item, now);
    var next := log + [e];
    LogAppend(log, e, item.clientId);
    if FirstAt(log, item.clientId).Some? {
      FirstAtIsPast(log, item.clientId, now);
    }
    assert ItemSpaced(log, store[item.clientId]);
    forall j | 0 <= j < |next|
      ensures next[j].at <= now && FirstAt(next, next[j].item.clientId).Some?
      ensures next[j].at >= FirstAt(next, next[j].item.clientId).value + Wait(next[j].item.attempts + 1)
    {
      LogAppend(log, e, next[j].item.clientId);
      if j < |log| {
        assert next[j] == log[j];
      }
    }
    forall c | c in store ensures ItemSpaced(next, store[c]) {
      assert ItemSpaced(log, store[c]);
      LogAppend(log, e, c);
    }
  }

  lemma NextItemSpaced(s: State, r: nat, rest: seq<Item>)
    requires LogSpaced(s.log, s.now) && StoreSpaced(s.log, s.store)
    requires s.draining == Some(r) && SingleFlight(s.runs, s.draining, s.nextRun)
    requires Keyed(s.store, s.captured) && RestCurrent(s.store, s.now, rest)
    ensures Spaced(NextItem(s, r, rest))
  {
    if rest != [] {
      SendSpaced(s.log, s.now, s.store, rest[0]);
    }
  }

  lemma SettleSpaced(s: State, r: nat, outcome: Outcome)
    requires Core(s) && Spaced(s) && AtSend(s, r)
    ensures Spaced(SendSettled(s, r, outcome))
  {
    var item := s.runs[r].item;
    assert RunCurrent(s.store, s.now, s.log, s.runs[r]);
    assert s.log[|s.log| - 1].item == item;
    var run := AfterUpload(s.now, s.runs[r], outcome);
    if run.Putting? {
      assert Wait(item.attempts + 2) == Wait(item.attempts + 1) + BackoffMs(item.attempts + 1);
      assert ItemSpaced(s.log, run.item);
    }
  }

  lemma WrittenSpaced(s: State, c: ClientId)
    requires CanWrite(s, c) && Core(s) && Spaced(s)
    ensures Spaced(CaptureStored(s, c))
  {
    assert ItemSpaced(s.log, s.captured[c]);
  }

  lemma CallDrainSpaced(s: State)
    requires Spaced(s)
    ensures Spaced(CallDrain(s))
  {
    CallDrainFrame(s);
  }

  lemma NewPageSpaced(s: State)
    requires LogSpaced(s.log, s.now) && StoreSpaced(s.log, s.store)
    ensures Spaced(NewPage(s))
  {
  }

  lemma RemoveCommittedSpaced(s: State, r: nat)
    requires Spaced(s) && AtRemove(s, r)
    ensures StoreSpaced(s.log, RemoveCommitted(s, r).store)
  {
    assert RemoveCommitted(s, r).store == s.store - {s.runs[r].item.clientId};
  }

  lemma PutCommittedSpaced(s: State, r: nat)
    requires Spaced(s) && AtPut(s, r)
    ensures StoreSpaced(s.log, PutCommitted(s, r).store)
  {
    assert ItemSpaced(s.log, s.runs[r].item);
  }

  lemma DueReadSpaced(s: State, r: nat, snapshot: seq<Item>)
    requires Core(s) && Spaced(s) && CanRead(s, r, snapshot)
    ensures Spaced(ReadArrived(s, r, snapshot))
  {
    assert RunCurrent(s.store, s.now, s.log, s.runs[r]);
    assert RestCurrent(s.store, s.now, snapshot);
    NextItemSpaced(BeginPass(s, s.runs[r].at, snapshot), r, snapshot);
  }

  lemma RemovedSpaced(s: State, r: nat)
    requires Core(s) && Spaced(s) && AtRemove(s, r)
    ensures Spaced(RemoveSeen(s, r))
  {
    RemoveCommittedCore(s, r);
    RemoveCommittedSpaced(s, r);
    NextItemSpaced(RemoveCommitted(s, r), r, s.runs[r].rest);
  }

  lemma PutDoneSpaced(s: State, r: nat)
    requires Core(s) && Spaced(s) && AtPut(s, r)
    ensures Spaced(PutSeen(s, r))
  {
    PutCommittedCore(s, r);
    PutCommittedSpaced(s, r);
    NextItemSpaced(PutCommitted(s, r), r, s.runs[r].rest);
  }

  lemma RecountedSpaced(s: State, r: nat)
    requires Spaced(s) && AtRecount(s, r)
    ensures Spaced(RecountSeen(s, r))
  {
  }

  lemma RemovedUnseenSpaced(s: State, r: nat)
    requires Spaced(s) && AtRemove(s, r)
    ensures Spaced(RemoveNotSeen(s, r))
  {
    RemoveCommittedSpaced(s, r);
    NewPageSpaced(RemoveCommitted(s, r).(passes := CutLast(s.passes)));
  }

  lemma PutUnseenSpaced(s: State, r: nat)
    requires Spaced(s) && AtPut(s, r)
    ensures Spaced(PutNotSeen(s, r))
  {
    PutCommittedSpaced(s, r);
    NewPageSpaced(PutCommitted(s, r).(passes := CutLast(s.passes)));
  }

  lemma DrainSpaced(s: State, l: Label)
    requires Enabled(s, l) && Core(s) && Spaced(s) && ByDrain(l)
    ensures Spaced(Apply(s, l))
  {
    match l
    case DueRead(r, snapshot) => DueReadSpaced(s, r, snapshot);
    case Settle(r, outcome) => SettleSpaced(s, r, outcome);
    case Removed(r) => RemovedSpaced(s, r);
    case PutDone(r) => PutDoneSpaced(s, r);
    case RemovedUnseen(r) => RemovedUnseenSpaced(s, r);
    case PutUnseen(r) => PutUnseenSpaced(s, r);
    case Recounted(r) => RecountedSpaced(s, r);
    case Scheduled(_, _) =>
  }

  lemma PageSpaced(s: State, l: Label)
    requires Enabled(s, l) && Core(s) && Spaced(s) && !ByDrain(l)
    ensures Spaced(Apply(s, l))
  {
    match l
    case Written(c) => WrittenSpaced(s, c);
    case Start => CallDrainSpaced(s.(started := true));
    case Trigger => CallDrainSpaced(s);
    case Fire => CallDrainSpaced(s.(timer := None));
    case Tallied(c) => CallDrainSpaced(Recount(s.(enqueues := s.enqueues - {c})));
    case Reload =>
      NewPageSpaced(s.(cuts := s.cuts + multiset(AllInFlight(s)),
                       passes := if AllInFlight(s) == {} then s.passes else CutLast(s.passes)));
    case _ =>
  }

  lemma SpacedStep(s: State, l: Label)
    requires Enabled(s, l) && Core(s) && Spaced(s)
    ensures Spaced(Apply(s, l))
  {
    if ByDrain(l) {
      DrainSpaced(s, l);
    } else {
      PageSpaced(s, l);
    }
  }

  // ---------- The recorded attempt number is the number of sends ----------

  ghost predicate Flying(runs: map<nat, Run>, c: ClientId) {
    exists r :: r in runs && c in InFlight(runs[r])
  }

  /**
   * Only written captures are sent, and the attempts recorded before a send are the sends before
   * it, but for those that a reload interrupted.
   */
  ghost predicate LogTallied(log: seq<Send>, cuts: multiset<ClientId>, written: set<ClientId>) {
    && (forall j | 0 <= j < |log| :: log[j].item.clientId in written)
    && (forall j | 0 <= j < |log| ::
          var c := log[j].item.clientId;
          log[j].item.attempts <= CountSends(log[..j], c) <= log[j].item.attempts + cuts[c])
  }

  ghost predicate StoreTallied(log: seq<Send>, cuts: multiset<ClientId>, store: Store, flight: iset<ClientId>) {
    forall c | c in store ::
      var recorded := store[c].attempts + (if c in flight then 1 else 0);
      recorded <= CountSends(log, c) <= recorded + cuts[c]
  }

  ghost function FlightSet(runs: map<nat, Run>): iset<ClientId> {
    iset c | Flying(runs, c)
  }

  ghost predicate Tallies(s: State) {
    LogTallied(s.log, s.cuts, s.written) && StoreTallied(s.log, s.cuts, s.store, FlightSet(s.runs))
  }

  lemma SendTallied(log: seq<Send>, cuts: multiset<ClientId>, written: set<ClientId>, store: Store,
                    item: Item, now: int)
    requires LogTallied(log, cuts, written) && StoreTallied(log, cuts, store, iset{})
    requires item.clientId in store && store[item.clientId] == item && item.clientId in written
    ensures LogTallied(log + [Send(item, now)], cuts, written)
    ensures StoreTallied(log + [Send(item, now)], cuts, store, iset{item.clientId})
  {
    var e := Send(item, now);
    var next := log + [e];
    forall j | 0 <= j < |next|
      ensures
        var c := next[j].item.clientId;
        next[j].item.attempts <= CountSends(next[..j], c) <= next[j].item.attempts + cuts[c]
    {
      assert next[..j] == log[..j];
      if j < |log| {
        assert next[j] == log[j];
      } else {
        assert log[..j] == log;
      }
    }
    forall c | c in store
      ensures
        var recorded := store[c].attempts + (if c in iset{item.clientId} then 1 else 0);
        recorded <= CountSends(next, c) <= recorded + cuts[c]
    {
      LogAppend(log, e, c);
    }
  }

  lemma NextItemTallied(s: State, r: nat, rest: seq<Item>)
    requires LogTallied(s.log, s.cuts, s.written) && StoreTallied(s.log, s.cuts, s.store, iset{})
    requires s.draining == Some(r) && SingleFlight(s.runs, s.draining, s.nextRun)
    requires Conserved(s.written, s.store, s.acked, s.dropped) && RestCurrent(s.store, s.now, rest)
    ensures Tallies(NextItem(s, r, rest))
  {
    var t := NextItem(s, r, rest);
    NextItemFrame(s, r, rest);
    OneFlight(t.runs, r);
    if rest != [] {
      SendTallied(s.log, s.cuts, s.written, s.store, rest[0], s.now);
      assert FlightSet(t.runs) == iset{rest[0].clientId};
    } else {
      assert FlightSet(t.runs) == iset{};
    }
  }

  lemma OneFlight(runs: map<nat, Run>, r: nat)
    requires forall q :: q in runs <==> q == r
    ensures FlightSet(runs) == iset c | c in InFlight(runs[r])
  {
    assert forall c :: c in InFlight(runs[r]) ==> Flying(runs, c);
  }

  lemma RemoveCommittedTallied(s: State, r: nat)
    requires Core(s) && Tallies(s) && AtRemove(s, r)
    ensures StoreTallied(s.log, s.cuts, RemoveCommitted(s, r).store, iset{})
  {
    assert RunCurrent(s.store, s.now, s.log, s.runs[r]);
    OneFlight(s.runs, r);
  }

  lemma PutCommittedTallied(s: State, r: nat)
    requires Core(s) && Tallies(s) && AtPut(s, r)
    ensures StoreTallied(s.log, s.cuts, PutCommitted(s, r).store, iset{})
  {
    assert RunCurrent(s.store, s.now, s.log, s.runs[r]);
    OneFlight(s.runs, r);
  }

  lemma NewPageTallied(s: State)
    requires LogTallied(s.log, s.cuts, s.written) && StoreTallied(s.log, s.cuts, s.store, iset{})
    ensures Tallies(NewPage(s))
  {
    assert FlightSet(NewPage(s).runs) == iset{};
  }

  lemma RemovedTallied(s: State, r: nat)
    requires Core(s) && Tallies(s) && AtRemove(s, r)
    ensures Tallies(RemoveSeen(s, r))
  {
    RemoveCommittedTallied(s, r);
    RemoveCommittedCore(s, r);
    NextItemTallied(RemoveCommitted(s, r), r, s.runs[r].rest);
  }

  lemma PutDoneTallied(s: State, r: nat)
    requires Core(s) && Tallies(s) && AtPut(s, r)
    ensures Tallies(PutSeen(s, r))
  {
    PutCommittedTallied(s, r);
    PutCommittedCore(s, r);
    NextItemTallied(PutCommitted(s, r), r, s.runs[r].rest);
  }

  lemma DueReadTallied(s: State, r: nat, snapshot: seq<Item>)
    requires Core(s) && Tallies(s) && CanRead(s, r, snapshot)
    ensures Tallies(ReadArrived(s, r, snapshot))
  {
    assert RunCurrent(s.store, s.now, s.log, s.runs[r]);
    assert RestCurrent(s.store, s.now, snapshot);
    OneFlight(s.runs, r);
    assert FlightSet(s.runs) == iset{};
    NextItemTallied(BeginPass(s, s.runs[r].at, snapshot), r, snapshot);
  }

  lemma ReloadTallied(s: State)
    requires Core(s) && Tallies(s)
    ensures Tallies(Reloading(s))
  {
    var t := Reloading(s);
    forall c ensures t.cuts[c] == s.cuts[c] + (if Flying(s.runs, c) then 1 else 0) {
      assert c in AllInFlight(s) <==> Flying(s.runs, c);
    }
    assert FlightSet(t.runs) == iset{};
  }

  lemma UnstoredIsNotFlying(s: State, c: ClientId)
    requires Core(s) && c !in s.store
    ensures !Flying(s.runs, c)
  {
    forall r | r in s.runs ensures c !in InFlight(s.runs[r]) {
      assert RunCurrent(s.store, s.now, s.log, s.runs[r]);
    }
  }

  lemma WrittenTallied(s: State, c: ClientId)
    requires Core(s) && Tallies(s) && CanWrite(s, c)
    ensures Tallies(CaptureStored(s, c))
  {
    NeverSent(s.log, c);
    UnstoredIsNotFlying(s, c);
  }

  lemma SettleTallied(s: State, r: nat, outcome: Outcome)
    requires Core(s) && Tallies(s) && AtSend(s, r)
    ensures Tallies(SendSettled(s, r, outcome))
  {
    var t := SendSettled(s, r, outcome);
    OneFlight(s.runs, r);
    OneFlight(t.runs, r);
    assert InFlight(t.runs[r]) == InFlight(s.runs[r]);
  }

  lemma CallDrainTallied(s: State)
    requires SingleFlight(s.runs, s.draining, s.nextRun) && Tallies(s)
    ensures Tallies(CallDrain(s))
  {
    if s.draining.None? {
      assert FlightSet(s.runs) == iset{};
      OneFlight(CallDrain(s).runs, s.nextRun);
      assert FlightSet(CallDrain(s).runs) == iset{};
    }
  }

  /** A drain past its loop has nothing in flight. */
  lemma FinishTallied(s: State, r: nat)
    requires SingleFlight(s.runs, s.draining, s.nextRun) && Tallies(s) && r in s.runs && InFlight(s.runs[r]) == {}
    ensures Tallies(Finish(s, r))
  {
    OneFlight(s.runs, r);
    assert FlightSet(s.runs) == iset{};
    assert s.runs - {r} == map[];
    assert FlightSet(Finish(s, r).runs) == iset{};
  }

  lemma RecountedTallied(s: State, r: nat)
    requires Core(s) && Tallies(s) && AtRecount(s, r)
    ensures Tallies(RecountSeen(s, r))
  {
    var t := Recount(s).(timer := None);
    if !t.started {
      FinishTallied(t, r);
    } else {
      OneFlight(s.runs, r);
      OneFlight(s.runs[r := Scheduling], r);
    }
  }

  lemma ScheduledTallied(s: State, r: nat, soonest: int)
    requires Core(s) && Tallies(s) && AtSchedule(s, r)
    ensures Tallies(ScheduleSeen(s, r, soonest))
  {
    if Waiting(s.store) {
      FinishTallied(s.(timer := Some(Timer(s.now, if soonest > s.now then soonest else s.now))), r);
    } else {
      FinishTallied(s, r);
    }
  }

  lemma RemovedUnseenTallied(s: State, r: nat)
    requires Core(s) && Tallies(s) && AtRemove(s, r)
    ensures Tallies(RemoveNotSeen(s, r))
  {
    RemoveCommittedTallied(s, r);
    NewPageTallied(RemoveCommitted(s, r).(passes := CutLast(s.passes)));
  }

  lemma PutUnseenTallied(s: State, r: nat)
    requires Core(s) && Tallies(s) && AtPut(s, r)
    ensures Tallies(PutNotSeen(s, r))
  {
    PutCommittedTallied(s, r);
    NewPageTallied(PutCommitted(s, r).(passes := CutLast(s.passes)));
  }

  lemma DrainTallied(s: State, l: Label)
    requires Enabled(s, l) && Core(s) && Tallies(s) && ByDrain(l)
    ensures Tallies(Apply(s, l))
  {
    match l
    case DueRead(r, snapshot) => DueReadTallied(s, r, snapshot);
    case Settle(r, outcome) => SettleTallied(s, r, outcome);
    case Removed(r) => RemovedTallied(s, r);
    case PutDone(r) => PutDoneTallied(s, r);
    case RemovedUnseen(r) => RemovedUnseenTallied(s, r);
    case PutUnseen(r) => PutUnseenTallied(s, r);
    case Recounted(r) => RecountedTallied(s, r);
    case Scheduled(r, soonest) => ScheduledTallied(s, r, soonest);
  }

  lemma PageTallied(s: State, l: Label)
    requires Enabled(s, l) && Core(s) && Tallies(s) && !ByDrain(l)
    ensures Tallies(Apply(s, l))
  {
    match l
    case Reload => ReloadTallied(s);
    case Written(c) => WrittenTallied(s, c);
    case Start => CallDrainTallied(s.(started := true));
    case Trigger => CallDrainTallied(s);
    case Fire => CallDrainTallied(s.(timer := None));
    case Tallied(c) => CallDrainTallied(Recount(s.(enqueues := s.enqueues - {c})));
    case _ =>
  }

  lemma TalliesStep(s: State, l: Label)
    requires Enabled(s, l) && Core(s) && Tallies(s)
    ensures Tallies(Apply(s, l))
  {
    if ByDrain(l) {
      DrainTallied(s, l);
    } else {
      PageTallied(s, l);
    }
  }

  // ---------- What is sent is what was captured ----------

  ghost predicate LogIsCaptured(log: seq<Send>, captured: map<ClientId, Item>) {
    forall i | 0 <= i < |log| ::
      log[i].item.clientId in captured && SameCapture(log[i].item, captured[log[i].item.clientId])
  }

  lemma NextItemIsCaptured(s: State, r: nat, rest: seq<Item>)
    requires Keyed(s.store, s.captured) && RestCurrent(s.store, s.now, rest) && LogIsCaptured(s.log, s.captured)
    ensures LogIsCaptured(NextItem(s, r, rest).log, NextItem(s, r, rest).captured)
  {
    NextItemFrame(s, r, rest);
  }

  lemma DueReadIsCaptured(s: State, r: nat, snapshot: seq<Item>)
    requires Core(s) && LogIsCaptured(s.log, s.captured) && CanRead(s, r, snapshot)
    ensures LogIsCaptured(ReadArrived(s, r, snapshot).log, ReadArrived(s, r, snapshot).captured)
  {
    assert RunCurrent(s.store, s.now, s.log, s.runs[r]);
    assert RestCurrent(s.store, s.now, snapshot);
    NextItemIsCaptured(BeginPass(s, s.runs[r].at, snapshot), r, snapshot);
  }

  lemma RemovalKeepsRecord(s: State, r: nat)
    requires AtRemove(s, r)
    ensures RemoveSeen(s, r).captured == s.captured
    ensures RemoveNotSeen(s, r).captured == s.captured && RemoveNotSeen(s, r).log == s.log
  {
    NextItemFrame(RemoveCommitted(s, r), r, s.runs[r].rest);
  }

  lemma PutKeepsRecord(s: State, r: nat)
    requires AtPut(s, r)
    ensures PutSeen(s, r).captured == s.captured
    ensures PutNotSeen(s, r).captured == s.captured && PutNotSeen(s, r).log == s.log
  {
    NextItemFrame(PutCommitted(s, r), r, s.runs[r].rest);
  }

  lemma RemovalIsCaptured(s: State, r: nat)
    requires Core(s) && LogIsCaptured(s.log, s.captured) && AtRemove(s, r)
    ensures LogIsCaptured(RemoveSeen(s, r).log, RemoveSeen(s, r).captured)
    ensures LogIsCaptured(RemoveNotSeen(s, r).log, RemoveNotSeen(s, r).captured)
  {
    RemoveCommittedCore(s, r);
    NextItemIsCaptured(RemoveCommitted(s, r), r, s.runs[r].rest);
    RemovalKeepsRecord(s, r);
  }

  lemma PutIsCaptured(s: State, r: nat)
    requires Core(s) && LogIsCaptured(s.log, s.captured) && AtPut(s, r)
    ensures LogIsCaptured(PutSeen(s, r).log, PutSeen(s, r).captured)
    ensures LogIsCaptured(PutNotSeen(s, r).log, PutNotSeen(s, r).captured)
  {
    PutCommittedCore(s, r);
    NextItemIsCaptured(PutCommitted(s, r), r, s.runs[r].rest);
    PutKeepsRecord(s, r);
  }

  lemma WritesAreCaptured(s: State, l: Label)
    requires Enabled(s, l) && (l.Removed? || l.PutDone? || l.RemovedUnseen? || l.PutUnseen?)
    requires Core(s) && LogIsCaptured(s.log, s.captured)
    ensures LogIsCaptured(Apply(s, l).log, Apply(s, l).captured)
  {
    if l.Removed? || l.RemovedUnseen? {
      RemovalIsCaptured(s, l.run);
    } else {
      PutIsCaptured(s, l.run);
    }
  }

  lemma DrainLogIsCaptured(s: State, l: Label)
    requires Enabled(s, l) && Core(s) && LogIsCaptured(s.log, s.captured) && ByDrain(l)
    ensures LogIsCaptured(Apply(s, l).log, Apply(s, l).captured)
  {
    match l
    case DueRead(r, snapshot) => DueReadIsCaptured(s, r, snapshot);
    case Settle(_, _) =>
    case Recounted(_) => EndOfDrainKeepsRecord(s, l);
    case Scheduled(_, _) => EndOfDrainKeepsRecord(s, l);
    case _ => WritesAreCaptured(s, l);
  }

  lemma LogIsCapturedStep(s: State, l: Label)
    requires Enabled(s, l) && Core(s) && LogIsCaptured(s.log, s.captured)
    ensures LogIsCaptured(Apply(s, l).log, Apply(s, l).captured)
  {
    if ByDrain(l) {
      DrainLogIsCaptured(s, l);
    } else if !l.Capture? && !l.Written? {
      OthersKeepRecord(s, l);
    }
  }

  // ---------- Each pass sends its snapshot ----------

  /** Where the sends of pass `i` end in the log. */
  function PassEnd(passes: seq<Pass>, log: seq<Send>, i: nat): nat
    requires i < |passes|
  {
    if i + 1 < |passes| then passes[i + 1].first else |log|
  }

  /** The sends of pass `i` are the first items of its snapshot, in order. */
  ghost predicate PassFaithful(passes: seq<Pass>, log: seq<Send>, i: nat)
    requires i < |passes|
  {
    var p := passes[i];
    var end := PassEnd(passes, log, i);
    && IsDueSnapshot(p.store, p.at, p.snapshot)
    && p.first <= end <= |log|
    && end - p.first <= |p.snapshot|
    && (forall j | p.first <= j < end :: log[j].item == p.snapshot[j - p.first])
    && (i + 1 < |passes| && !p.cut ==> end - p.first == |p.snapshot|)
  }

  /** `rest` is what the last pass has still to send. */
  ghost predicate PassesFaithful(passes: seq<Pass>, log: seq<Send>, rest: seq<Item>) {
    && (forall i | 0 <= i < |passes| :: PassFaithful(passes, log, i))
    && (passes == [] ==> log == [] && rest == [])
    && (passes != [] ==>
          var last := passes[|passes| - 1];
          && passes[0].first == 0
          && PassFaithful(passes, log, |passes| - 1)
          && (if last.cut then rest == [] else last.snapshot[|log| - last.first..] == rest))
  }

  function Remainder(run: Run): seq<Item> {
    if run.Sending? || run.Removing? || run.Putting? then run.rest else []
  }

  /** What the running drain has still to send. */
  function HeldRest(draining: Option<nat>, runs: map<nat, Run>): seq<Item> {
    if draining.Some? && draining.value in runs then Remainder(runs[draining.value]) else []
  }

  ghost predicate Faithful(s: State) {
    PassesFaithful(s.passes, s.log, HeldRest(s.draining, s.runs))
  }

  lemma NewPassFaithful(passes: seq<Pass>, log: seq<Send>, p: Pass)
    requires PassesFaithful(passes, log, [])
    requires IsDueSnapshot(p.store, p.at, p.snapshot) && p.first == |log| && !p.cut
    ensures PassesFaithful(passes + [p], log, p.snapshot)
  {
    var next := passes + [p];
    forall i | 0 <= i < |next| ensures PassFaithful(next, log, i) {
      if i < |passes| {
        assert PassFaithful(passes, log, i);
        assert PassEnd(next, log, i) == PassEnd(passes, log, i);
      }
    }
  }

  lemma SendFaithful(passes: seq<Pass>, log: seq<Send>, rest: seq<Item>, now: int)
    requires PassesFaithful(passes, log, rest) && rest != []
    ensures PassesFaithful(passes, log + [Send(rest[0], now)], rest[1..])
  {
    var next := log + [Send(rest[0], now)];
    var n := |passes| - 1;
    var last := passes[n];
    assert PassFaithful(passes, log, n);
    assert last.snapshot[|log| - last.first..] == rest;
    assert last.snapshot[|log| - last.first] == rest[0];
    assert last.snapshot[|next| - last.first..] == rest[1..];
    forall i | 0 <= i < |passes| ensures PassFaithful(passes, next, i) {
      assert PassFaithful(passes, log, i);
    }
  }

  lemma NextItemFaithful(s: State, r: nat, rest: seq<Item>)
    requires PassesFaithful(s.passes, s.log, rest)
    requires s.draining == Some(r) && r in s.runs
    ensures Faithful(NextItem(s, r, rest))
  {
    if rest != [] {
      SendFaithful(s.passes, s.log, rest, s.now);
    }
  }

  lemma CutPass(passes: seq<Pass>, log: seq<Send>, i: nat)
    requires i < |passes| && PassFaithful(passes, log, i)
    ensures PassFaithful(CutLast(passes), log, i)
  {
    assert PassEnd(CutLast(passes), log, i) == PassEnd(passes, log, i);
  }

  lemma CutFaithful(passes: seq<Pass>, log: seq<Send>, rest: seq<Item>)
    requires PassesFaithful(passes, log, rest)
    ensures PassesFaithful(CutLast(passes), log, [])
  {
    forall i | 0 <= i < |CutLast(passes)| ensures PassFaithful(CutLast(passes), log, i) {
      CutPass(passes, log, i);
    }
  }

  lemma InFlightIsInFlight(s: State, r: nat)
    requires r in s.runs
    ensures InFlight(s.runs[r]) <= AllInFlight(s)
  {
    forall c | c in InFlight(s.runs[r]) ensures c in AllInFlight(s) {
    }
  }

  lemma NoneInFlight(s: State, r: nat)
    requires r in s.runs && (AllInFlight(s) == {} || s.log == [])
    requires RunCurrent(s.store, s.now, s.log, s.runs[r])
    ensures InFlight(s.runs[r]) == {} && Remainder(s.runs[r]) == []
  {
    InFlightIsInFlight(s, r);
  }

  lemma NewPageFaithful(s: State)
    requires PassesFaithful(s.passes, s.log, [])
    ensures Faithful(NewPage(s))
  {
  }

  lemma ReloadFaithful(s: State)
    requires Core(s) && Faithful(s)
    ensures Faithful(Reloading(s))
  {
    if AllInFlight(s) == {} {
      if s.draining.Some? {
        NoneInFlight(s, s.draining.value);
      }
    } else {
      CutFaithful(s.passes, s.log, HeldRest(s.draining, s.runs));
    }
    NewPageFaithful(s.(cuts := s.cuts + multiset(AllInFlight(s)),
                       passes := if AllInFlight(s) == {} then s.passes else CutLast(s.passes)));
  }

  lemma RecountedFaithful(s: State, r: nat)
    requires Core(s) && Faithful(s) && AtRecount(s, r)
    ensures Faithful(RecountSeen(s, r))
  {
    assert HeldRest(s.draining, s.runs) == [];
  }

  lemma ScheduledFaithful(s: State, r: nat, soonest: int)
    requires Core(s) && Faithful(s) && AtSchedule(s, r)
    ensures Faithful(ScheduleSeen(s, r, soonest))
  {
    assert HeldRest(s.draining, s.runs) == [];
  }

  lemma SettleHolds(s: State, r: nat, outcome: Outcome)
    requires AtSend(s, r) && SingleFlight(s.runs, s.draining, s.nextRun)
    ensures
      var t := SendSettled(s, r, outcome);
      HeldRest(t.draining, t.runs) == HeldRest(s.draining, s.runs)
  {
    assert Remainder(AfterUpload(s.now, s.runs[r], outcome)) == Remainder(s.runs[r]);
  }

  lemma SettleFaithful(s: State, r: nat, outcome: Outcome)
    requires AtSend(s, r) && Core(s) && Faithful(s)
    ensures Faithful(SendSettled(s, r, outcome))
  {
    SettleHolds(s, r, outcome);
  }

  lemma CallDrainFaithful(s: State)
    requires Faithful(s) && SingleFlight(s.runs, s.draining, s.nextRun)
    ensures Faithful(CallDrain(s))
  {
    CallDrainFrame(s);
    CallDrainHolds(s);
  }

  lemma CallDrainHolds(s: State)
    requires SingleFlight(s.runs, s.draining, s.nextRun)
    ensures HeldRest(CallDrain(s).draining, CallDrain(s).runs) == HeldRest(s.draining, s.runs)
  {
    if s.draining.None? {
      assert CallDrain(s).runs[s.nextRun] == ReadingDue(s.now);
    }
  }

  lemma DueReadFaithful(s: State, r: nat, snapshot: seq<Item>)
    requires CanRead(s, r, snapshot) && Core(s) && Faithful(s)
    ensures Faithful(ReadArrived(s, r, snapshot))
  {
    NewPassFaithful(s.passes, s.log, Pass(s.store, s.runs[r].at, snapshot, |s.log|, false));
    NextItemFaithful(BeginPass(s, s.runs[r].at, snapshot), r, snapshot);
  }

  lemma RemovedFaithful(s: State, r: nat)
    requires Core(s) && Faithful(s) && AtRemove(s, r)
    ensures Faithful(RemoveSeen(s, r))
  {
    NextItemFaithful(RemoveCommitted(s, r), r, s.runs[r].rest);
  }

  lemma PutDoneFaithful(s: State, r: nat)
    requires Core(s) && Faithful(s) && AtPut(s, r)
    ensures Faithful(PutSeen(s, r))
  {
    NextItemFaithful(PutCommitted(s, r), r, s.runs[r].rest);
  }

  lemma RemovedUnseenFaithful(s: State, r: nat)
    requires Faithful(s) && AtRemove(s, r)
    ensures Faithful(RemoveNotSeen(s, r))
  {
    CutFaithful(s.passes, s.log, HeldRest(s.draining, s.runs));
    NewPageFaithful(RemoveCommitted(s, r).(passes := CutLast(s.passes)));
  }

  lemma PutUnseenFaithful(s: State, r: nat)
    requires Faithful(s) && AtPut(s, r)
    ensures Faithful(PutNotSeen(s, r))
  {
    CutFaithful(s.passes, s.log, HeldRest(s.draining, s.runs));
    NewPageFaithful(PutCommitted(s, r).(passes := CutLast(s.passes)));
  }

  lemma DrainFaithful(s: State, l: Label)
    requires Enabled(s, l) && Core(s) && Faithful(s) && ByDrain(l)
    ensures Faithful(Apply(s, l))
  {
    match l
    case DueRead(r, snapshot) => DueReadFaithful(s, r, snapshot);
    case Settle(r, outcome) => SettleFaithful(s, r, outcome);
    case Removed(r) => RemovedFaithful(s, r);
    case PutDone(r) => PutDoneFaithful(s, r);
    case RemovedUnseen(r) => RemovedUnseenFaithful(s, r);
    case PutUnseen(r) => PutUnseenFaithful(s, r);
    case Recounted(r) => RecountedFaithful(s, r);
    case Scheduled(r, soonest) => ScheduledFaithful(s, r, soonest);
  }

  lemma PageFaithful(s: State, l: Label)
    requires Enabled(s, l) && Core(s) && Faithful(s) && !ByDrain(l)
    ensures Faithful(Apply(s, l))
  {
    match l
    case Reload => ReloadFaithful(s);
    case Start => CallDrainFaithful(s.(started := true));
    case Trigger => CallDrainFaithful(s);
    case Fire => CallDrainFaithful(s.(timer := None));
    case Tallied(c) => CallDrainFaithful(Recount(s.(enqueues := s.enqueues - {c})));
    case _ =>
  }

  lemma FaithfulStep(s: State, l: Label)
    requires Enabled(s, l) && Core(s) && Faithful(s)
    ensures Faithful(Apply(s, l))
  {
    if ByDrain(l) {
      DrainFaithful(s, l);
    } else {
      PageFaithful(s, l);
    }
  }
}
