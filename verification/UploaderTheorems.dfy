/** The uploader's guarantees over every run from a freshly opened database. */
module UploaderTheorems {
  import opened Octets
  import opened Options
  import opened PhotoQueue
  import opened Backoff
  import opened Uploader
  import opened UploaderInvariants
  import opened UploaderHistory

  // ---------- No wake-up is lost ----------

  /** The retry timer will have fired by the time the item becomes due. */
  predicate WokenBy(timer: Option<Timer>, item: Item) {
    timer.Some? && (timer.value.fireAt <= timer.value.armedAt || timer.value.fireAt <= item.nextAttemptAt)
  }

  ghost predicate Covered(started: bool, draining: Option<nat>, store: Store,
                          enqueues: map<ClientId, EnqueuePhase>, timer: Option<Timer>) {
    started && draining.None? ==>
      forall c | c in store && !store[c].failed ::
        (c in enqueues && enqueues[c].Tallying?) || WokenBy(timer, store[c])
  }

  ghost predicate Awake(s: State) {
    Covered(s.started, s.draining, s.store, s.enqueues, s.timer)
  }

  lemma ScheduledAwake(s: State, r: nat, soonest: int)
    requires CanSchedule(s, r, soonest)
    ensures Awake(ScheduleSeen(s, r, soonest))
  {
    var t := ScheduleSeen(s, r, soonest);
    forall c | c in t.store && !t.store[c].failed ensures WokenBy(t.timer, t.store[c]) {
      assert Waiting(s.store);
    }
  }

  /** While a drain runs the timer is not needed. */
  lemma BusyAwake(s: State)
    requires s.draining.Some?
    ensures Awake(s)
  {
  }

  lemma NextItemAwake(s: State, r: nat, rest: seq<Item>)
    requires s.draining.Some?
    ensures Awake(NextItem(s, r, rest))
  {
    NextItemFrame(s, r, rest);
    BusyAwake(NextItem(s, r, rest));
  }

  lemma NewPageAwake(s: State)
    ensures Awake(NewPage(s))
  {
  }

  lemma RecountedAwake(s: State, r: nat)
    requires AtRecount(s, r) && s.draining.Some?
    ensures Awake(RecountSeen(s, r))
  {
  }

  lemma DrainAwake(s: State, l: Label)
    requires Enabled(s, l) && SingleFlight(s.runs, s.draining, s.nextRun) && Awake(s) && ByDrain(l)
    ensures Awake(Apply(s, l))
  {
    match l
    case DueRead(r, snapshot) => NextItemAwake(BeginPass(s, s.runs[r].at, snapshot), r, snapshot);
    case Settle(r, outcome) => BusyAwake(SendSettled(s, r, outcome));
    case Removed(r) => NextItemAwake(RemoveCommitted(s, r), r, s.runs[r].rest);
    case PutDone(r) => NextItemAwake(PutCommitted(s, r), r, s.runs[r].rest);
    case RemovedUnseen(r) => NewPageAwake(RemoveCommitted(s, r).(passes := CutLast(s.passes)));
    case PutUnseen(r) => NewPageAwake(PutCommitted(s, r).(passes := CutLast(s.passes)));
    case Recounted(r) => RecountedAwake(s, r);
    case Scheduled(r, soonest) => ScheduledAwake(s, r, soonest);
  }

  lemma WrittenAwake(s: State, c: ClientId)
    requires CanWrite(s, c) && Awake(s)
    ensures Awake(CaptureStored(s, c))
  {
  }

  lemma CallDrainAwake(s: State)
    ensures Awake(CallDrain(s))
  {
  }

  lemma PageAwake(s: State, l: Label)
    requires Enabled(s, l) && Enqueuing(s.enqueues, s.captured, s.written) && Awake(s) && !ByDrain(l)
    ensures Awake(Apply(s, l))
  {
    match l
    case Start => CallDrainAwake(s.(started := true));
    case Trigger => CallDrainAwake(s);
    case Fire => CallDrainAwake(s.(timer := None));
    case Tallied(c) => CallDrainAwake(Recount(s.(enqueues := s.enqueues - {c})));
    case Written(c) => WrittenAwake(s, c);
    case _ =>
  }

  lemma AwakeStep(s: State, l: Label)
    requires Enabled(s, l) && Core(s) && Awake(s)
    ensures Awake(Apply(s, l))
  {
    if ByDrain(l) {
      DrainAwake(s, l);
    } else {
      PageAwake(s, l);
    }
  }

  // ---------- Cached counts ----------

  /** No store write of a drain or an enqueue is still to be followed by its recount. */
  ghost predicate Quiet(runs: map<nat, Run>, enqueues: map<ClientId, EnqueuePhase>) {
    && (forall r | r in runs :: runs[r].Scheduling?)
    && (forall c | c in enqueues :: enqueues[c].Writing?)
  }

  ghost predicate CountsAgree(store: Store, status: Status) {
    status.pending == PendingCount(store) && status.failed == FailedCount(store)
  }

  ghost predicate Honest(s: State) {
    s.counted && Quiet(s.runs, s.enqueues) ==> CountsAgree(s.store, s.status)
  }

  lemma RecountHonest(s: State)
    ensures Honest(CallDrain(Recount(s)))
  {
    var t := CallDrain(Recount(s));
    if s.draining.None? {
      assert s.nextRun in t.runs && !t.runs[s.nextRun].Scheduling?;
    }
  }

  lemma BusyHonest(s: State, r: nat)
    requires r in s.runs && !s.runs[r].Scheduling?
    ensures Honest(s)
  {
  }

  lemma NextItemHonest(s: State, r: nat, rest: seq<Item>)
    ensures Honest(NextItem(s, r, rest))
  {
    NextItemFrame(s, r, rest);
    BusyHonest(NextItem(s, r, rest), r);
  }

  lemma SettleHonest(s: State, r: nat, outcome: Outcome)
    requires AtSend(s, r)
    ensures Honest(SendSettled(s, r, outcome))
  {
    BusyHonest(SendSettled(s, r, outcome), r);
  }

  lemma WrittenHonest(s: State, c: ClientId)
    requires CanWrite(s, c)
    ensures Honest(CaptureStored(s, c))
  {
    var t := CaptureStored(s, c);
    assert c in t.enqueues && t.enqueues[c].Tallying?;
  }

  lemma CallDrainHonest(s: State)
    requires Honest(s) && SingleFlight(s.runs, s.draining, s.nextRun)
    ensures Honest(CallDrain(s))
  {
    if s.draining.None? {
      BusyHonest(CallDrain(s), s.nextRun);
    }
  }

  lemma RecountedHonest(s: State, r: nat)
    requires AtRecount(s, r)
    ensures Honest(RecountSeen(s, r))
  {
  }

  lemma ScheduledHonest(s: State, r: nat, soonest: int)
    requires AtSchedule(s, r) && Honest(s) && SingleFlight(s.runs, s.draining, s.nextRun)
    ensures Honest(ScheduleSeen(s, r, soonest))
  {
    assert forall q | q in s.runs :: q == r;
  }

  lemma NewPageHonest(s: State)
    ensures Honest(NewPage(s))
  {
  }

  lemma CaptureHonest(s: State, c: ClientId, bytes: Bytes, blobType: string, takenAt: string)
    requires c !in s.captured && Honest(s) && Enqueuing(s.enqueues, s.captured, s.written)
    ensures Honest(Capturing(s, c, bytes, blobType, takenAt))
  {
    var t := Capturing(s, c, bytes, blobType, takenAt);
    if Quiet(t.runs, t.enqueues) {
      forall d | d in s.enqueues ensures s.enqueues[d].Writing? {
        assert d in t.enqueues;
      }
    }
  }

  lemma DrainHonest(s: State, l: Label)
    requires Enabled(s, l) && SingleFlight(s.runs, s.draining, s.nextRun) && Honest(s) && ByDrain(l)
    ensures Honest(Apply(s, l))
  {
    match l
    case DueRead(r, snapshot) => NextItemHonest(BeginPass(s, s.runs[r].at, snapshot), r, snapshot);
    case Settle(r, outcome) => SettleHonest(s, r, outcome);
    case Removed(r) => NextItemHonest(RemoveCommitted(s, r), r, s.runs[r].rest);
    case PutDone(r) => NextItemHonest(PutCommitted(s, r), r, s.runs[r].rest);
    case RemovedUnseen(r) => NewPageHonest(RemoveCommitted(s, r).(passes := CutLast(s.passes)));
    case PutUnseen(r) => NewPageHonest(PutCommitted(s, r).(passes := CutLast(s.passes)));
    case Recounted(r) => RecountedHonest(s, r);
    case Scheduled(r, soonest) => ScheduledHonest(s, r, soonest);
  }

  lemma PageHonest(s: State, l: Label)
    requires Enabled(s, l) && Core(s) && Honest(s) && !ByDrain(l)
    ensures Honest(Apply(s, l))
  {
    match l
    case Written(c) => WrittenHonest(s, c);
    case Tallied(c) => RecountHonest(s.(enqueues := s.enqueues - {c}));
    case Start => if !s.started { CallDrainHonest(s.(started := true)); }
    case Trigger => CallDrainHonest(s);
    case Fire => CallDrainHonest(s.(timer := None));
    case Capture(c, bytes, blobType, takenAt) => CaptureHonest(s, c, bytes, blobType, takenAt);
    case Reload =>
      NewPageHonest(s.(cuts := s.cuts + multiset(AllInFlight(s)),
                       passes := if AllInFlight(s) == {} then s.passes else CutLast(s.passes)));
    case Tick(_) =>
    case Stop =>
    case Dismiss =>
  }

  lemma HonestStep(s: State, l: Label)
    requires Enabled(s, l) && Core(s) && Honest(s)
    ensures Honest(Apply(s, l))
  {
    if ByDrain(l) {
      DrainHonest(s, l);
    } else {
      PageHonest(s, l);
    }
  }

  // ---------- Timers stay within setTimeout's reach ----------

  ghost predicate Near(now: int, item: Item) {
    item.nextAttemptAt <= now + MAX_BACKOFF_MS
  }

  ghost predicate StoreNear(now: int, store: Store) {
    forall c | c in store :: Near(now, store[c])
  }

  ghost predicate RunsNear(now: int, runs: map<nat, Run>) {
    forall r | r in runs && runs[r].Putting? :: Near(now, runs[r].item)
  }

  predicate TimerNear(timer: Option<Timer>) {
    timer.Some? ==> timer.value.armedAt <= timer.value.fireAt <= timer.value.armedAt + MAX_BACKOFF_MS
  }

  ghost predicate Bounded(s: State) {
    0 <= s.now && StoreNear(s.now, s.store) && RunsNear(s.now, s.runs) && TimerNear(s.timer)
  }

  lemma NextItemBounded(s: State, r: nat, rest: seq<Item>)
    requires 0 <= s.now && StoreNear(s.now, s.store) && TimerNear(s.timer)
    requires s.draining == Some(r) && SingleFlight(s.runs, s.draining, s.nextRun)
    ensures Bounded(NextItem(s, r, rest))
  {
    NextItemFrame(s, r, rest);
  }

  lemma NewPageBounded(s: State)
    requires 0 <= s.now && StoreNear(s.now, s.store)
    ensures Bounded(NewPage(s))
  {
  }

  lemma PutCommittedBounded(s: State, r: nat)
    requires Bounded(s) && AtPut(s, r)
    ensures StoreNear(s.now, PutCommitted(s, r).store)
  {
    assert Near(s.now, s.runs[r].item);
  }

  lemma SettleBounded(s: State, r: nat, outcome: Outcome)
    requires Core(s) && Bounded(s) && AtSend(s, r)
    ensures Bounded(SendSettled(s, r, outcome))
  {
    var item := s.runs[r].item;
    assert RunCurrent(s.store, s.now, s.log, s.runs[r]);
    assert Near(s.now, s.store[item.clientId]);
    BackoffIsMonotoneAndCapped(item.attempts + 1, item.attempts + 1);
  }

  lemma FinishBounded(s: State, r: nat)
    requires Bounded(s)
    ensures Bounded(Finish(s, r))
  {
  }

  lemma RecountedBounded(s: State, r: nat)
    requires AtRecount(s, r) && Bounded(s)
    ensures Bounded(RecountSeen(s, r))
  {
  }

  lemma ScheduledBounded(s: State, r: nat, soonest: int)
    requires CanSchedule(s, r, soonest) && Bounded(s)
    ensures Bounded(ScheduleSeen(s, r, soonest))
  {
    if Waiting(s.store) {
      assert IsSoonest(s.store, soonest);
      FinishBounded(s.(timer := Some(Timer(s.now, if soonest > s.now then soonest else s.now))), r);
    } else {
      FinishBounded(s, r);
    }
  }

  lemma DueReadBounded(s: State, r: nat, snapshot: seq<Item>)
    requires SingleFlight(s.runs, s.draining, s.nextRun) && Bounded(s) && AtRead(s, r)
    ensures Bounded(ReadArrived(s, r, snapshot))
  {
    NextItemBounded(BeginPass(s, s.runs[r].at, snapshot), r, snapshot);
  }

  lemma RemoveCommittedBounded(s: State, r: nat)
    requires StoreNear(s.now, s.store) && AtRemove(s, r)
    ensures StoreNear(s.now, RemoveCommitted(s, r).store)
  {
    var left := s.store - {s.runs[r].item.clientId};
    assert forall c | c in left :: left[c] == s.store[c];
  }

  lemma RemovedBounded(s: State, r: nat)
    requires SingleFlight(s.runs, s.draining, s.nextRun) && Bounded(s) && AtRemove(s, r)
    ensures Bounded(RemoveSeen(s, r))
  {
    RemoveCommittedBounded(s, r);
    NextItemBounded(RemoveCommitted(s, r), r, s.runs[r].rest);
  }

  lemma RemovedUnseenBounded(s: State, r: nat)
    requires Bounded(s) && AtRemove(s, r)
    ensures Bounded(RemoveNotSeen(s, r))
  {
    RemoveCommittedBounded(s, r);
    NewPageBounded(RemoveCommitted(s, r).(passes := CutLast(s.passes)));
  }

  lemma PutDoneBounded(s: State, r: nat)
    requires SingleFlight(s.runs, s.draining, s.nextRun) && Bounded(s) && AtPut(s, r)
    ensures Bounded(PutSeen(s, r))
  {
    PutCommittedBounded(s, r);
    NextItemBounded(PutCommitted(s, r), r, s.runs[r].rest);
  }

  lemma PutUnseenBounded(s: State, r: nat)
    requires Bounded(s) && AtPut(s, r)
    ensures Bounded(PutNotSeen(s, r))
  {
    PutCommittedBounded(s, r);
    NewPageBounded(PutCommitted(s, r).(passes := CutLast(s.passes)));
  }

  lemma DrainBounded(s: State, l: Label)
    requires Enabled(s, l) && Core(s) && Bounded(s) && ByDrain(l)
    ensures Bounded(Apply(s, l))
  {
    match l
    case DueRead(r, snapshot) => DueReadBounded(s, r, snapshot);
    case Settle(r, outcome) => SettleBounded(s, r, outcome);
    case Removed(r) => RemovedBounded(s, r);
    case PutDone(r) => PutDoneBounded(s, r);
    case RemovedUnseen(r) => RemovedUnseenBounded(s, r);
    case PutUnseen(r) => PutUnseenBounded(s, r);
    case Recounted(r) => RecountedBounded(s, r);
    case Scheduled(r, soonest) => ScheduledBounded(s, r, soonest);
  }

  lemma CallDrainBounded(s: State)
    requires Bounded(s)
    ensures Bounded(CallDrain(s))
  {
    CallDrainFrame(s);
  }

  lemma WrittenBounded(s: State, c: ClientId)
    requires Core(s) && Bounded(s) && CanWrite(s, c)
    ensures Bounded(CaptureStored(s, c))
  {
    assert Near(s.now, s.captured[c]);
  }

  lemma PageBounded(s: State, l: Label)
    requires Enabled(s, l) && Core(s) && Bounded(s) && !ByDrain(l)
    ensures Bounded(Apply(s, l))
  {
    match l
    case Written(c) => WrittenBounded(s, c);
    case Start => CallDrainBounded(s.(started := true));
    case Trigger => CallDrainBounded(s);
    case Fire => CallDrainBounded(s.(timer := None));
    case Tallied(c) => CallDrainBounded(Recount(s.(enqueues := s.enqueues - {c})));
    case Reload =>
      NewPageBounded(s.(cuts := s.cuts + multiset(AllInFlight(s)),
                        passes := if AllInFlight(s) == {} then s.passes else CutLast(s.passes)));
    case Tick(_) =>
    case Stop =>
    case Dismiss =>
    case Capture(_, _, _, _) =>
  }

  lemma BoundedStep(s: State, l: Label)
    requires Enabled(s, l) && Core(s) && Bounded(s)
    ensures Bounded(Apply(s, l))
  {
    if ByDrain(l) {
      DrainBounded(s, l);
    } else {
      PageBounded(s, l);
    }
  }

  // ---------- Every run ----------

  ghost predicate Inv(s: State) {
    && Core(s) && Spaced(s) && Tallies(s) && Faithful(s) && LogIsCaptured(s.log, s.captured)
    && Awake(s) && Honest(s) && Bounded(s)
  }

  lemma InitInv(now: nat)
    ensures Inv(Init(now))
  {
    var s := Init(now);
    assert FlightSet(s.runs) == iset{};
  }

  lemma InvStep(s: State, l: Label)
    requires Enabled(s, l) && Inv(s)
    ensures Inv(Apply(s, l))
  {
    CoreStep(s, l);
    SpacedStep(s, l);
    TalliesStep(s, l);
    FaithfulStep(s, l);
    LogIsCapturedStep(s, l);
    AwakeStep(s, l);
    HonestStep(s, l);
    BoundedStep(s, l);
  }

  lemma {:induction false} InvAfter(s: State, ls: seq<Label>)
    requires Inv(s) && Valid(s, ls)
    ensures Inv(After(s, ls))
    decreases |ls|
  {
    if ls != [] {
      InvStep(s, ls[0]);
      InvAfter(Apply(s, ls[0]), ls[1..]);
    }
  }

  ghost predicate NoReload(ls: seq<Label>) {
    forall i | 0 <= i < |ls| :: !Reloads(ls[i])
  }

  /** The state after any run of a fresh page on an empty database. */
  ghost predicate Reached(now: nat, ls: seq<Label>, t: State) {
    Valid(Init(now), ls) && t == After(Init(now), ls)
  }

  lemma ReachedInv(now: nat, ls: seq<Label>, t: State)
    requires Reached(now, ls, t)
    ensures Inv(t)
  {
    InitInv(now);
    InvAfter(Init(now), ls);
  }

  lemma {:induction false} RunSnoc(s: State, ls: seq<Label>, l: Label)
    requires Valid(s, ls) && Enabled(After(s, ls), l)
    ensures Valid(s, ls + [l]) && After(s, ls + [l]) == Apply(After(s, ls), l)
    decreases |ls|
  {
    if ls == [] {
      assert [l][1..] == [];
    } else {
      RunSnoc(Apply(s, ls[0]), ls[1..], l);
      assert (ls + [l])[1..] == ls[1..] + [l];
    }
  }

  ghost predicate Reachable(s: State) {
    exists now: nat, ls :: Reached(now, ls, s)
  }

  lemma ReachableInv(s: State)
    requires Reachable(s)
    ensures Inv(s)
  {
    var now: nat, ls :| Reached(now, ls, s);
    ReachedInv(now, ls, s);
  }

  lemma ReachableStep(s: State, l: Label)
    requires Reachable(s) && Enabled(s, l)
    ensures Reachable(Apply(s, l))
  {
    var now: nat, ls :| Reached(now, ls, s);
    RunSnoc(Init(now), ls, l);
    assert Reached(now, ls + [l], Apply(s, l));
  }

  lemma ReachableInit(now: nat)
    ensures Reachable(Init(now))
  {
    assert Reached(now, [], Init(now));
  }

  /**
   * No wake-up is lost: while the uploader is started and idle, each item still to be tried
   * is held by an `enqueue` that has yet to call `drain`, or the retry timer fires no later
   * than the later of its arming and the item's due time. This covers a `drain` call folded
   * after the running drain's last look at `again`.
   */
  lemma NoWakeUpIsLost(now: nat, ls: seq<Label>, t: State, c: ClientId)
    requires Reached(now, ls, t)
    requires t.started && t.draining.None? && c in t.store && !t.store[c].failed
    ensures (c in t.enqueues && t.enqueues[c].Tallying?) ||
            (t.timer.Some? && (t.timer.value.fireAt <= t.timer.value.armedAt
                               || t.timer.value.fireAt <= t.store[c].nextAttemptAt))
  {
    ReachedInv(now, ls, t);
  }

  /** The delay handed to `setTimeout` is never negative and never over the backoff cap. */
  lemma TimerDelayIsBounded(now: nat, ls: seq<Label>, t: State)
    requires Reached(now, ls, t) && t.timer.Some?
    ensures 0 <= t.timer.value.fireAt - t.timer.value.armedAt <= MAX_BACKOFF_MS
  {
    ReachedInv(now, ls, t);
  }

  /**
   * Nothing vanishes: a capture whose durable write finished is in exactly one of three
   * places, and while it is stored its bytes and its capture time are as captured.
   */
  lemma NothingVanishes(now: nat, ls: seq<Label>, t: State)
    requires Reached(now, ls, t)
    ensures t.written == t.store.Keys + t.acked + t.dropped
    ensures t.store.Keys !! t.acked && t.store.Keys !! t.dropped && t.acked !! t.dropped
    ensures forall c | c in t.store :: c in t.captured && SameCapture(t.store[c], t.captured[c])
  {
    ReachedInv(now, ls, t);
    assert Conserved(t.written, t.store, t.acked, t.dropped);
  }

  /** Uploads never overlap: at most one drain runs, so at most one request waits for its answer. */
  lemma OneUploadAtATime(now: nat, ls: seq<Label>, t: State, r: nat, q: nat)
    requires Reached(now, ls, t) && r in t.runs && q in t.runs
    ensures r == q && t.draining == Some(r)
  {
    ReachedInv(now, ls, t);
  }

  /**
   * Each pass of the loop sends exactly the due items of the store it read, once each and
   * oldest first: its slice of the log is a prefix of that snapshot, and all of it once the
   * next pass has begun, unless a page reload cut it short.
   */
  lemma PassesSendTheirSnapshot(now: nat, ls: seq<Label>, t: State, i: nat)
    requires Reached(now, ls, t) && i < |t.passes|
    ensures
      var p := t.passes[i];
      var end := PassEnd(t.passes, t.log, i);
      && IsDueSnapshot(p.store, p.at, p.snapshot)
      && (forall c | c in p.store ::
            p.store[c] in p.snapshot <==> !p.store[c].failed && p.store[c].nextAttemptAt <= p.at)
      && p.first <= end <= |t.log| && end - p.first <= |p.snapshot|
      && (forall j | p.first <= j < end :: t.log[j].item == p.snapshot[j - p.first])
      && ((i + 1 < |t.passes| || t.runs == map[]) && !p.cut ==> end - p.first == |p.snapshot|)
  {
    ReachedFaithful(now, ls, t);
    PassSendsItsSnapshot(t.passes, t.log, HeldRest(t.draining, t.runs), i);
    if t.runs == map[] {
      assert HeldRest(t.draining, t.runs) == [];
    }
  }

  lemma ReachedFaithful(now: nat, ls: seq<Label>, t: State)
    requires Reached(now, ls, t)
    ensures Faithful(t)
  {
    ReachedInv(now, ls, t);
  }

  lemma PassSendsItsSnapshot(passes: seq<Pass>, log: seq<Send>, rest: seq<Item>, i: nat)
    requires PassesFaithful(passes, log, rest) && i < |passes|
    ensures PassFaithful(passes, log, i)
    ensures (i + 1 < |passes| || rest == []) && !passes[i].cut ==>
              PassEnd(passes, log, i) - passes[i].first == |passes[i].snapshot|
  {
    assert PassFaithful(passes, log, i);
    if i + 1 == |passes| && rest == [] && !passes[i].cut {
      assert passes[i].snapshot[|log| - passes[i].first..] == [];
    }
  }

  /** The send is the k-th of its capture that counts, and comes at least the sum of k - 1 delays after the first. */
  ghost predicate Spread(log: seq<Send>, j: nat, k: int)
    requires j < |log|
  {
    var first := FirstAt(log, log[j].item.clientId);
    && first.Some? && log[j].at >= first.value
    && (1 <= k <= 9 ==> log[j].at - first.value >= 2_000 * (Pow2(k - 1) - 1))
    && (k > 9 ==> log[j].at - first.value >= 510_000 + 300_000 * (k - 9))
  }

  /**
   * Attempts are spaced by the sum of their delays, where an attempt that a page reload
   * interrupted does not count.
   */
  lemma AttemptsAreSpaced(now: nat, ls: seq<Label>, t: State, j: nat)
    requires Reached(now, ls, t) && j < |t.log|
    ensures Spread(t.log, j, CountSends(t.log[..j + 1], t.log[j].item.clientId) - t.cuts[t.log[j].item.clientId])
  {
    ReachedLog(now, ls, t);
    SendIsSpaced(t.log, t.cuts, t.written, t.now, j);
  }

  /** Without a reload every attempt counts. */
  lemma UninterruptedAttemptsAreSpaced(now: nat, ls: seq<Label>, t: State, j: nat)
    requires Reached(now, ls, t) && NoReload(ls) && j < |t.log|
    ensures Spread(t.log, j, CountSends(t.log[..j + 1], t.log[j].item.clientId))
  {
    AttemptsAreSpaced(now, ls, t, j);
    NothingIsCut(Init(now), ls);
  }

  lemma CutsStep(s: State, l: Label)
    requires Enabled(s, l) && !Reloads(l)
    ensures Apply(s, l).cuts == s.cuts
  {
    if ByDrain(l) {
      DrainCuts(s, l);
    } else {
      PageCuts(s, l);
    }
  }

  lemma DrainCuts(s: State, l: Label)
    requires Enabled(s, l) && ByDrain(l) && !Reloads(l)
    ensures Apply(s, l).cuts == s.cuts
  {
    match l
    case DueRead(r, snapshot) => NextItemFrame(BeginPass(s, s.runs[r].at, snapshot), r, snapshot);
    case Removed(r) => NextItemFrame(RemoveCommitted(s, r), r, s.runs[r].rest);
    case PutDone(r) => NextItemFrame(PutCommitted(s, r), r, s.runs[r].rest);
    case Settle(_, _) =>
    case Recounted(_) =>
    case Scheduled(_, _) =>
  }

  lemma PageCuts(s: State, l: Label)
    requires Enabled(s, l) && !ByDrain(l) && !Reloads(l)
    ensures Apply(s, l).cuts == s.cuts
  {
    match l
    case Capture(_, _, _, _) =>
    case Written(_) =>
    case Tallied(_) =>
    case Start =>
    case Fire =>
    case _ =>
  }

  lemma {:induction false} NothingIsCut(s: State, ls: seq<Label>)
    requires Valid(s, ls) && NoReload(ls)
    ensures After(s, ls).cuts == s.cuts
    decreases |ls|
  {
    if ls != [] {
      CutsStep(s, ls[0]);
      NothingIsCut(Apply(s, ls[0]), ls[1..]);
    }
  }

  lemma ReachedLog(now: nat, ls: seq<Label>, t: State)
    requires Reached(now, ls, t)
    ensures LogSpaced(t.log, t.now) && LogTallied(t.log, t.cuts, t.written)
  {
    ReachedInv(now, ls, t);
  }

  lemma SendIsSpaced(log: seq<Send>, cuts: multiset<ClientId>, written: set<ClientId>, now: int, j: nat)
    requires LogSpaced(log, now) && LogTallied(log, cuts, written) && j < |log|
    ensures Spread(log, j, CountSends(log[..j + 1], log[j].item.clientId) - cuts[log[j].item.clientId])
  {
    AttemptNumber(log, cuts, written, j);
    var attempt := log[j].item.attempts + 1;
    var k := CountSends(log[..j + 1], log[j].item.clientId) - cuts[log[j].item.clientId];
    WaitGrows(1, attempt);
    if k >= 1 {
      WaitGrows(k, attempt);
      WaitClosedForm(k);
    }
  }

  lemma AttemptNumber(log: seq<Send>, cuts: multiset<ClientId>, written: set<ClientId>, j: nat)
    requires LogTallied(log, cuts, written) && j < |log|
    ensures
      var c, attempt := log[j].item.clientId, log[j].item.attempts + 1;
      attempt <= CountSends(log[..j + 1], c) <= attempt + cuts[c]
  {
    assert log[..j + 1] == log[..j] + [log[j]];
    LogAppend(log[..j], log[j], log[j].item.clientId);
  }

  /** The cached counts are right whenever no enqueue and no drain has a write left to recount. */
  lemma StatusCountsAreRight(now: nat, ls: seq<Label>, t: State)
    requires Reached(now, ls, t) && t.counted
    requires t.draining.None? && forall c | c in t.enqueues :: t.enqueues[c].Writing?
    ensures t.status.pending == |set c | c in t.store && !t.store[c].failed|
    ensures t.status.failed == |set c | c in t.store && t.store[c].failed|
  {
    ReachedInv(now, ls, t);
  }

  // ---------- What an answer means for a capture ----------

  /** Until the drain goes on, nobody touches what it has in its hands. */
  lemma PageKeepsHands(s: State, l: Label, r: nat, c: ClientId)
    requires Core(s) && Enabled(s, l) && !ByDrain(l) && !l.Reload? && r in s.runs && c in s.store
    ensures
      var t := Apply(s, l);
      r in t.runs && t.runs[r] == s.runs[r] && c in t.store && t.store[c] == s.store[c]
  {
    match l
    case Start =>
    case Trigger =>
    case Fire =>
    case Tallied(_) =>
    case Written(_) =>
    case _ =>
  }

  ghost predicate ByPage(ls: seq<Label>) {
    forall i | 0 <= i < |ls| :: !ByDrain(ls[i]) && !ls[i].Reload?
  }

  lemma {:induction false} HandsAreKept(s: State, ls: seq<Label>, r: nat, c: ClientId)
    requires Inv(s) && Valid(s, ls) && ByPage(ls) && r in s.runs && c in s.store
    ensures
      var t := After(s, ls);
      Inv(t) && r in t.runs && t.runs[r] == s.runs[r] && c in t.store && t.store[c] == s.store[c]
    decreases |ls|
  {
    if ls != [] {
      PageKeepsHands(s, ls[0], r, c);
      InvStep(s, ls[0]);
      HandsAreKept(Apply(s, ls[0]), ls[1..], r, c);
    }
  }

  /** The time of the next attempt after a failure that is worth one. */
  function NextTry(now: int, failures: nat): int {
    now + if 2_000 * Pow2(failures) <= 300_000 then 2_000 * Pow2(failures) else 300_000
  }

  lemma SentItem(s: State, r: nat)
    requires Inv(s) && AtSend(s, r)
    ensures
      var item := s.runs[r].item;
      item.clientId in s.store && s.store[item.clientId] == item && !item.failed
  {
    assert RunCurrent(s.store, s.now, s.log, s.runs[r]);
  }

  /** The drain's write, and nothing else of the store. */
  ghost predicate Writes(t: State, r: nat, c: ClientId) {
    && (AtRemove(t, r) ==>
          && RemoveSeen(t, r).store == t.store - {c} && c in t.store
          && (c in RemoveSeen(t, r).acked <==> !t.runs[r].tripOver)
          && (c in RemoveSeen(t, r).dropped <==> t.runs[r].tripOver))
    && (AtPut(t, r) ==> c in t.store && PutSeen(t, r).store == t.store[c := t.runs[r].item])
  }

  lemma HandsAreStored(t: State, r: nat)
    requires Inv(t) && (AtRemove(t, r) || AtPut(t, r))
    ensures t.runs[r].item.clientId in t.store
    ensures t.runs[r].item.clientId !in t.acked && t.runs[r].item.clientId !in t.dropped
  {
    assert RunCurrent(t.store, t.now, t.log, t.runs[r]);
    assert Conserved(t.written, t.store, t.acked, t.dropped);
  }

  lemma RemovalWrites(t: State, r: nat)
    requires AtRemove(t, r)
    ensures RemoveSeen(t, r).store == t.store - {t.runs[r].item.clientId}
    ensures
      if t.runs[r].tripOver then RemoveSeen(t, r).dropped == t.dropped + {t.runs[r].item.clientId}
                                 && RemoveSeen(t, r).acked == t.acked
      else RemoveSeen(t, r).acked == t.acked + {t.runs[r].item.clientId} && RemoveSeen(t, r).dropped == t.dropped
  {
    NextItemFrame(RemoveCommitted(t, r), r, t.runs[r].rest);
  }

  lemma PutWrites(t: State, r: nat)
    requires AtPut(t, r)
    ensures PutSeen(t, r).store == t.store[t.runs[r].item.clientId := t.runs[r].item]
  {
    NextItemFrame(PutCommitted(t, r), r, t.runs[r].rest);
  }

  lemma DrainWrites(t: State, r: nat)
    requires Inv(t) && (AtRemove(t, r) || AtPut(t, r))
    ensures Writes(t, r, t.runs[r].item.clientId)
  {
    HandsAreStored(t, r);
    if AtRemove(t, r) {
      RemovalWrites(t, r);
    } else {
      PutWrites(t, r);
    }
  }

  /** What an answer that came at `now` makes of the item: nothing is left of it, or this. */
  predicate IsFate(run: Run, item: Item, now: int, outcome: Outcome) {
    && (run.Removing? || run.Putting?)
    && (run.Removing? <==> outcome.Accepted? || (outcome.Refused? && outcome.status == 423))
    && (run.Removing? ==> run.item == item && (run.tripOver <==> !outcome.Accepted?))
    && (run.Putting? ==>
          && SameCapture(run.item, item) && run.item.attempts == item.attempts + 1
          && !outcome.Accepted? && run.item.lastError == outcome.message
          && (run.item.failed <==> outcome.Refused? && 400 <= outcome.status <= 499)
          && (!run.item.failed ==> run.item.nextAttemptAt == NextTry(now, item.attempts)))
  }

  lemma AnswerDecidesFate(item: Item, rest: seq<Item>, request: nat, now: int, outcome: Outcome)
    requires !item.failed
    ensures IsFate(AfterUpload(now, Sending(item, rest, request), outcome), item, now, outcome)
  {
  }

  lemma SettledFate(s: State, r: nat, outcome: Outcome)
    requires Inv(s) && CanSettle(s, r, outcome)
    ensures
      var m := SendSettled(s, r, outcome);
      && Inv(m) && m.store == s.store && r in m.runs && IsFate(m.runs[r], s.runs[r].item, s.now, outcome)
      && s.runs[r].item.clientId in s.store && s.store[s.runs[r].item.clientId] == s.runs[r].item
  {
    SentItem(s, r);
    InvStep(s, Settle(r, outcome));
    AnswerDecidesFate(s.runs[r].item, s.runs[r].rest, s.runs[r].request, s.now, outcome);
  }

  /**
   * An answer decides its capture's fate, whatever the page does before the drain's write: the
   * capture is removed exactly after a 2xx or a 423; otherwise it is written back with one attempt
   * more, given up exactly on another 4xx, and else with its next attempt 2000 ms after the answer,
   * doubled once for each earlier failure, but never more than five minutes.
   */
  lemma FateIsCarriedOut(s: State, r: nat, outcome: Outcome, ls: seq<Label>)
    requires Inv(s) && CanSettle(s, r, outcome) && Valid(SendSettled(s, r, outcome), ls) && ByPage(ls)
    ensures
      var t, item := After(SendSettled(s, r, outcome), ls), s.runs[r].item;
      && r in t.runs && IsFate(t.runs[r], item, s.now, outcome)
      && Writes(t, r, item.clientId) && item.clientId in t.store && t.store[item.clientId] == item
  {
    var m, item := SendSettled(s, r, outcome), s.runs[r].item;
    SettledFate(s, r, outcome);
    HandsAreKept(m, ls, r, item.clientId);
    DrainWrites(After(m, ls), r);
  }

  // ---------- The user is told ----------

  ghost predicate Told(dropped: set<ClientId>, status: Status) {
    dropped != {} ==> status.notice
  }

  lemma ToldStep(s: State, l: Label)
    requires Enabled(s, l) && !l.Dismiss? && !Reloads(l) && Told(s.dropped, s.status)
    ensures Told(Apply(s, l).dropped, Apply(s, l).status)
  {
    if ByDrain(l) {
      DrainTold(s, l);
    } else {
      PageTold(s, l);
    }
  }

  lemma DrainTold(s: State, l: Label)
    requires Enabled(s, l) && ByDrain(l) && !Reloads(l) && Told(s.dropped, s.status)
    ensures Told(Apply(s, l).dropped, Apply(s, l).status)
  {
    match l
    case DueRead(r, snapshot) => NextItemFrame(BeginPass(s, s.runs[r].at, snapshot), r, snapshot);
    case Settle(_, _) =>
    case Removed(r) => NextItemFrame(RemoveCommitted(s, r), r, s.runs[r].rest);
    case PutDone(r) => NextItemFrame(PutCommitted(s, r), r, s.runs[r].rest);
    case Recounted(_) =>
    case Scheduled(_, _) =>
  }

  lemma PageTold(s: State, l: Label)
    requires Enabled(s, l) && !ByDrain(l) && !l.Dismiss? && !l.Reload? && Told(s.dropped, s.status)
    ensures Told(Apply(s, l).dropped, Apply(s, l).status)
  {
    match l
    case Start => CallDrainFrame(s.(started := true));
    case Trigger => CallDrainFrame(s);
    case Fire => CallDrainFrame(s.(timer := None));
    case Tallied(c) => CallDrainFrame(Recount(s.(enqueues := s.enqueues - {c})));
    case Tick(_) =>
    case Stop =>
    case Capture(_, _, _, _) =>
    case Written(_) =>
  }

  /** A capture is dropped only with the notice up, and the notice stays until it is dismissed or the page reloads. */
  lemma {:induction false} DropsAreAnnounced(s: State, ls: seq<Label>)
    requires Told(s.dropped, s.status) && Valid(s, ls)
    requires forall i | 0 <= i < |ls| :: !ls[i].Dismiss? && !Reloads(ls[i])
    ensures After(s, ls).dropped != {} ==> After(s, ls).status.notice
    decreases |ls|
  {
    if ls != [] {
      ToldStep(s, ls[0]);
      DropsAreAnnounced(Apply(s, ls[0]), ls[1..]);
    }
  }

  /** Since the notice was last seen down, it goes up only for a capture that has been dropped since. */
  ghost predicate Earned(before: set<ClientId>, dropped: set<ClientId>, status: Status) {
    before <= dropped && (status.notice ==> before != dropped)
  }

  lemma RemovedEarned(s: State, r: nat, before: set<ClientId>)
    requires AtRemove(s, r) && Core(s) && Earned(before, s.dropped, s.status)
    ensures Earned(before, RemoveCommitted(s, r).dropped, RemoveCommitted(s, r).status)
  {
    assert RunCurrent(s.store, s.now, s.log, s.runs[r]);
    assert s.runs[r].item.clientId !in s.dropped;
  }

  lemma WriteEarned(s: State, l: Label, before: set<ClientId>)
    requires Enabled(s, l) && (l.Removed? || l.PutDone? || l.RemovedUnseen? || l.PutUnseen?)
    requires Core(s) && Earned(before, s.dropped, s.status)
    ensures Earned(before, Apply(s, l).dropped, Apply(s, l).status)
  {
    match l
    case Removed(r) =>
      RemovedEarned(s, r, before);
      NextItemFrame(RemoveCommitted(s, r), r, s.runs[r].rest);
    case PutDone(r) => NextItemFrame(PutCommitted(s, r), r, s.runs[r].rest);
    case RemovedUnseen(r) => RemovedEarned(s, r, before);
    case PutUnseen(_) =>
  }

  lemma DrainEarned(s: State, l: Label, before: set<ClientId>)
    requires Enabled(s, l) && ByDrain(l) && Core(s) && Earned(before, s.dropped, s.status)
    ensures Earned(before, Apply(s, l).dropped, Apply(s, l).status)
  {
    match l
    case DueRead(r, snapshot) => NextItemFrame(BeginPass(s, s.runs[r].at, snapshot), r, snapshot);
    case Settle(_, _) =>
    case Recounted(_) =>
    case Scheduled(_, _) =>
    case _ => WriteEarned(s, l, before);
  }

  lemma PageEarned(s: State, l: Label, before: set<ClientId>)
    requires Enabled(s, l) && !ByDrain(l) && Earned(before, s.dropped, s.status)
    ensures Earned(before, Apply(s, l).dropped, Apply(s, l).status)
  {
    match l
    case Start => CallDrainFrame(s.(started := true));
    case Trigger => CallDrainFrame(s);
    case Fire => CallDrainFrame(s.(timer := None));
    case Tallied(c) => CallDrainFrame(Recount(s.(enqueues := s.enqueues - {c})));
    case Capture(_, _, _, _) =>
    case Written(_) =>
    case _ =>
  }

  lemma {:induction false} EarnedAfter(s: State, ls: seq<Label>, before: set<ClientId>)
    requires Inv(s) && Valid(s, ls) && Earned(before, s.dropped, s.status)
    ensures Earned(before, After(s, ls).dropped, After(s, ls).status)
    decreases |ls|
  {
    if ls != [] {
      if ByDrain(ls[0]) {
        DrainEarned(s, ls[0], before);
      } else {
        PageEarned(s, ls[0], before);
      }
      InvStep(s, ls[0]);
      EarnedAfter(Apply(s, ls[0]), ls[1..], before);
    }
  }

  lemma GrownSet(before: set<ClientId>, after: set<ClientId>)
    requires before <= after && before != after
    ensures exists c :: c in after && c !in before
  {
    assert !(after <= before);
  }

  /** A dismissed notice comes back only for a capture that is dropped afterwards. */
  lemma NoticeComesBackForANewDrop(s: State, ls: seq<Label>)
    requires Reachable(s) && Valid(Dismissing(s), ls) && After(Dismissing(s), ls).status.notice
    ensures exists c :: c in After(Dismissing(s), ls).dropped && c !in s.dropped
  {
    ReachableInv(s);
    InvStep(s, Dismiss);
    EarnedAfter(Dismissing(s), ls, s.dropped);
    GrownSet(s.dropped, After(Dismissing(s), ls).dropped);
  }

  // ---------- Given-up items ----------

  /** The queue is done with a capture: marked failed, acknowledged, or dropped. */
  ghost predicate Closed(store: Store, acked: set<ClientId>, dropped: set<ClientId>, c: ClientId) {
    (c in store && store[c].failed) || c in acked || c in dropped
  }

  ghost predicate Final(s: State, c: ClientId) {
    Closed(s.store, s.acked, s.dropped, c)
  }

  lemma NextItemKeepsFinal(s: State, r: nat, rest: seq<Item>, c: ClientId)
    requires Conserved(s.written, s.store, s.acked, s.dropped)
    requires RestCurrent(s.store, s.now, rest) && Final(s, c)
    ensures Final(NextItem(s, r, rest), c)
    ensures CountSends(NextItem(s, r, rest).log, c) == CountSends(s.log, c)
  {
    if rest != [] {
      assert rest[0].clientId != c;
      LogAppend(s.log, Send(rest[0], s.now), c);
    }
  }

  /** What a drain still holds is not closed, so no committed write and no next send touches a closed capture. */
  lemma RemoveCommittedFinal(s: State, r: nat, c: ClientId)
    requires AtRemove(s, r) && Core(s) && Final(s, c)
    ensures Final(RemoveCommitted(s, r), c) && RemoveCommitted(s, r).log == s.log
  {
    assert RunCurrent(s.store, s.now, s.log, s.runs[r]);
  }

  lemma PutCommittedFinal(s: State, r: nat, c: ClientId)
    requires AtPut(s, r) && Core(s) && Final(s, c)
    ensures Final(PutCommitted(s, r), c) && PutCommitted(s, r).log == s.log
  {
    assert RunCurrent(s.store, s.now, s.log, s.runs[r]);
  }

  lemma RemovedFinal(s: State, r: nat, c: ClientId)
    requires AtRemove(s, r) && Core(s) && Final(s, c)
    ensures Final(RemoveSeen(s, r), c)
    ensures CountSends(RemoveSeen(s, r).log, c) == CountSends(s.log, c)
  {
    RemoveCommittedFinal(s, r, c);
    RemoveCommittedCore(s, r);
    NextItemKeepsFinal(RemoveCommitted(s, r), r, s.runs[r].rest, c);
  }

  lemma PutDoneFinal(s: State, r: nat, c: ClientId)
    requires AtPut(s, r) && Core(s) && Final(s, c)
    ensures Final(PutSeen(s, r), c)
    ensures CountSends(PutSeen(s, r).log, c) == CountSends(s.log, c)
  {
    PutCommittedFinal(s, r, c);
    PutCommittedCore(s, r);
    NextItemKeepsFinal(PutCommitted(s, r), r, s.runs[r].rest, c);
  }

  lemma DueReadFinal(s: State, r: nat, snapshot: seq<Item>, c: ClientId)
    requires CanRead(s, r, snapshot) && Core(s) && Final(s, c)
    ensures Final(ReadArrived(s, r, snapshot), c)
    ensures CountSends(ReadArrived(s, r, snapshot).log, c) == CountSends(s.log, c)
  {
    assert RunCurrent(s.store, s.now, s.log, s.runs[r]);
    assert RestCurrent(s.store, s.now, snapshot);
    NextItemKeepsFinal(BeginPass(s, s.runs[r].at, snapshot), r, snapshot, c);
  }

  lemma DrainFinal(s: State, l: Label, c: ClientId)
    requires Enabled(s, l) && Core(s) && Final(s, c) && ByDrain(l)
    ensures Final(Apply(s, l), c)
    ensures CountSends(Apply(s, l).log, c) == CountSends(s.log, c)
  {
    match l
    case DueRead(r, snapshot) => DueReadFinal(s, r, snapshot, c);
    case Removed(r) => RemovedFinal(s, r, c);
    case PutDone(r) => PutDoneFinal(s, r, c);
    case RemovedUnseen(r) => RemoveCommittedFinal(s, r, c);
    case PutUnseen(r) => PutCommittedFinal(s, r, c);
    case Settle(_, _) =>
    case Recounted(_) => EndOfDrainKeepsRecord(s, l);
    case Scheduled(_, _) => EndOfDrainKeepsRecord(s, l);
  }

  lemma WrittenFinal(s: State, d: ClientId, c: ClientId)
    requires CanWrite(s, d) && Core(s) && Final(s, c)
    ensures Final(CaptureStored(s, d), c)
  {
    assert c in s.written && d !in s.written;
  }

  lemma PageFinal(s: State, l: Label, c: ClientId)
    requires Enabled(s, l) && Core(s) && Final(s, c) && !ByDrain(l)
    ensures Final(Apply(s, l), c)
    ensures Apply(s, l).log == s.log
  {
    if l.Written? {
      WrittenFinal(s, l.clientId, c);
    } else if !l.Capture? {
      OthersKeepRecord(s, l);
    }
  }

  lemma FinalStep(s: State, l: Label, c: ClientId)
    requires Enabled(s, l) && Core(s) && Final(s, c)
    ensures Final(Apply(s, l), c)
    ensures CountSends(Apply(s, l).log, c) == CountSends(s.log, c)
  {
    if ByDrain(l) {
      DrainFinal(s, l, c);
    } else {
      PageFinal(s, l, c);
    }
  }

  /** Once marked failed, acknowledged or dropped, a capture is never sent again, whatever happens next. */
  lemma {:induction false} FinalIsNeverResent(s: State, ls: seq<Label>, c: ClientId)
    requires Inv(s) && Valid(s, ls) && Final(s, c)
    ensures Final(After(s, ls), c)
    ensures CountSends(After(s, ls).log, c) == CountSends(s.log, c)
    decreases |ls|
  {
    if ls != [] {
      FinalStep(s, ls[0], c);
      InvStep(s, ls[0]);
      FinalIsNeverResent(Apply(s, ls[0]), ls[1..], c);
    }
  }

  /** Writing back a snapshot item touches only that item, which is still stored, and only its retry fields. */
  lemma WriteBackIsLocal(s: State, r: nat)
    requires Core(s) && AtPut(s, r)
    ensures
      var t := PutSeen(s, r);
      var c := s.runs[r].item.clientId;
      && t.store.Keys == s.store.Keys && c in s.store
      && (forall d | d in s.store && d != c :: t.store[d] == s.store[d])
      && SameCapture(t.store[c], s.store[c]) && t.store[c].attempts == s.store[c].attempts + 1
  {
    assert RunCurrent(s.store, s.now, s.log, s.runs[r]);
    var Putting(item, rest) := s.runs[r];
    NextItemFrame(WriteBack(s, item), r, rest);
  }
}
