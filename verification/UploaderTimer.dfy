/** The retry timer over every run: what it aims at, what its firing finds, and when stopping is the end of it. */
module UploaderTimer {
  import opened Fresh
  import opened Octets
  import opened Options
  import opened PhotoQueue
  import opened Uploader
  import opened UploaderInvariants
  import opened UploaderTheorems
  import opened UploaderRuns

  /** The item is still to be tried, and this is when a timer armed at `armedAt` should fire for it. */
  predicate Calls(item: Item, armedAt: int, at: int) {
    !item.failed && at == if item.nextAttemptAt > armedAt then item.nextAttemptAt else armedAt
  }

  /** The timer fires for an item still to be tried. */
  ghost predicate FiresFor(store: Store, timer: Timer) {
    exists c :: c in store && Calls(store[c], timer.armedAt, timer.fireAt)
  }

  /** No item still to be tried wants it to fire earlier, but for those whose `enqueue` has yet to call `drain`. */
  ghost predicate NoneEarlier(store: Store, enqueues: map<ClientId, EnqueuePhase>, timer: Timer) {
    forall c, at | c in store && Calls(store[c], timer.armedAt, at) ::
      timer.fireAt <= at || (c in enqueues && enqueues[c].Tallying?)
  }

  ghost predicate Scheduling(runs: map<nat, Run>) {
    exists r :: r in runs && runs[r].Scheduling?
  }

  ghost predicate AimedAt(store: Store, enqueues: map<ClientId, EnqueuePhase>, draining: Option<nat>,
                          runs: map<nat, Run>, timer: Option<Timer>) {
    && (timer.Some? && draining.None? ==> FiresFor(store, timer.value) && NoneEarlier(store, enqueues, timer.value))
    && (timer.Some? ==> !Scheduling(runs))
  }

  ghost predicate Aimed(s: State) {
    AimedAt(s.store, s.enqueues, s.draining, s.runs, s.timer)
  }

  // ---------- Every step keeps the aim ----------

  lemma CallDrainStartsNone(s: State)
    ensures Scheduling(CallDrain(s).runs) ==> Scheduling(s.runs)
  {
    CallDrainFrame(s);
    forall r | r in CallDrain(s).runs && CallDrain(s).runs[r].Scheduling? ensures Scheduling(s.runs) {
      assert r in s.runs;
    }
  }

  lemma CallDrainAimed(s: State)
    requires s.timer.Some? ==> !Scheduling(s.runs)
    ensures Aimed(CallDrain(s))
  {
    CallDrainStartsNone(s);
  }

  lemma NextItemAimed(s: State, r: nat, rest: seq<Item>)
    requires s.draining == Some(r) && SingleFlight(s.runs, s.draining, s.nextRun)
    ensures Aimed(NextItem(s, r, rest))
  {
    NextItemFrame(s, r, rest);
  }

  lemma ScheduledAimed(s: State, r: nat, soonest: int)
    requires CanSchedule(s, r, soonest) && Aimed(s)
    requires s.draining == Some(r) && SingleFlight(s.runs, s.draining, s.nextRun)
    ensures Aimed(ScheduleSeen(s, r, soonest))
  {
    if Waiting(s.store) {
      var c :| c in s.store && !s.store[c].failed && s.store[c].nextAttemptAt == soonest;
      var timer := Timer(s.now, if soonest > s.now then soonest else s.now);
      assert Calls(s.store[c], timer.armedAt, timer.fireAt);
    }
  }

  lemma RecountedAimed(s: State, r: nat)
    requires AtRecount(s, r)
    ensures Aimed(RecountSeen(s, r))
  {
  }

  lemma SettleAimed(s: State, r: nat, outcome: Outcome)
    requires AtSend(s, r) && s.draining == Some(r) && SingleFlight(s.runs, s.draining, s.nextRun)
    ensures Aimed(SendSettled(s, r, outcome))
  {
  }

  lemma DrainAimed(s: State, l: Label)
    requires Enabled(s, l) && ByDrain(l) && !Reloads(l) && Aimed(s)
    requires SingleFlight(s.runs, s.draining, s.nextRun)
    ensures Aimed(Apply(s, l))
  {
    match l
    case DueRead(r, snapshot) => NextItemAimed(BeginPass(s, s.runs[r].at, snapshot), r, snapshot);
    case Settle(r, outcome) => SettleAimed(s, r, outcome);
    case Removed(r) => NextItemAimed(RemoveCommitted(s, r), r, s.runs[r].rest);
    case PutDone(r) => NextItemAimed(PutCommitted(s, r), r, s.runs[r].rest);
    case Recounted(r) => RecountedAimed(s, r);
    case Scheduled(r, soonest) => ScheduledAimed(s, r, soonest);
  }

  lemma WrittenAimed(s: State, c: ClientId)
    requires CanWrite(s, c) && c !in s.store && Aimed(s)
    ensures Aimed(CaptureStored(s, c))
  {
    var t := CaptureStored(s, c);
    if s.timer.Some? && s.draining.None? {
      forall d, at | d in t.store && Calls(t.store[d], s.timer.value.armedAt, at)
        ensures s.timer.value.fireAt <= at || (d in t.enqueues && t.enqueues[d].Tallying?)
      {
        if d != c { assert d in s.store && Calls(s.store[d], s.timer.value.armedAt, at); }
      }
      var d :| d in s.store && Calls(s.store[d], s.timer.value.armedAt, s.timer.value.fireAt);
      assert d in t.store && t.store[d] == s.store[d];
    }
  }

  lemma CaptureAimed(s: State, c: ClientId, bytes: Bytes, blobType: string, takenAt: string)
    requires c !in s.captured && Keyed(s.store, s.captured) && Aimed(s)
    ensures Aimed(Capturing(s, c, bytes, blobType, takenAt))
  {
    var t := Capturing(s, c, bytes, blobType, takenAt);
    if s.timer.Some? && s.draining.None? {
      forall d, at | d in t.store && Calls(t.store[d], s.timer.value.armedAt, at)
        ensures s.timer.value.fireAt <= at || (d in t.enqueues && t.enqueues[d].Tallying?)
      {
        assert d != c;
      }
    }
  }

  lemma PageAimed(s: State, l: Label)
    requires Enabled(s, l) && !ByDrain(l) && Core(s) && Aimed(s)
    ensures Aimed(Apply(s, l))
  {
    match l
    case Start => CallDrainAimed(s.(started := true));
    case Trigger => CallDrainAimed(s);
    case Fire => CallDrainAimed(s.(timer := None));
    case Tallied(c) => CallDrainAimed(Recount(s.(enqueues := s.enqueues - {c})));
    case Written(c) => WrittenAimed(s, c);
    case Capture(c, bytes, blobType, takenAt) => CaptureAimed(s, c, bytes, blobType, takenAt);
    case _ =>
  }

  lemma NewPageAimed(s: State)
    ensures Aimed(NewPage(s))
  {
  }

  lemma AimedStep(s: State, l: Label)
    requires Enabled(s, l) && Core(s) && Aimed(s)
    ensures Aimed(Apply(s, l))
  {
    if l.RemovedUnseen? {
      NewPageAimed(RemoveCommitted(s, l.run).(passes := CutLast(s.passes)));
    } else if l.PutUnseen? {
      NewPageAimed(PutCommitted(s, l.run).(passes := CutLast(s.passes)));
    } else if ByDrain(l) {
      DrainAimed(s, l);
    } else {
      PageAimed(s, l);
    }
  }

  lemma {:induction false} AimedAfter(s: State, ls: seq<Label>)
    requires Inv(s) && Aimed(s) && Valid(s, ls)
    ensures Aimed(After(s, ls))
    decreases |ls|
  {
    if ls != [] {
      AimedStep(s, ls[0]);
      InvStep(s, ls[0]);
      AimedAfter(Apply(s, ls[0]), ls[1..]);
    }
  }

  lemma ReachableAimed(s: State)
    requires Reachable(s)
    ensures Aimed(s)
  {
    var now: nat, ls :| Reached(now, ls, s);
    InitInv(now);
    AimedAfter(Init(now), ls);
  }

  // ---------- What the timer aims at ----------

  /**
   * While no drain runs, a set timer fires exactly when an item still to be tried is due, or at
   * once if it was due when the timer was armed; and no item is due earlier, but for one that was
   * enqueued since and whose `enqueue` is about to call `drain`.
   */
  lemma TimerIsExact(s: State)
    requires Reachable(s) && s.timer.Some? && s.draining.None?
    ensures
      var Timer(armedAt, fireAt) := s.timer.value;
      && (exists c :: c in s.store && !s.store[c].failed
                      && fireAt == if s.store[c].nextAttemptAt > armedAt then s.store[c].nextAttemptAt else armedAt)
      && (forall c | c in s.store && !s.store[c].failed ::
            || fireAt <= armedAt || fireAt <= s.store[c].nextAttemptAt
            || (c in s.enqueues && s.enqueues[c].Tallying?))
  {
    ReachableAimed(s);
    var Timer(armedAt, fireAt) := s.timer.value;
    forall c | c in s.store && !s.store[c].failed
      ensures fireAt <= armedAt || fireAt <= s.store[c].nextAttemptAt || (c in s.enqueues && s.enqueues[c].Tallying?)
    {
      var next := s.store[c].nextAttemptAt;
      assert Calls(s.store[c], armedAt, if next > armedAt then next else armedAt);
    }
  }

  lemma ScheduledArms(s: State, r: nat, soonest: int)
    requires CanSchedule(s, r, soonest) && Aimed(s)
    ensures
      var t := ScheduleSeen(s, r, soonest);
      && t.store == s.store && (t.timer.Some? <==> Waiting(s.store))
      && (t.timer.Some? ==>
            && t.timer.value.armedAt == s.now
            && FiresFor(s.store, t.timer.value) && NoneEarlier(s.store, map[], t.timer.value))
  {
    if Waiting(s.store) {
      var c :| c in s.store && !s.store[c].failed && s.store[c].nextAttemptAt == soonest;
      var timer := Timer(s.now, if soonest > s.now then soonest else s.now);
      assert Calls(s.store[c], timer.armedAt, timer.fireAt);
    }
  }

  lemma OnlySchedulingArms(s: State, l: Label)
    requires Enabled(s, l) && !l.Scheduled?
    ensures Apply(s, l).timer.None? || Apply(s, l).timer == s.timer
  {
    match l
    case DueRead(r, snapshot) => NextItemFrame(BeginPass(s, s.runs[r].at, snapshot), r, snapshot);
    case Removed(r) => NextItemFrame(RemoveCommitted(s, r), r, s.runs[r].rest);
    case PutDone(r) => NextItemFrame(PutCommitted(s, r), r, s.runs[r].rest);
    case Recounted(_) =>
    case Settle(_, _) =>
    case _ => OthersArmNothing(s, l);
  }

  lemma OthersArmNothing(s: State, l: Label)
    requires Enabled(s, l) && (!ByDrain(l) || Reloads(l))
    ensures Apply(s, l).timer.None? || Apply(s, l).timer == s.timer
  {
    match l
    case Start => CallDrainFrame(s.(started := true));
    case Trigger => CallDrainFrame(s);
    case Fire => CallDrainFrame(s.(timer := None));
    case Tallied(c) => CallDrainFrame(Recount(s.(enqueues := s.enqueues - {c})));
    case Written(_) =>
    case Capture(_, _, _, _) =>
    case _ =>
  }

  /** A timer armed now for the earliest of the items still to be tried. */
  ghost predicate IsAimed(store: Store, now: int, timer: Timer) {
    && timer.armedAt == now
    && (exists c :: c in store && !store[c].failed
                 && timer.fireAt == if store[c].nextAttemptAt > now then store[c].nextAttemptAt else now)
    && (forall c | c in store && !store[c].failed ::
          timer.fireAt <= now || timer.fireAt <= store[c].nextAttemptAt)
  }

  lemma SchedulingAims(s: State, r: nat, soonest: int)
    requires Reachable(s) && CanSchedule(s, r, soonest)
    ensures
      var t := ScheduleSeen(s, r, soonest);
      && Reachable(t) && t.store == s.store && t.now == s.now
      && (t.timer.Some? <==> exists c :: c in s.store && !s.store[c].failed)
      && (t.timer.Some? ==> IsAimed(t.store, t.now, t.timer.value))
  {
    ReachableStep(s, Scheduled(r, soonest));
    ReachableAimed(s);
    ScheduledArms(s, r, soonest);
    var t := ScheduleSeen(s, r, soonest);
    if t.timer.Some? {
      AimIsExact(t.store, t.timer.value);
    }
  }

  lemma AimIsExact(store: Store, timer: Timer)
    requires FiresFor(store, timer) && NoneEarlier(store, map[], timer)
    ensures IsAimed(store, timer.armedAt, timer)
  {
    forall c | c in store && !store[c].failed
      ensures timer.fireAt <= timer.armedAt || timer.fireAt <= store[c].nextAttemptAt
    {
      assert Calls(store[c], timer.armedAt,
                   if store[c].nextAttemptAt > timer.armedAt then store[c].nextAttemptAt else timer.armedAt);
    }
  }

  /**
   * Every step that arms the timer arms it now, for the earliest of the items still to be tried:
   * it fires when one of them is due, or at once if that is past, and none is due earlier.
   */
  lemma ArmedForTheEarliest(s: State, l: Label)
    requires Reachable(s) && Enabled(s, l)
    requires Apply(s, l).timer.Some? && Apply(s, l).timer != s.timer
    ensures IsAimed(Apply(s, l).store, Apply(s, l).now, Apply(s, l).timer.value)
  {
    if l.Scheduled? {
      SchedulingAims(s, l.run, l.soonest);
    } else {
      OnlySchedulingArms(s, l);
    }
  }

  /**
   * A drain that the timer starts finds something due, whatever the page does before it reads the
   * store: the timer never wakes the uploader for nothing.
   */
  lemma TimerFindsWork(s: State, ls: seq<Label>, snapshot: seq<Item>)
    requires Reachable(s) && Enabled(s, Fire) && s.draining.None?
    requires Valid(Firing(s), ls) && ByPage(ls) && CanRead(After(Firing(s), ls), s.nextRun, snapshot)
    ensures snapshot != [] && Firing(s).timer.None?
  {
    var c := TimerIsDue(s);
    ReachableStep(s, Fire);
    ReachableInv(Firing(s));
    FiringStarts(s);
    HandsAreKept(Firing(s), ls, s.nextRun, c);
  }

  lemma TimerIsDue(s: State) returns (c: ClientId)
    requires Reachable(s) && Enabled(s, Fire) && s.draining.None?
    ensures c in s.store && IsDue(s.store[c], s.now)
  {
    ReachableAimed(s);
    c :| c in s.store && Calls(s.store[c], s.timer.value.armedAt, s.timer.value.fireAt);
  }

  lemma FiringStarts(s: State)
    requires s.draining.None?
    ensures Firing(s).store == s.store && s.nextRun in Firing(s).runs
    ensures Firing(s).runs[s.nextRun] == ReadingDue(s.now)
  {
  }

  // ---------- Stopping ----------

  ghost predicate NoStart(ls: seq<Label>) {
    forall i | 0 <= i < |ls| :: !ls[i].Start?
  }

  /** Stopped, without a timer, and with no drain that could still arm one. */
  ghost predicate AtRest(s: State) {
    !s.started && s.timer.None? && !Scheduling(s.runs)
  }

  lemma NextItemRests(s: State, r: nat, rest: seq<Item>)
    requires !s.started && s.timer.None? && s.draining == Some(r) && SingleFlight(s.runs, s.draining, s.nextRun)
    ensures AtRest(NextItem(s, r, rest))
  {
    NextItemFrame(s, r, rest);
  }

  lemma SettleRests(s: State, r: nat, outcome: Outcome)
    requires AtSend(s, r) && AtRest(s) && s.draining == Some(r) && SingleFlight(s.runs, s.draining, s.nextRun)
    ensures AtRest(SendSettled(s, r, outcome))
  {
  }

  lemma RecountRests(s: State, r: nat)
    requires AtRecount(s, r) && AtRest(s) && SingleFlight(s.runs, s.draining, s.nextRun)
    ensures AtRest(RecountSeen(s, r))
  {
  }

  lemma RestDrains(s: State, l: Label)
    requires Enabled(s, l) && ByDrain(l) && !Reloads(l) && AtRest(s)
    requires SingleFlight(s.runs, s.draining, s.nextRun)
    ensures AtRest(Apply(s, l))
  {
    match l
    case DueRead(r, snapshot) => NextItemRests(BeginPass(s, s.runs[r].at, snapshot), r, snapshot);
    case Settle(r, outcome) => SettleRests(s, r, outcome);
    case Removed(r) => NextItemRests(RemoveCommitted(s, r), r, s.runs[r].rest);
    case PutDone(r) => NextItemRests(PutCommitted(s, r), r, s.runs[r].rest);
    case Recounted(r) => RecountRests(s, r);
    case Scheduled(_, _) =>
  }

  lemma RestStays(s: State, l: Label)
    requires Enabled(s, l) && !l.Start? && AtRest(s) && SingleFlight(s.runs, s.draining, s.nextRun)
    ensures AtRest(Apply(s, l))
  {
    if ByDrain(l) && !Reloads(l) {
      RestDrains(s, l);
    } else {
      match l
      case Trigger => CallDrainStartsNone(s);
      case Tallied(c) => CallDrainStartsNone(Recount(s.(enqueues := s.enqueues - {c})));
      case Fire =>
      case _ =>
    }
  }

  lemma {:induction false} RestIsKept(s: State, ls: seq<Label>)
    requires Inv(s) && Valid(s, ls) && NoStart(ls) && AtRest(s)
    ensures AtRest(After(s, ls))
    decreases |ls|
  {
    if ls != [] {
      RestStays(s, ls[0]);
      InvStep(s, ls[0]);
      RestIsKept(Apply(s, ls[0]), ls[1..]);
    }
  }

  /** Until the next `start` no timer is armed, whatever happens. */
  ghost predicate NoTimerUntilStart(s: State) {
    forall ls | Valid(s, ls) && NoStart(ls) :: After(s, ls).timer.None?
  }

  /** Some capture gets stored while a drain waits to schedule. */
  lemma CaptureArrives(s: State) returns (ls: seq<Label>, t: State)
    requires Reachable(s)
    ensures Valid(s, ls) && NoStart(ls) && t == After(s, ls) && Reachable(t)
    ensures t.runs == s.runs && exists c :: c in t.store && !t.store[c].failed
  {
    var c := Longer(s.captured.Keys);
    assert c !in s.captured;
    var capture := Capture(c, [], "", "");
    RunSnoc(s, [], capture);
    ReachableStep(s, capture);
    t := Apply(s, capture);
    RunSnoc(s, [] + [capture], Written(c));
    ReachableStep(t, Written(c));
    ls, t := [] + [capture] + [Written(c)], Apply(t, Written(c));
    assert c in t.store && !t.store[c].failed;
  }

  /** A drain that waits for the store in scheduleNextRetry arms the timer when the store answers. */
  lemma LateScheduleArms(s: State, r: nat) returns (ls: seq<Label>)
    requires Reachable(s) && AtSchedule(s, r)
    ensures Valid(s, ls) && NoStart(ls) && After(s, ls).timer.Some?
  {
    var ks, m := CaptureArrives(s);
    StoreIsKeyed(m);
    var items := EnumerationExists(m.store);
    var soonest := ScheduleCanEnd(m, r, items);
    SchedulingAims(m, r, soonest);
    RunSnoc(s, ks, Scheduled(r, soonest));
    ls := ks + [Scheduled(r, soonest)];
  }

  /**
   * Stopping ends the timers until the next `start` if and only if no drain is waiting for the
   * store in scheduleNextRetry: that one does not look at `started` again before it arms.
   */
  lemma StopIsFinalExactly(s: State)
    requires Reachable(s) && s.started
    ensures NoTimerUntilStart(Stopping(s)) <==> forall r :: !AtSchedule(s, r)
  {
    ReachableStep(s, Stop);
    var t := Stopping(s);
    if r :| AtSchedule(s, r) {
      var ls := LateScheduleArms(t, r);
      assert !After(t, ls).timer.None?;
    } else {
      ReachableInv(t);
      assert !Scheduling(t.runs) by {
        forall r | r in s.runs ensures !s.runs[r].Scheduling? {
          assert !AtSchedule(s, r);
        }
      }
      forall ls | Valid(t, ls) && NoStart(ls) ensures After(t, ls).timer.None? {
        RestIsKept(t, ls);
      }
    }
  }
}
