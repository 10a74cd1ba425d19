/** Runs of the uploader: what can happen next, and what a folded `drain` call leads to. */
module UploaderRuns {
  import opened Octets
  import opened Options
  import opened PhotoQueue
  import opened Uploader
  import opened UploaderInvariants
  import opened UploaderHistory
  import opened Backoff
  import opened UploaderTheorems

  // ---------- A drain is never stuck ----------

  lemma {:induction false} EnumerationExists(store: Store) returns (items: seq<Item>)
    requires forall c | c in store :: store[c].clientId == c
    ensures Enumerates(items, store)
    decreases |store|
  {
    items := [];
    if c :| c in store {
      var less := store - {c};
      assert |less| < |store| by { assert less.Keys == store.Keys - {c}; }
      var front := EnumerationExists(less);
      items := front + [store[c]];
      forall d | d in store ensures store[d] in items {
        if d != c { assert less[d] in front; }
      }
    }
  }

  lemma {:induction false} SoonestOf(items: seq<Item>) returns (k: nat)
    requires exists i :: 0 <= i < |items| && !items[i].failed
    ensures k < |items| && !items[k].failed
    ensures forall i | 0 <= i < |items| && !items[i].failed :: items[k].nextAttemptAt <= items[i].nextAttemptAt
  {
    var n := |items| - 1;
    if i :| 0 <= i < n && !items[i].failed {
      assert items[..n][i] == items[i];
      k := SoonestOf(items[..n]);
      forall j | 0 <= j < n && !items[j].failed ensures items[k].nextAttemptAt <= items[j].nextAttemptAt {
        assert items[..n][j] == items[j];
      }
      if !items[n].failed && items[n].nextAttemptAt < items[k].nextAttemptAt {
        k := n;
      }
    } else {
      k := n;
    }
  }

  lemma ScheduleCanEnd(s: State, r: nat, items: seq<Item>) returns (soonest: int)
    requires AtSchedule(s, r) && Enumerates(items, s.store)
    ensures CanSchedule(s, r, soonest)
  {
    soonest := 0;
    if Waiting(s.store) {
      var c :| c in s.store && !s.store[c].failed;
      assert s.store[c] in items;
      var k := SoonestOf(items);
      soonest := items[k].nextAttemptAt;
      forall d | d in s.store && !s.store[d].failed ensures items[k].nextAttemptAt <= s.store[d].nextAttemptAt {
        assert s.store[d] in items;
      }
      assert IsSoonest(s.store, soonest);
    }
  }

  lemma StoreIsKeyed(s: State)
    requires Reachable(s)
    ensures forall c | c in s.store :: s.store[c].clientId == c
  {
    ReachableInv(s);
    assert Keyed(s.store, s.captured);
  }

  /** Every wait of a drain can end: reads always have a result to deliver, and uploads settle somehow. */
  lemma DrainIsNeverStuck(s: State, r: nat) returns (l: Label)
    requires Reachable(s) && r in s.runs
    ensures Enabled(s, l) && ByDrain(l) && !Reloads(l) && l.run == r
  {
    StoreIsKeyed(s);
    var items := EnumerationExists(s.store);
    match s.runs[r]
    case ReadingDue(at) =>
      DueIsSnapshot(items, s.store, at);
      l := DueRead(r, Due(items, at));
    case Sending(_, _, _) => l := Settle(r, Accepted);
    case Removing(_, _, _) => l := Removed(r);
    case Putting(_, _) => l := PutDone(r);
    case Recounting => l := Recounted(r);
    case Scheduling =>
      var soonest := ScheduleCanEnd(s, r, items);
      l := Scheduled(r, soonest);
  }

  // ---------- What a folded call leads to ----------

  /** The loop of the running drain has not been left. */
  predicate InLoop(run: Run) {
    run.ReadingDue? || run.Sending? || run.Removing? || run.Putting?
  }

  ghost predicate StillLooping(draining: Option<nat>, runs: map<nat, Run>) {
    draining.Some? && draining.value in runs && InLoop(runs[draining.value])
  }

  /** A `drain` call of time `from` is remembered, is being served, or has been served by a later pass. */
  ghost predicate Served(draining: Option<nat>, runs: map<nat, Run>, again: bool, passes: seq<Pass>,
                         n: nat, from: int) {
    || (again && StillLooping(draining, runs))
    || (draining.Some? && draining.value in runs && runs[draining.value].ReadingDue? && runs[draining.value].at >= from)
    || (exists i :: n <= i < |passes| && passes[i].at >= from)
  }

  ghost predicate IsServed(s: State, n: nat, from: int) {
    Served(s.draining, s.runs, s.again, s.passes, n, from)
  }

  lemma NextItemServes(s: State, r: nat, rest: seq<Item>, n: nat, from: int)
    requires s.draining == Some(r) && s.now >= from
    requires s.again || exists i :: n <= i < |s.passes| && s.passes[i].at >= from
    ensures IsServed(NextItem(s, r, rest), n, from)
  {
  }

  lemma DueReadServes(s: State, r: nat, snapshot: seq<Item>, n: nat, from: int)
    requires CanRead(s, r, snapshot) && Core(s) && s.now >= from && n <= |s.passes| && IsServed(s, n, from)
    ensures IsServed(ReadArrived(s, r, snapshot), n, from)
  {
    var p := Pass(s.store, s.runs[r].at, snapshot, |s.log|, false);
    var passes := s.passes + [p];
    if !s.again {
      if i :| n <= i < |s.passes| && s.passes[i].at >= from {
        assert passes[i].at >= from;
      } else {
        assert passes[|s.passes|].at >= from;
      }
    }
    NextItemServes(s.(passes := passes), r, snapshot, n, from);
  }

  lemma CallDrainServes(s: State, n: nat, from: int)
    requires SingleFlight(s.runs, s.draining, s.nextRun) && IsServed(s, n, from)
    ensures IsServed(CallDrain(s), n, from)
  {
  }

  lemma RecountedServes(s: State, r: nat, n: nat, from: int)
    requires AtRecount(s, r) && SingleFlight(s.runs, s.draining, s.nextRun) && IsServed(s, n, from)
    ensures IsServed(RecountSeen(s, r), n, from)
  {
  }

  lemma ScheduledServes(s: State, r: nat, soonest: int, n: nat, from: int)
    requires AtSchedule(s, r) && SingleFlight(s.runs, s.draining, s.nextRun) && IsServed(s, n, from)
    ensures IsServed(ScheduleSeen(s, r, soonest), n, from)
  {
  }

  lemma SettleServes(s: State, r: nat, outcome: Outcome, n: nat, from: int)
    requires AtSend(s, r) && SingleFlight(s.runs, s.draining, s.nextRun) && IsServed(s, n, from)
    ensures IsServed(SendSettled(s, r, outcome), n, from)
  {
  }

  lemma RemovedServes(s: State, r: nat, n: nat, from: int)
    requires AtRemove(s, r) && SingleFlight(s.runs, s.draining, s.nextRun) && s.now >= from && IsServed(s, n, from)
    ensures IsServed(RemoveSeen(s, r), n, from)
  {
    NextItemServes(RemoveCommitted(s, r), r, s.runs[r].rest, n, from);
  }

  lemma PutDoneServes(s: State, r: nat, n: nat, from: int)
    requires AtPut(s, r) && SingleFlight(s.runs, s.draining, s.nextRun) && s.now >= from && IsServed(s, n, from)
    ensures IsServed(PutSeen(s, r), n, from)
  {
    NextItemServes(PutCommitted(s, r), r, s.runs[r].rest, n, from);
  }

  lemma DrainServes(s: State, l: Label, n: nat, from: int)
    requires Enabled(s, l) && ByDrain(l) && !Reloads(l) && Core(s) && s.now >= from && n <= |s.passes|
    requires IsServed(s, n, from)
    ensures IsServed(Apply(s, l), n, from)
  {
    match l
    case DueRead(r, snapshot) => DueReadServes(s, r, snapshot, n, from);
    case Settle(r, outcome) => SettleServes(s, r, outcome, n, from);
    case Removed(r) => RemovedServes(s, r, n, from);
    case PutDone(r) => PutDoneServes(s, r, n, from);
    case Recounted(r) => RecountedServes(s, r, n, from);
    case Scheduled(r, soonest) => ScheduledServes(s, r, soonest, n, from);
  }

  lemma PageServes(s: State, l: Label, n: nat, from: int)
    requires Enabled(s, l) && !ByDrain(l) && !l.Reload? && Core(s) && IsServed(s, n, from)
    ensures IsServed(Apply(s, l), n, from)
  {
    match l
    case Start => if !s.started { CallDrainServes(s.(started := true), n, from); }
    case Trigger => CallDrainServes(s, n, from);
    case Fire => CallDrainServes(s.(timer := None), n, from);
    case Tallied(c) => CallDrainServes(Recount(s.(enqueues := s.enqueues - {c})), n, from);
    case Tick(_) =>
    case Stop =>
    case Dismiss =>
    case Capture(_, _, _, _) =>
    case Written(_) =>
  }

  lemma ServedStep(s: State, l: Label, n: nat, from: int)
    requires Enabled(s, l) && !Reloads(l) && Core(s) && s.now >= from && n <= |s.passes| && IsServed(s, n, from)
    ensures IsServed(Apply(s, l), n, from)
  {
    if ByDrain(l) {
      DrainServes(s, l, n, from);
    } else {
      PageServes(s, l, n, from);
    }
  }

  lemma ClockAndPassesGrow(s: State, l: Label)
    requires Enabled(s, l) && !Reloads(l)
    ensures Apply(s, l).now >= s.now && |Apply(s, l).passes| >= |s.passes|
  {
    match l
    case DueRead(r, snapshot) => NextItemFrame(BeginPass(s, s.runs[r].at, snapshot), r, snapshot);
    case Removed(r) => NextItemFrame(RemoveCommitted(s, r), r, s.runs[r].rest);
    case PutDone(r) => NextItemFrame(PutCommitted(s, r), r, s.runs[r].rest);
    case Settle(_, _) =>
    case Capture(_, _, _, _) =>
    case Written(_) =>
    case _ => OthersKeepRecord(s, l);
  }

  /** The store was read anew, no earlier than `from`, in a pass after the first `n`. */
  ghost predicate Reread(passes: seq<Pass>, n: nat, from: int) {
    exists i :: n <= i < |passes| && passes[i].at >= from
  }

  /**
   * A recorded `drain` call is not swallowed: once the running drain has left its loop, the store
   * has been read anew, no earlier than the call, unless the page was reloaded.
   */
  lemma {:induction false} FoldedCallIsServed(s: State, ls: seq<Label>, n: nat, from: int)
    requires Inv(s) && Valid(s, ls) && NoReload(ls)
    requires n <= |s.passes| && from <= s.now && IsServed(s, n, from)
    ensures !StillLooping(After(s, ls).draining, After(s, ls).runs) ==> Reread(After(s, ls).passes, n, from)
    decreases |ls|
  {
    if ls != [] {
      ServedStep(s, ls[0], n, from);
      ClockAndPassesGrow(s, ls[0]);
      InvStep(s, ls[0]);
      FoldedCallIsServed(Apply(s, ls[0]), ls[1..], n, from);
    }
  }

  /** Calling `drain` puts the call on record: it is folded into a drain still in its loop, or starts one. */
  lemma DrainCallIsRecorded(s: State)
    requires Core(s) && (s.draining.Some? ==> StillLooping(s.draining, s.runs))
    ensures IsServed(CallDrain(s), |s.passes|, s.now)
  {
  }

  // ---------- No pass without a call ----------

  /** The steps that call `drain`. */
  predicate CallsDrain(l: Label) {
    l.Start? || l.Trigger? || l.Fire? || l.Tallied?
  }

  function CallCount(ls: seq<Label>): nat {
    if ls == [] then 0 else (if CallsDrain(ls[0]) then 1 else 0) + CallCount(ls[1..])
  }

  ghost predicate Reading(runs: map<nat, Run>) {
    exists r :: r in runs && runs[r].ReadingDue?
  }

  /** The passes begun, the one whose read is under way, and the one that is called for. */
  ghost function PassesOwed(passes: nat, runs: map<nat, Run>, draining: Option<nat>, again: bool): nat {
    passes + (if Reading(runs) then 1 else 0) + (if draining.Some? && again then 1 else 0)
  }

  ghost function Owed(s: State): nat {
    PassesOwed(|s.passes|, s.runs, s.draining, s.again)
  }

  lemma OneRun(s: State, r: nat)
    requires r in s.runs && SingleFlight(s.runs, s.draining, s.nextRun)
    ensures Reading(s.runs) <==> s.runs[r].ReadingDue?
  {
  }

  lemma NextItemOwed(s: State, r: nat, rest: seq<Item>)
    requires s.draining == Some(r) && SingleFlight(s.runs, s.draining, s.nextRun)
    ensures Owed(NextItem(s, r, rest)) == |s.passes| + if s.again then 1 else 0
  {
    var t := NextItem(s, r, rest);
    NextItemFrame(s, r, rest);
    OneRun(t, r);
  }

  lemma DueReadOwed(s: State, r: nat, snapshot: seq<Item>)
    requires AtRead(s, r) && SingleFlight(s.runs, s.draining, s.nextRun)
    ensures Owed(ReadArrived(s, r, snapshot)) == Owed(s)
  {
    OneRun(s, r);
    NextItemOwed(BeginPass(s, s.runs[r].at, snapshot), r, snapshot);
  }

  lemma RemovedOwed(s: State, r: nat)
    requires AtRemove(s, r) && SingleFlight(s.runs, s.draining, s.nextRun)
    ensures Owed(RemoveSeen(s, r)) == Owed(s)
  {
    OneRun(s, r);
    NextItemOwed(RemoveCommitted(s, r), r, s.runs[r].rest);
  }

  lemma PutDoneOwed(s: State, r: nat)
    requires AtPut(s, r) && SingleFlight(s.runs, s.draining, s.nextRun)
    ensures Owed(PutSeen(s, r)) == Owed(s)
  {
    OneRun(s, r);
    NextItemOwed(PutCommitted(s, r), r, s.runs[r].rest);
  }

  lemma SettledOwed(s: State, r: nat, outcome: Outcome)
    requires AtSend(s, r) && SingleFlight(s.runs, s.draining, s.nextRun)
    ensures Owed(SendSettled(s, r, outcome)) == Owed(s)
  {
    OneRun(s, r);
    OneRun(SendSettled(s, r, outcome), r);
  }

  lemma RecountedOwed(s: State, r: nat)
    requires AtRecount(s, r) && SingleFlight(s.runs, s.draining, s.nextRun)
    ensures Owed(RecountSeen(s, r)) <= Owed(s)
  {
    OneRun(s, r);
    if s.started {
      OneRun(RecountSeen(s, r), r);
    } else {
      assert s.runs - {r} == map[];
    }
  }

  lemma ScheduledOwed(s: State, r: nat, soonest: int)
    requires AtSchedule(s, r) && SingleFlight(s.runs, s.draining, s.nextRun)
    ensures Owed(ScheduleSeen(s, r, soonest)) <= Owed(s)
  {
    OneRun(s, r);
    assert s.runs - {r} == map[];
  }

  lemma NewPageOwed(s: State)
    ensures Owed(NewPage(s)) == |s.passes|
  {
  }

  lemma UnseenOwed(s: State, l: Label)
    requires Enabled(s, l) && (l.RemovedUnseen? || l.PutUnseen?)
    ensures Owed(Apply(s, l)) <= Owed(s)
  {
    if l.RemovedUnseen? {
      NewPageOwed(RemoveCommitted(s, l.run).(passes := CutLast(s.passes)));
    } else {
      NewPageOwed(PutCommitted(s, l.run).(passes := CutLast(s.passes)));
    }
  }

  lemma DrainOwed(s: State, l: Label)
    requires Enabled(s, l) && ByDrain(l) && SingleFlight(s.runs, s.draining, s.nextRun)
    ensures Owed(Apply(s, l)) <= Owed(s)
  {
    match l
    case DueRead(r, snapshot) => DueReadOwed(s, r, snapshot);
    case Settle(r, outcome) => SettledOwed(s, r, outcome);
    case Removed(r) => RemovedOwed(s, r);
    case PutDone(r) => PutDoneOwed(s, r);
    case Recounted(r) => RecountedOwed(s, r);
    case Scheduled(r, soonest) => ScheduledOwed(s, r, soonest);
    case _ => UnseenOwed(s, l);
  }

  lemma CallDrainOwed(s: State)
    requires SingleFlight(s.runs, s.draining, s.nextRun)
    ensures Owed(CallDrain(s)) <= Owed(s) + 1
  {
    if s.draining.None? {
      OneRun(CallDrain(s), s.nextRun);
    }
  }

  lemma PageOwed(s: State, l: Label)
    requires Enabled(s, l) && !ByDrain(l) && SingleFlight(s.runs, s.draining, s.nextRun)
    ensures Owed(Apply(s, l)) <= Owed(s) + if CallsDrain(l) then 1 else 0
  {
    match l
    case Start => CallDrainOwed(s.(started := true));
    case Trigger => CallDrainOwed(s);
    case Fire => CallDrainOwed(s.(timer := None));
    case Tallied(c) => CallDrainOwed(Recount(s.(enqueues := s.enqueues - {c})));
    case Written(_) =>
    case Capture(_, _, _, _) =>
    case _ =>
  }

  lemma {:induction false} OwedAfter(s: State, ls: seq<Label>)
    requires Inv(s) && Valid(s, ls)
    ensures Owed(After(s, ls)) <= Owed(s) + CallCount(ls)
    decreases |ls|
  {
    if ls != [] {
      if ByDrain(ls[0]) {
        DrainOwed(s, ls[0]);
      } else {
        PageOwed(s, ls[0]);
      }
      InvStep(s, ls[0]);
      OwedAfter(Apply(s, ls[0]), ls[1..]);
    }
  }

  /**
   * The queue is never read but on a call: over every run, reloads included, there are no more
   * passes than `drain` calls, the pass under way and the one that a folded call still has coming
   * counted in. So no drain goes round its loop on its own.
   */
  lemma NoPassWithoutACall(now: nat, ls: seq<Label>, t: State)
    requires Reached(now, ls, t)
    ensures |t.passes| <= CallCount(ls)
    ensures t.draining.Some? && t.again ==> |t.passes| + 1 <= CallCount(ls)
  {
    InitInv(now);
    OwedAfter(Init(now), ls);
  }

  /** After a reload the page is as when it was first opened; only the database is as before. */
  lemma ReloadOpensAFreshPage(s: State, l: Label, now: nat)
    requires Enabled(s, l) && Reloads(l)
    ensures
      var t, blank := Apply(s, l), Init(now);
      && t.enqueues == blank.enqueues && t.runs == blank.runs && t.draining == blank.draining
      && t.again == blank.again && t.timer == blank.timer && t.started == blank.started
      && t.status == Status(0, 0, false) == blank.status
      && (l.Reload? ==> t.store == s.store)
  {
  }

  // ---------- Where a folded call is lost ----------

  /** A `drain` call folded behind the loop leaves no trace but `again`. */
  lemma LateCallIsFolded(s: State, r: nat)
    requires s.draining == Some(r)
    ensures CallDrain(s) == s.(again := true)
  {
  }

  lemma EndsFromScheduling(s: State, r: nat) returns (l: Label)
    requires Reachable(s) && s.draining == Some(r) && AtSchedule(s, r)
    ensures Enabled(s, l) && !Reloads(l)
    ensures
      var t := Apply(s, l);
      t.draining.None? && t.again == s.again && t.passes == s.passes && t.log == s.log
  {
    l := DrainIsNeverStuck(s, r);
  }

  lemma EndsFromRecounting(s: State, r: nat) returns (ls: seq<Label>, t: State)
    requires Reachable(s) && s.draining == Some(r) && AtRecount(s, r)
    ensures Valid(s, ls) && t == After(s, ls) && NoReload(ls)
    ensures t.draining.None? && t.again == s.again && t.passes == s.passes && t.log == s.log
  {
    ReachableStep(s, Recounted(r));
    RunSnoc(s, [], Recounted(r));
    ls, t := [] + [Recounted(r)], Apply(s, Recounted(r));
    if s.started {
      var l := EndsFromScheduling(t, r);
      RunSnoc(s, ls, l);
      ls, t := ls + [l], Apply(t, l);
    }
  }

  lemma PastTheLoop(s: State, r: nat)
    requires Reachable(s) && s.draining == Some(r) && !StillLooping(s.draining, s.runs)
    ensures AtRecount(s, r) || AtSchedule(s, r)
  {
    ReachableInv(s);
    assert r in s.runs;
  }

  /**
   * Why the retry timer matters: a `drain` call made after the loop's last look at `again`, in
   * either of the two waits behind the loop, is swallowed. The drain can end with the call still
   * on record and without a further pass.
   */
  lemma LateFoldIsSwallowed(s: State, r: nat) returns (ls: seq<Label>, t: State)
    requires Reachable(s) && s.draining == Some(r) && !StillLooping(s.draining, s.runs)
    ensures Valid(CallDrain(s), ls) && t == After(CallDrain(s), ls) && NoReload(ls)
    ensures t.draining.None? && t.again && t.passes == s.passes && t.log == s.log
  {
    PastTheLoop(s, r);
    LateCallIsFolded(s, r);
    ReachableStep(s, Trigger);
    var m := CallDrain(s);
    if AtRecount(s, r) {
      ls, t := EndsFromRecounting(m, r);
    } else {
      var l := EndsFromScheduling(m, r);
      RunSnoc(m, [], l);
      ls, t := [] + [l], Apply(m, l);
    }
  }

  /** Whatever follows without a reload, once no drain is in its loop the store has been read anew since the call. */
  ghost predicate AlwaysServed(s: State) {
    forall ls | Valid(CallDrain(s), ls) && NoReload(ls) ::
      ServedBy(After(CallDrain(s), ls), |s.passes|, s.now)
  }

  ghost predicate ServedBy(t: State, n: nat, from: int) {
    !StillLooping(t.draining, t.runs) ==> Reread(t.passes, n, from)
  }

  lemma EarlyCallIsServed(s: State, ls: seq<Label>)
    requires Reachable(s) && (s.draining.None? || StillLooping(s.draining, s.runs))
    requires Valid(CallDrain(s), ls) && NoReload(ls)
    ensures ServedBy(After(CallDrain(s), ls), |s.passes|, s.now)
  {
    ReachableInv(s);
    DrainCallIsRecorded(s);
    InvStep(s, Trigger);
    FoldedCallIsServed(CallDrain(s), ls, |s.passes|, s.now);
  }

  /** A `drain` call is sure to be served exactly when the uploader is idle or its drain still in the loop. */
  lemma CallIsServedExactly(s: State)
    requires Reachable(s)
    ensures AlwaysServed(s) <==> s.draining.None? || StillLooping(s.draining, s.runs)
  {
    if s.draining.None? || StillLooping(s.draining, s.runs) {
      forall ls | Valid(CallDrain(s), ls) && NoReload(ls)
        ensures ServedBy(After(CallDrain(s), ls), |s.passes|, s.now)
      {
        EarlyCallIsServed(s, ls);
      }
    } else {
      var ls, t := LateFoldIsSwallowed(s, s.draining.value);
      assert !ServedBy(t, |s.passes|, s.now);
    }
  }

  // ---------- Every pending capture can go out ----------

  /** Steps of the phone alone: no new capture, and no answer but a failing network. */
  predicate Alone(l: Label) {
    !l.Capture? && (l.Settle? ==> l.outcome.Unreachable?)
  }

  ghost predicate AllAlone(ls: seq<Label>) {
    forall i | 0 <= i < |ls| :: Alone(ls[i])
  }

  /** What the walk to a capture leaves as it is. */
  ghost predicate Kept(s: State, t: State) {
    && t.captured == s.captured && t.written == s.written && t.acked == s.acked && t.dropped == s.dropped
    && t.cuts == s.cuts
  }

  /** Uploads that begin now are added to the log, at least `least` of them. */
  ghost predicate SendsNow(s: State, t: State, least: nat) {
    && s.log <= t.log && |t.log| >= |s.log| + least
    && forall i | |s.log| <= i < |t.log| :: t.log[i].at == t.now
  }

  lemma {:induction false} RunAppend(s: State, ls: seq<Label>, ms: seq<Label>)
    requires Valid(s, ls) && Valid(After(s, ls), ms)
    ensures Valid(s, ls + ms) && After(s, ls + ms) == After(After(s, ls), ms)
    decreases |ms|
  {
    if ms == [] {
      assert ls + ms == ls;
    } else {
      RunSnoc(s, ls, ms[0]);
      RunAppend(s, ls + [ms[0]], ms[1..]);
      assert ls + ms == (ls + [ms[0]]) + ms[1..];
    }
  }

  /** An upload fails for lack of a network, and the next one begins. */
  lemma OneTurn(s: State, r: nat) returns (ls: seq<Label>, t: State)
    requires Reachable(s) && AtSend(s, r) && s.runs[r].rest != []
    ensures Valid(s, ls) && t == After(s, ls) && AllAlone(ls) && Reachable(t)
    ensures t.now == s.now && Kept(s, t) && AtSend(t, r)
    ensures t.runs[r].item == s.runs[r].rest[0] && t.runs[r].rest == s.runs[r].rest[1..]
    ensures t.log == s.log + [Send(s.runs[r].rest[0], s.now)]
  {
    var down := Settle(r, Unreachable(""));
    ReachableStep(s, down);
    RunSnoc(s, [], down);
    t := Apply(s, down);
    ReachableStep(t, PutDone(r));
    RunSnoc(s, [] + [down], PutDone(r));
    ls, t := [] + [down] + [PutDone(r)], Apply(t, PutDone(r));
  }

  /** A drain reaches every item it holds. */
  lemma {:induction false} WalkTo(s: State, r: nat, x: Item) returns (ls: seq<Label>, t: State)
    requires Reachable(s) && AtSend(s, r) && (s.runs[r].item == x || x in s.runs[r].rest)
    ensures Valid(s, ls) && t == After(s, ls) && AllAlone(ls) && Reachable(t)
    ensures t.now == s.now && Kept(s, t) && AtSend(t, r) && t.runs[r].item == x && SendsNow(s, t, 0)
    decreases |s.runs[r].rest|
  {
    if s.runs[r].item == x {
      ls, t := [], s;
    } else {
      var ks, m := OneTurn(s, r);
      assert x == s.runs[r].rest[0] || x in s.runs[r].rest[1..];
      var ms, u := WalkTo(m, r, x);
      RunAppend(s, ks, ms);
      ls, t := ks + ms, u;
    }
  }

  lemma Await(s: State, c: ClientId) returns (ls: seq<Label>, t: State)
    requires Reachable(s) && c in s.store
    ensures Valid(s, ls) && t == After(s, ls) && AllAlone(ls) && Reachable(t)
    ensures t == s.(now := t.now) && t.now >= s.store[c].nextAttemptAt
    ensures s.store[c].nextAttemptAt <= s.now ==> t.now == s.now
  {
    var later := Tick(if s.store[c].nextAttemptAt > s.now then s.store[c].nextAttemptAt else s.now);
    ReachableStep(s, later);
    RunSnoc(s, [], later);
    ls, t := [] + [later], Apply(s, later);
  }

  /** A new page is opened once the capture is due, and its drain finds it. */
  lemma OpenPage(s: State, c: ClientId) returns (ls: seq<Label>, t: State, r: nat)
    requires Reachable(s) && s.runs == map[] && s.draining.None? && !s.started && c in s.store && !s.store[c].failed
    ensures Valid(s, ls) && t == After(s, ls) && AllAlone(ls) && Reachable(t)
    ensures IsDue(s.store[c], s.now) ==> t.now == s.now
    ensures Kept(s, t) && t.log == s.log && t.store == s.store
    ensures AtRead(t, r) && t.runs[r].at == t.now && IsDue(t.store[c], t.now)
  {
    ls, t := Await(s, c);
    ReachableStep(t, Start);
    RunSnoc(s, ls, Start);
    r := t.nextRun;
    ls, t := ls + [Start], Apply(t, Start);
  }

  lemma ReadFindsIt(s: State, r: nat, c: ClientId) returns (l: Label, t: State)
    requires Reachable(s) && AtRead(s, r) && s.runs[r].at == s.now && c in s.store && IsDue(s.store[c], s.now)
    ensures Enabled(s, l) && Alone(l) && t == Apply(s, l) && Reachable(t)
    ensures t.now == s.now && Kept(s, t) && AtSend(t, r) && SendsNow(s, t, 1)
    ensures t.runs[r].item == s.store[c] || s.store[c] in t.runs[r].rest
  {
    l := DrainIsNeverStuck(s, r);
    var snapshot := l.snapshot;
    assert s.store[c] in snapshot;
    ReachableStep(s, l);
    t := Apply(s, l);
    assert snapshot == [snapshot[0]] + snapshot[1..];
  }

  lemma SendsGoOn(s: State, m: State, t: State)
    requires SendsNow(s, m, 1) && SendsNow(m, t, 0) && t.now == m.now
    ensures SendsNow(s, t, 1)
  {
  }

  lemma ReadSends(s: State, r: nat, c: ClientId) returns (ls: seq<Label>, t: State)
    requires Reachable(s) && AtRead(s, r) && s.runs[r].at == s.now && c in s.store && IsDue(s.store[c], s.now)
    ensures Valid(s, ls) && t == After(s, ls) && AllAlone(ls) && Reachable(t)
    ensures t.now == s.now && Kept(s, t) && AtSend(t, r) && t.runs[r].item == s.store[c] && SendsNow(s, t, 1)
  {
    var l, n := ReadFindsIt(s, r, c);
    RunSnoc(s, [], l);
    var ms: seq<Label>;
    ms, t := WalkTo(n, r, s.store[c]);
    SendsGoOn(s, n, t);
    RunAppend(s, [] + [l], ms);
    ls := [] + [l] + ms;
  }

  lemma PageSends(s: State, c: ClientId) returns (ls: seq<Label>, t: State, r: nat)
    requires Reachable(s) && s.runs == map[] && s.draining.None? && !s.started && c in s.store && !s.store[c].failed
    ensures Valid(s, ls) && t == After(s, ls) && AllAlone(ls) && Reachable(t)
    ensures IsDue(s.store[c], s.now) ==> t.now == s.now
    ensures Kept(s, t) && AtSend(t, r) && t.runs[r].item == s.store[c] && SendsNow(s, t, 1)
  {
    var ks, m: State;
    ks, m, r := OpenPage(s, c);
    var ms, u := ReadSends(m, r, c);
    RunAppend(s, ks, ms);
    ls, t := ks + ms, u;
  }

  /** From every state each capture still to be tried can be sent: the page is opened anew when it is due. */
  lemma PendingCanBeSent(s: State, c: ClientId) returns (ls: seq<Label>, t: State, r: nat)
    requires Reachable(s) && c in s.store && !s.store[c].failed
    ensures Valid(s, ls) && t == After(s, ls) && AllAlone(ls) && Reachable(t)
    ensures ls != [] && ls[0] == Reload
    ensures IsDue(s.store[c], s.now) ==> t.now == s.now
    ensures t.captured == s.captured && t.written == s.written && t.acked == s.acked && t.dropped == s.dropped
    ensures t.cuts == s.cuts + multiset(AllInFlight(s))
    ensures AtSend(t, r) && t.runs[r].item == s.store[c] && SendsNow(s, t, 1)
  {
    ReachableStep(s, Reload);
    RunSnoc(s, [], Reload);
    var m := Apply(s, Reload);
    var ms, u: State;
    ms, u, r := PageSends(m, c);
    RunAppend(s, [] + [Reload], ms);
    ls, t := [] + [Reload] + ms, u;
  }

  lemma SentItemIsDue(s: State, r: nat)
    requires Reachable(s) && AtSend(s, r)
    ensures
      var item := s.runs[r].item;
      && item.clientId in s.store && s.store[item.clientId] == item && IsDue(item, s.now)
      && AllInFlight(s) == {item.clientId}
  {
    ReachableInv(s);
    assert RunCurrent(s.store, s.now, s.log, s.runs[r]);
  }

  /**
   * Why interruptions do not count: wherever an upload waits for its answer, a page reload
   * forgets the attempt, and the next page can send the very same item again with no time passed.
   */
  lemma ReloadResendsAtOnce(s: State, r: nat) returns (ls: seq<Label>, t: State, q: nat)
    requires Reachable(s) && AtSend(s, r)
    ensures Valid(s, ls) && t == After(s, ls) && ls != [] && ls[0] == Reload && Reachable(t)
    ensures t.now == s.now && AtSend(t, q) && t.runs[q].item == s.runs[r].item && SendsNow(s, t, 1)
    ensures t.cuts == s.cuts + multiset{s.runs[r].item.clientId}
  {
    SentItemIsDue(s, r);
    ls, t, q := PendingCanBeSent(s, s.runs[r].item.clientId);
  }

  // ---------- Attempts that a reload interrupts ----------

  lemma LastSend(s: State, r: nat)
    requires Reachable(s) && AtSend(s, r)
    ensures s.log != [] && s.log[|s.log| - 1].item == s.runs[r].item
  {
    ReachableInv(s);
    assert RunCurrent(s.store, s.now, s.log, s.runs[r]);
  }

  lemma {:induction false} FirstAtStays(log: seq<Send>, more: seq<Send>, c: ClientId)
    requires log <= more
    ensures CountSends(log, c) <= CountSends(more, c)
    ensures FirstAt(log, c).Some? ==> FirstAt(more, c) == FirstAt(log, c)
    decreases |more|
  {
    if |log| < |more| {
      FirstAtStays(log, more[..|more| - 1], c);
    } else {
      assert log == more;
    }
  }

  lemma SentCounts(log: seq<Send>, c: ClientId)
    requires log != [] && log[|log| - 1].item.clientId == c
    ensures CountSends(log, c) >= 1 && FirstAt(log, c).Some?
  {
  }

  /** No second attempt at the moment of the first keeps any distance. */
  lemma NoDistance(log: seq<Send>, j: nat, k: nat)
    requires j < |log| && k >= 2 && FirstAt(log, log[j].item.clientId) == Some(log[j].at)
    ensures !Spread(log, j, k)
  {
    if k <= 9 { assert Pow2(k - 1) == 2 * Pow2(k - 2); }
  }

  /**
   * The bound that holds without reloads is false with one: wherever a capture's first attempt
   * has just been made, a reload can have its second made at the same moment.
   */
  lemma CutAttemptKeepsNoDistance(s: State, r: nat) returns (ls: seq<Label>, t: State, j: nat)
    requires Reachable(s) && AtSend(s, r) && FirstAt(s.log, s.runs[r].item.clientId) == Some(s.now)
    ensures Valid(s, ls) && t == After(s, ls) && j < |t.log| && t.log[j].item == s.runs[r].item
    ensures t.log[j].at == s.now && CountSends(t.log[..j + 1], t.log[j].item.clientId) >= 2
    ensures !Spread(t.log, j, CountSends(t.log[..j + 1], t.log[j].item.clientId))
  {
    var q: nat, c := 0, s.runs[r].item.clientId;
    LastSend(s, r);
    ls, t, q := ReloadResendsAtOnce(s, r);
    LastSend(t, q);
    j := |t.log| - 1;
    SentCounts(s.log, c);
    FirstAtStays(s.log, t.log[..j], c);
    FirstAtStays(s.log, t.log, c);
    assert t.log[..j + 1] == t.log && t.log[..j + 1][..j] == t.log[..j];
    NoDistance(t.log, j, CountSends(t.log, c));
  }

  lemma CaptureIsStored(now: nat, c: ClientId, bytes: Bytes) returns (ls: seq<Label>, t: State)
    ensures Reached(now, ls, t) && t.log == [] && c in t.store && !t.store[c].failed && t.store[c].clientId == c
    ensures IsDue(t.store[c], t.now)
  {
    var s := Init(now);
    var capture := Capture(c, bytes, "image/jpeg", "");
    RunSnoc(s, [], capture);
    t := Apply(s, capture);
    RunSnoc(s, [] + [capture], Written(c));
    ls, t := [] + [capture] + [Written(c)], Apply(t, Written(c));
  }

  lemma FirstAttempt(now: nat, c: ClientId, bytes: Bytes) returns (ls: seq<Label>, t: State, r: nat)
    ensures Reached(now, ls, t) && AtSend(t, r) && t.runs[r].item.clientId == c && FirstAt(t.log, c) == Some(t.now)
  {
    var ks, m := CaptureIsStored(now, c, bytes);
    assert Reachable(m);
    var ms: seq<Label>;
    ms, t, r := PendingCanBeSent(m, c);
    RunAppend(Init(now), ks, ms);
    ls := ks + ms;
    LastSend(t, r);
    SentCounts(t.log, c);
    FirstIsNow(t.log, c, t.now);
  }

  lemma {:induction false} FirstIsNow(log: seq<Send>, c: ClientId, now: int)
    requires FirstAt(log, c).Some? && forall i | 0 <= i < |log| :: log[i].at == now
    ensures FirstAt(log, c) == Some(now)
  {
    if FirstAt(log[..|log| - 1], c).Some? { FirstIsNow(log[..|log| - 1], c, now); }
  }

  /** Such a run from the start: one capture, sent twice at one moment. */
  lemma SpacingFailsAcrossReloads(now: nat, c: ClientId, bytes: Bytes) returns (ls: seq<Label>, t: State, j: nat)
    ensures Reached(now, ls, t) && j < |t.log| && t.log[j].item.clientId == c
    ensures !Spread(t.log, j, CountSends(t.log[..j + 1], t.log[j].item.clientId))
  {
    var ks, s, r := FirstAttempt(now, c, bytes);
    assert Reachable(s);
    var ms: seq<Label>;
    ms, t, j := CutAttemptKeepsNoDistance(s, r);
    RunAppend(Init(now), ks, ms);
    ls := ks + ms;
  }
}
