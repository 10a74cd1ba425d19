/**
 * The uploader as the object it is: `frontend/app/lib/uploader.ts` method by method, where an
 * `async` method is cut at its `await`s into the segments that run without interruption. Every
 * segment changes the fields exactly as one step of the state machine in module Uploader does,
 * so the object is always in a state that some run of that machine reaches.
 */
module UploaderObject {
  import opened Octets
  import opened Options
  import opened PhotoQueue
  import opened Backoff
  import opened ApiErrors
  import opened U = Uploader
  import opened UploaderTheorems
  import opened UploaderTimer
  import opened UploaderRuns

  class Uploader {
    const photos: Queue
    var now: int
    var status: Status
    var draining: Option<nat>     // names the promise
    var again: bool
    var retryTimer: Option<Timer>
    var started: bool

    // The suspended calls, which the language runtime keeps, and the requests sent.
    var enqueues: map<ClientId, EnqueuePhase>
    var runs: map<nat, Run>
    var nextRun: nat
    var log: seq<Send>

    ghost var captured: map<ClientId, Item>
    ghost var written: set<ClientId>
    ghost var acked: set<ClientId>
    ghost var dropped: set<ClientId>
    ghost var cuts: multiset<ClientId>
    ghost var passes: seq<Pass>
    ghost var counted: bool

    ghost function View(): State
      reads this, photos
    {
      State(now, photos.store, enqueues, runs, nextRun, draining, again, retryTimer, started, status,
            captured, written, acked, dropped, cuts, log, passes, counted)
    }

    ghost predicate Valid()
      reads this, photos
    {
      Reachable(View())
    }

    constructor (now: nat)
      ensures Valid() && fresh(photos) && View() == Init(now)
    {
      photos := new Queue();
      this.now := now;
      status := Status(0, 0, false);
      draining, again, retryTimer, started := None, false, None, false;
      enqueues, runs, nextRun, log := map[], map[], 0, [];
      captured, written, acked, dropped, cuts, passes, counted := map[], {}, {}, {}, multiset{}, [], false;
      new;
      ReachableInit(now);
    }

    // ---------- drain() and the loop of runDrain() ----------

    method Drain()
      modifies this`draining, this`nextRun, this`again, this`runs
      ensures View() == CallDrain(old(View()))
      ensures
        if old(draining).Some? then again && draining == old(draining) && runs == old(runs)
        else draining == Some(old(nextRun)) && runs == old(runs)[old(nextRun) := ReadingDue(now)] && !again
    {
      if draining.Some? {
        again := true;
        return;
      }
      var r := nextRun;
      nextRun := nextRun + 1;
      StartPass(r);
      draining := Some(r);
    }

    method StartPass(r: nat)
      modifies this`again, this`runs
      ensures !again && runs == old(runs)[r := ReadingDue(now)]
    {
      again := false;
      runs := runs[r := ReadingDue(now)];
    }

    /** The head of the inner loop, and of the outer one when the inner is done. */
    method Next(r: nat, rest: seq<Item>)
      modifies this`again, this`runs, this`log
      ensures View() == NextItem(old(View()), r, rest)
    {
      if rest != [] {
        runs := runs[r := Sending(rest[0], rest[1..], |log|)];
        log := log + [Send(rest[0], now)];
      } else if again {
        StartPass(r);
      } else {
        runs := runs[r := Recounting];
      }
    }

    /** `queue.due` answers. */
    method DueArrives(r: nat) returns (snapshot: seq<Item>)
      requires Valid() && AtRead(View(), r)
      modifies this`again, this`runs, this`log, this`passes
      ensures Valid()
      ensures CanRead(old(View()), r, snapshot) && View() == ReadArrived(old(View()), r, snapshot)
    {
      StoreIsKeyed(View());
      snapshot := photos.DueItems(runs[r].at);
      ReachableStep(View(), DueRead(r, snapshot));
      passes := passes + [Pass(photos.store, runs[r].at, snapshot, |log|, false)];
      Next(r, snapshot);
    }

    /** `upload` settles: `send` goes on to remove the capture, or handleFailure decides. */
    method UploadSettles(r: nat, outcome: Outcome)
      requires Valid() && CanSettle(View(), r, outcome)
      modifies this`runs
      ensures Valid() && View() == SendSettled(old(View()), r, outcome)
    {
      ReachableStep(View(), Settle(r, outcome));
      var Sending(item, rest, _) := runs[r];
      if outcome.Accepted? {
        runs := runs[r := Removing(item, rest, false)];
      } else {
        HandleFailure(r, item, rest, outcome);
      }
    }

    method HandleFailure(r: nat, item: Item, rest: seq<Item>, error: Outcome)
      requires r in runs && runs[r].Sending? && runs[r].item == item && runs[r].rest == rest
      requires !error.Accepted?
      modifies this`runs
      ensures runs == old(runs)[r := AfterUpload(now, old(runs[r]), error)]
    {
      var attempts := item.attempts + 1;
      var message := error.message;
      if error.Refused? && IsLocked(error.status) {
        runs := runs[r := Removing(item, rest, true)];
        return;
      }
      if error.Refused? && IsPermanent(error.status) {
        runs := runs[r := Putting(item.(attempts := attempts, failed := true, lastError := message), rest)];
        return;
      }
      var retry := item.(attempts := attempts, nextAttemptAt := now + BackoffMs(attempts), lastError := message);
      runs := runs[r := Putting(retry, rest)];
    }

    /** The capture leaves the store, and after a 423 the notice goes up. */
    method Forget(clientId: ClientId, tripOver: bool)
      modifies this`dropped, this`acked, this`status, photos
      ensures View() == AfterRemove(old(View()), clientId, tripOver)
    {
      photos.Remove(clientId);
      if tripOver {
        dropped := dropped + {clientId};
        status := status.(notice := true);
      } else {
        acked := acked + {clientId};
      }
    }

    /** `queue.remove` is done. */
    method RemoveDone(r: nat)
      requires Valid() && AtRemove(View(), r)
      modifies this`dropped, this`acked, this`status, this`again, this`runs, this`log, photos
      ensures Valid() && View() == RemoveSeen(old(View()), r)
    {
      ReachableStep(View(), Removed(r));
      var Removing(item, rest, tripOver) := runs[r];
      Forget(item.clientId, tripOver);
      Next(r, rest);
    }

    /** `queue.put` is done. */
    method WriteBackDone(r: nat)
      requires Valid() && AtPut(View(), r)
      modifies this`again, this`runs, this`log, photos
      ensures Valid() && View() == PutSeen(old(View()), r)
    {
      ReachableStep(View(), PutDone(r));
      var Putting(item, rest) := runs[r];
      photos.Put(item);
      Next(r, rest);
    }

    method RefreshCounts()
      requires forall c | c in photos.store :: photos.store[c].clientId == c
      modifies this`status, this`counted
      ensures View() == Recount(old(View()))
    {
      var pending, failed := photos.Counts();
      status := status.(pending := pending, failed := failed);
      counted := true;
    }

    /** The `finally` of runDrain: the counts are in, scheduleNextRetry begins. */
    method CountsArrive(r: nat)
      requires Valid() && AtRecount(View(), r)
      modifies this`status, this`counted, this`retryTimer, this`runs, this`draining
      ensures Valid() && View() == RecountSeen(old(View()), r)
    {
      ReachableStep(View(), Recounted(r));
      StoreIsKeyed(View());
      RefreshCounts();
      BeginScheduling(r);
    }

    /** scheduleNextRetry up to its await. */
    method BeginScheduling(r: nat)
      modifies this`retryTimer, this`runs, this`draining
      ensures
        var s := old(View()).(timer := None);
        View() == if !s.started then Finish(s, r) else s.(runs := s.runs[r := Scheduling])
    {
      retryTimer := None;
      if !started {
        DrainDone(r);
        return;
      }
      runs := runs[r := Scheduling];
    }

    /** `runDrain` has resolved, and the `finally` of `drain` clears the field. */
    method DrainDone(r: nat)
      modifies this`runs, this`draining
      ensures View() == Finish(old(View()), r)
    {
      runs := runs - {r};
      draining := None;
    }

    method SoonestRetry() returns (soonest: Option<int>)
      requires forall c | c in photos.store :: photos.store[c].clientId == c
      ensures soonest.Some? <==> Waiting(photos.store)
      ensures soonest.Some? ==> IsSoonest(photos.store, soonest.value)
    {
      var items := photos.All();
      soonest := Soonest(items);
      SoonestMatchesStore(items, photos.store, soonest);
    }

    /** `queue.all` answers scheduleNextRetry. */
    method AllArrive(r: nat) returns (ghost soonest: int)
      requires Valid() && AtSchedule(View(), r)
      modifies this`retryTimer, this`runs, this`draining
      ensures Valid()
      ensures CanSchedule(old(View()), r, soonest) && View() == ScheduleSeen(old(View()), r, soonest)
      ensures retryTimer.Some? <==> exists c :: c in photos.store && !photos.store[c].failed
      ensures retryTimer.Some? ==> IsAimed(photos.store, now, retryTimer.value)
    {
      StoreIsKeyed(View());
      var least := SoonestRetry();
      soonest := if least.Some? then least.value else 0;
      SchedulingAims(View(), r, soonest);
      Arm(r, least);
    }

    /** `setTimeout` for the earliest retry time, if there is one, and the end of the drain. */
    method Arm(r: nat, soonest: Option<int>)
      modifies this`retryTimer, this`runs, this`draining
      ensures
        var s := old(View());
        var timer := if soonest.None? then s.timer
                     else Some(Timer(s.now, if soonest.value > s.now then soonest.value else s.now));
        View() == Finish(s.(timer := timer), r)
    {
      if soonest.Some? {
        var delay := if soonest.value - now > 0 then soonest.value - now else 0;
        retryTimer := Some(Timer(now, now + delay));
      }
      DrainDone(r);
    }

    // ---------- A drain that nothing disturbs ----------

    /** One turn of the inner loop: the answer takes its time, and its write is done before the next request. */
    method TakeTurn(r: nat, answer: Answer)
      requires Valid() && CanSettle(View(), r, answer.outcome)
      modifies this`now, this`dropped, this`acked, this`status, this`again, this`runs, this`log, photos
      ensures Valid() && View() == Turn(old(View()), r, answer)
    {
      AnswerArrives(r, answer);
      DecisionWritten(r);
    }

    method AnswerArrives(r: nat, answer: Answer)
      requires Valid() && CanSettle(View(), r, answer.outcome)
      modifies this`now, this`runs
      ensures Valid() && View() == Answered(old(View()), r, answer) && (AtRemove(View(), r) || AtPut(View(), r))
    {
      ClockMoves(now + answer.took);
      UploadSettles(r, answer.outcome);
    }

    /** The write that the answer led to is done. */
    method DecisionWritten(r: nat)
      requires Valid() && (AtRemove(View(), r) || AtPut(View(), r))
      modifies this`dropped, this`acked, this`status, this`again, this`runs, this`log, photos
      ensures Valid() && View() == Decided(old(View()), r)
    {
      if runs[r].Removing? {
        RemoveDone(r);
      } else {
        WriteBackDone(r);
      }
    }

    /**
     * A drain that starts idle and is left alone: it sends exactly the due items, once each,
     * oldest first, each when the answer before it has come; what becomes of each is what its own
     * answer says at the time it comes; every other item is untouched; and it ends idle.
     */
    method DrainAlone(answers: ClientId -> Answer) returns (snapshot: seq<Item>)
      requires Valid() && draining.None? && Settles(answers)
      modifies this`now, this`draining, this`nextRun, this`again, this`runs, this`log, this`passes, this`retryTimer
      modifies this`dropped, this`acked, this`status, this`counted, photos
      ensures Valid() && draining.None? && !again
      ensures IsDueSnapshot(old(photos.store), old(now), snapshot)
      ensures Drained(old(View()), View(), snapshot, answers)
    {
      ghost var s0 := View();
      var r := nextRun;
      snapshot := BeginDrain(answers);
      SendAll(s0, r, snapshot, answers);
      EndDrain(r);
    }

    method BeginDrain(ghost answers: ClientId -> Answer) returns (snapshot: seq<Item>)
      requires Valid() && draining.None?
      modifies this`draining, this`nextRun, this`again, this`runs, this`log, this`passes
      ensures Valid() && IsDueSnapshot(old(photos.store), old(now), snapshot)
      ensures Midway(old(View()), View(), old(nextRun), snapshot, answers, 0)
    {
      ghost var s0 := View();
      var r := nextRun;
      OnTrigger();
      snapshot := DueArrives(r);
      DrainBegins(s0, snapshot, answers);
    }

    /** The loop over the due items; `s0` is the state before the drain. */
    method SendAll(ghost s0: State, r: nat, snapshot: seq<Item>, answers: ClientId -> Answer)
      requires Settles(answers)
      requires Valid() && Midway(s0, View(), r, snapshot, answers, 0)
      modifies this`now, this`dropped, this`acked, this`status, this`again, this`runs, this`log, photos
      ensures Valid() && AtRecount(View(), r) && !again && Drained(s0, View(), snapshot, answers)
    {
      for k := 0 to |snapshot|
        invariant Valid() && Midway(s0, View(), r, snapshot, answers, k)
      {
        MidwayStep(s0, View(), r, snapshot, answers, k);
        TakeTurn(r, answers(snapshot[k].clientId));
      }
      AllSent(s0, View(), r, snapshot, answers);
    }

    /** The `finally` of runDrain, undisturbed. */
    method EndDrain(r: nat)
      requires Valid() && AtRecount(View(), r) && !again
      modifies this`status, this`counted, this`retryTimer, this`runs, this`draining
      ensures Valid() && draining.None?
    {
      CountsArrive(r);
      if draining.Some? {
        ghost var soonest := AllArrive(r);
      }
    }

    // ---------- enqueue() ----------

    method Enqueue(clientId: ClientId, bytes: Bytes, blobType: string, takenAt: string) returns (pending: Item)
      requires Valid() && clientId !in captured
      modifies this`enqueues, this`captured
      ensures Valid() && IsCapture(pending, clientId, bytes, blobType, takenAt) && Untried(pending)
      ensures captured == old(captured)[clientId := pending] && enqueues == old(enqueues)[clientId := Writing]
      ensures View() == Capturing(old(View()), clientId, bytes, blobType, takenAt)
    {
      ReachableStep(View(), Capture(clientId, bytes, blobType, takenAt));
      pending := FreshItem(clientId, bytes, blobType, takenAt);
      captured := captured[clientId := pending];
      enqueues := enqueues[clientId := Writing];
    }

    /** The durable write is done; `pending` is the suspended call's local variable. */
    method WriteDone(pending: Item)
      requires Valid() && CanWrite(View(), pending.clientId) && captured[pending.clientId] == pending
      modifies this`enqueues, this`written, photos
      ensures Valid() && View() == CaptureStored(old(View()), pending.clientId)
    {
      ReachableStep(View(), Written(pending.clientId));
      photos.Put(pending);
      written := written + {pending.clientId};
      enqueues := enqueues[pending.clientId := Tallying];
    }

    /** The counts are in, and the drain is called but not awaited. */
    method EnqueueDone(clientId: ClientId)
      requires Valid() && clientId in enqueues && enqueues[clientId].Tallying?
      modifies this`enqueues, this`status, this`counted, this`draining, this`nextRun, this`again, this`runs
      ensures Valid() && View() == CaptureTallied(old(View()), clientId)
    {
      ReachableStep(View(), Tallied(clientId));
      StoreIsKeyed(View());
      enqueues := enqueues - {clientId};
      RefreshCounts();
      Drain();
    }

    // ---------- Triggers ----------

    method Start()
      requires Valid()
      modifies this`started, this`draining, this`nextRun, this`again, this`runs
      ensures Valid() && View() == Starting(old(View()))
      ensures started && (if old(started) then View() == old(View()) else draining.Some?)
    {
      ReachableStep(View(), U.Start);
      if started {
        return;
      }
      started := true;
      Drain();
    }

    method Stop()
      requires Valid()
      modifies this`started, this`retryTimer
      ensures Valid() && View() == Stopping(old(View()))
      ensures !started && (old(started) ==> retryTimer.None?)
    {
      ReachableStep(View(), U.Stop);
      if !started {
        return;
      }
      started := false;
      retryTimer := None;
    }

    /** Reconnecting, coming back to the tab, and the sweep. */
    method OnTrigger()
      requires Valid()
      modifies this`draining, this`nextRun, this`again, this`runs
      ensures Valid() && View() == CallDrain(old(View()))
    {
      ReachableStep(View(), Trigger);
      Drain();
    }

    method TimerFires()
      requires Valid() && retryTimer.Some? && retryTimer.value.fireAt <= now
      modifies this`retryTimer, this`draining, this`nextRun, this`again, this`runs
      ensures Valid() && View() == Firing(old(View()))
      ensures retryTimer.None? && draining.Some? && (old(draining).Some? ==> draining == old(draining) && again)
    {
      ReachableStep(View(), Fire);
      retryTimer := None;
      Drain();
    }

    method DismissMessage()
      requires Valid()
      modifies this`status
      ensures Valid() && View() == Dismissing(old(View()))
      ensures status == old(status).(notice := false)
    {
      ReachableStep(View(), Dismiss);
      status := status.(notice := false);
    }

    method ClockMoves(to: int)
      requires Valid() && now <= to
      modifies this`now
      ensures Valid() && View() == old(View()).(now := to)
    {
      ReachableStep(View(), Tick(to));
      now := to;
    }
  }

  // ---------- What an undisturbed drain does ----------

  /** An upload's outcome and how long it takes to come. */
  datatype Answer = Answer(outcome: Outcome, took: nat)

  /** Every answer that is an error carries an error status. */
  ghost predicate Settles(answers: ClientId -> Answer) {
    forall c :: answers(c).outcome.Refused? ==> !(200 <= answers(c).outcome.status <= 299)
  }

  /** What the answer to an item's upload leaves of it. */
  function ItemAfter(item: Item, now: int, outcome: Outcome): Option<Item> {
    var run := AfterUpload(now, Sending(item, [], 0), outcome);
    if run.Putting? then Some(run.item) else None
  }

  function StoreAfter(store: Store, item: Item, now: int, outcome: Outcome): Store {
    var left := ItemAfter(item, now, outcome);
    if left.Some? then store[item.clientId := left.value] else store - {item.clientId}
  }

  /** When the last of these answers has come. */
  function ClockAfter(items: seq<Item>, now: int, answers: ClientId -> Answer): int {
    if items == [] then now
    else ClockAfter(items[..|items| - 1], now, answers) + answers(items[|items| - 1].clientId).took
  }

  function StoreAfterAll(store: Store, items: seq<Item>, now: int, answers: ClientId -> Answer): Store {
    if items == [] then store
    else
      var n := |items| - 1;
      StoreAfter(StoreAfterAll(store, items[..n], now, answers), items[n], ClockAfter(items, now, answers),
                 answers(items[n].clientId).outcome)
  }

  function SendsOf(items: seq<Item>, now: int, answers: ClientId -> Answer): seq<Send> {
    if items == [] then []
    else
      var n := |items| - 1;
      SendsOf(items[..n], now, answers) + [Send(items[n], ClockAfter(items[..n], now, answers))]
  }

  /** The items were sent one after the other, and each was left as its answer says. */
  ghost predicate Drained(s0: State, s: State, items: seq<Item>, answers: ClientId -> Answer) {
    && s.now == ClockAfter(items, s0.now, answers)
    && s.store == StoreAfterAll(s0.store, items, s0.now, answers)
    && s.log == s0.log + SendsOf(items, s0.now, answers)
  }

  lemma LastMeetsItsAnswer(items: seq<Item>, now: int, answers: ClientId -> Answer, i: nat)
    requires i < |items|
    ensures
      ClockAfter(items[..i + 1], now, answers) ==
      if i == |items| - 1 then ClockAfter(items, now, answers)
      else ClockAfter(items[..|items| - 1][..i + 1], now, answers)
  {
    if i == |items| - 1 {
      assert items[..i + 1] == items;
    } else {
      assert items[..|items| - 1][..i + 1] == items[..i + 1];
    }
  }

  /** Each item of the snapshot is left as its own answer says at the time it comes, and no other item changes. */
  lemma {:induction false} EachItemMeetsItsAnswer(store: Store, items: seq<Item>, now: int,
                                                  answers: ClientId -> Answer, c: ClientId)
    requires DistinctIds(items)
    ensures
      var after := StoreAfterAll(store, items, now, answers);
      && (forall i | 0 <= i < |items| && items[i].clientId == c ::
            var left := ItemAfter(items[i], ClockAfter(items[..i + 1], now, answers), answers(c).outcome);
            if left.Some? then c in after && after[c] == left.value else c !in after)
      && ((forall i | 0 <= i < |items| :: items[i].clientId != c) ==>
            (c in after <==> c in store) && (c in store ==> after[c] == store[c]))
  {
    if items != [] {
      EachItemMeetsItsAnswer(store, items[..|items| - 1], now, answers, c);
      forall i: nat | i < |items| && items[i].clientId == c
        ensures
          var left := ItemAfter(items[i], ClockAfter(items[..i + 1], now, answers), answers(c).outcome);
          var after := StoreAfterAll(store, items, now, answers);
          if left.Some? then c in after && after[c] == left.value else c !in after
      {
        LastMeetsItsAnswer(items, now, answers, i);
      }
    }
  }

  /** The answer of an upload, the write it leads to, and the next request. */
  ghost function Turn(s: State, r: nat, answer: Answer): State
    requires AtSend(s, r)
  {
    Decided(Answered(s, r, answer), r)
  }

  function Answered(s: State, r: nat, answer: Answer): State
    requires AtSend(s, r)
  {
    SendSettled(s.(now := s.now + answer.took), r, answer.outcome)
  }

  function Decided(s: State, r: nat): State
    requires AtRemove(s, r) || AtPut(s, r)
  {
    if s.runs[r].Removing? then RemoveSeen(s, r) else PutSeen(s, r)
  }

  /** A drain from `s0` that has finished `k` of its items, undisturbed. */
  ghost predicate Midway(s0: State, s: State, r: nat, items: seq<Item>, answers: ClientId -> Answer, k: nat)
    requires k <= |items|
  {
    && s.now == ClockAfter(items[..k], s0.now, answers)
    && s.store == StoreAfterAll(s0.store, items[..k], s0.now, answers)
    && !s.again && r in s.runs
    && (if k == |items| then s.runs[r] == Recounting && s.log == s0.log + SendsOf(items, s0.now, answers)
        else
          && s.log == s0.log + SendsOf(items[..k + 1], s0.now, answers)
          && s.runs[r].Sending? && s.runs[r].item == items[k] && s.runs[r].rest == items[k + 1..])
  }

  lemma SendsOfNext(items: seq<Item>, now: int, answers: ClientId -> Answer, k: nat)
    requires k < |items|
    ensures SendsOf(items[..k + 1], now, answers) ==
            SendsOf(items[..k], now, answers) + [Send(items[k], ClockAfter(items[..k], now, answers))]
  {
    assert items[..k + 1][..k] == items[..k];
  }

  lemma DrainBegins(s0: State, items: seq<Item>, answers: ClientId -> Answer)
    requires s0.draining.None? && CanRead(CallDrain(s0), s0.nextRun, items)
    ensures Midway(s0, ReadArrived(CallDrain(s0), s0.nextRun, items), s0.nextRun, items, answers, 0)
    ensures IsDueSnapshot(s0.store, s0.now, items)
  {
    if items != [] {
      SendsOfNext(items, s0.now, answers, 0);
      assert items[..0] == [] && s0.log + [Send(items[0], s0.now)] == s0.log + ([] + [Send(items[0], s0.now)]);
    } else {
      assert s0.log + [] == s0.log;
    }
  }

  /** The loop has moved on from a written item to `rest`; nothing else wants the drain's attention. */
  ghost predicate MovedOn(s: State, t: State, r: nat, rest: seq<Item>) {
    && t.now == s.now && !t.again && r in t.runs
    && (if rest == [] then t.runs[r] == Recounting && t.log == s.log
        else
          && t.log == s.log + [Send(rest[0], s.now)]
          && t.runs[r].Sending? && t.runs[r].item == rest[0] && t.runs[r].rest == rest[1..])
  }

  lemma NextMovesOn(s: State, r: nat, rest: seq<Item>)
    requires !s.again
    ensures MovedOn(s, NextItem(s, r, rest), r, rest) && NextItem(s, r, rest).store == s.store
  {
  }

  lemma SettleIs(s: State, r: nat, outcome: Outcome)
    requires AtSend(s, r)
    ensures
      var run := SendSettled(s, r, outcome).runs[r];
      var left := ItemAfter(s.runs[r].item, s.now, outcome);
      && run.rest == s.runs[r].rest
      && (if left.Some? then run.Putting? && run.item == left.value && run.item.clientId == s.runs[r].item.clientId
          else run.Removing? && run.item == s.runs[r].item)
  {
  }

  lemma DecidedIs(s: State, r: nat)
    requires (AtRemove(s, r) || AtPut(s, r)) && !s.again
    ensures MovedOn(s, Decided(s, r), r, s.runs[r].rest)
    ensures
      var item := s.runs[r].item;
      Decided(s, r).store == if s.runs[r].Removing? then s.store - {item.clientId} else s.store[item.clientId := item]
  {
    if AtRemove(s, r) {
      NextMovesOn(RemoveCommitted(s, r), r, s.runs[r].rest);
    } else {
      NextMovesOn(PutCommitted(s, r), r, s.runs[r].rest);
    }
  }

  lemma TurnIs(s: State, r: nat, answer: Answer)
    requires AtSend(s, r) && !s.again
    ensures
      var later := s.(now := s.now + answer.took);
      && Turn(s, r, answer).store == StoreAfter(s.store, s.runs[r].item, later.now, answer.outcome)
      && MovedOn(later, Turn(s, r, answer), r, s.runs[r].rest)
  {
    var later := s.(now := s.now + answer.took);
    SettleIs(later, r, answer.outcome);
    DecidedIs(SendSettled(later, r, answer.outcome), r);
  }

  lemma MidwayClockAndStore(s0: State, s: State, r: nat, items: seq<Item>, answers: ClientId -> Answer, k: nat)
    requires k < |items| && Midway(s0, s, r, items, answers, k)
    ensures
      var answer := answers(items[k].clientId);
      && ClockAfter(items[..k + 1], s0.now, answers) == s.now + answer.took
      && StoreAfterAll(s0.store, items[..k + 1], s0.now, answers) ==
         StoreAfter(s.store, items[k], s.now + answer.took, answer.outcome)
  {
    assert items[..k + 1][..k] == items[..k];
  }

  lemma MidwayLog(items: seq<Item>, now: int, answers: ClientId -> Answer, k: nat, log: seq<Send>, base: seq<Send>)
    requires k < |items| && log == base + SendsOf(items[..k + 1], now, answers)
    ensures
      if k + 1 == |items| then log == base + SendsOf(items, now, answers)
      else log + [Send(items[k + 1], ClockAfter(items[..k + 1], now, answers))] ==
           base + SendsOf(items[..k + 2], now, answers)
  {
    if k + 1 == |items| {
      assert items[..k + 1] == items;
    } else {
      SendsOfNext(items, now, answers, k + 1);
    }
  }

  lemma MidwayStep(s0: State, s: State, r: nat, items: seq<Item>, answers: ClientId -> Answer, k: nat)
    requires k < |items| && Settles(answers) && Midway(s0, s, r, items, answers, k)
    ensures CanSettle(s, r, answers(items[k].clientId).outcome)
    ensures Midway(s0, Turn(s, r, answers(items[k].clientId)), r, items, answers, k + 1)
  {
    TurnIs(s, r, answers(items[k].clientId));
    MidwayClockAndStore(s0, s, r, items, answers, k);
    MidwayLog(items, s0.now, answers, k, s.log, s0.log);
  }

  lemma AllSent(s0: State, s: State, r: nat, items: seq<Item>, answers: ClientId -> Answer)
    requires Midway(s0, s, r, items, answers, |items|)
    ensures Drained(s0, s, items, answers)
  {
    assert items[..|items|] == items;
  }

  // ---------- scheduleNextRetry ----------

  /** `Math.min` over the retry times of the items that have not failed; nothing without any. */
  method Soonest(items: seq<Item>) returns (soonest: Option<int>)
    ensures soonest.None? <==> forall i | 0 <= i < |items| :: items[i].failed
    ensures soonest.Some? ==>
      && (exists i :: 0 <= i < |items| && !items[i].failed && items[i].nextAttemptAt == soonest.value)
      && (forall i | 0 <= i < |items| && !items[i].failed :: soonest.value <= items[i].nextAttemptAt)
  {
    soonest := None;
    for k := 0 to |items|
      invariant soonest.None? <==> forall i | 0 <= i < k :: items[i].failed
      invariant soonest.Some? ==>
        && (exists i :: 0 <= i < k && !items[i].failed && items[i].nextAttemptAt == soonest.value)
        && (forall i | 0 <= i < k && !items[i].failed :: soonest.value <= items[i].nextAttemptAt)
    {
      if !items[k].failed && (soonest.None? || items[k].nextAttemptAt < soonest.value) {
        soonest := Some(items[k].nextAttemptAt);
      }
    }
  }

  lemma SoonestMatchesStore(items: seq<Item>, store: Store, soonest: Option<int>)
    requires Enumerates(items, store)
    requires soonest.None? <==> forall i | 0 <= i < |items| :: items[i].failed
    requires soonest.Some? ==>
      && (exists i :: 0 <= i < |items| && !items[i].failed && items[i].nextAttemptAt == soonest.value)
      && (forall i | 0 <= i < |items| && !items[i].failed :: soonest.value <= items[i].nextAttemptAt)
    ensures soonest.Some? <==> Waiting(store)
    ensures soonest.Some? ==> IsSoonest(store, soonest.value)
  {
    forall c | c in store && !store[c].failed
      ensures soonest.Some? && soonest.value <= store[c].nextAttemptAt
    {
      assert store[c] in items;
    }
    if soonest.Some? {
      var i :| 0 <= i < |items| && !items[i].failed && items[i].nextAttemptAt == soonest.value;
      assert store[items[i].clientId] == items[i];
    }
  }
}
