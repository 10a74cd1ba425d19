/**
 * The background uploader (frontend/app/lib/uploader.ts) as a state machine whose
 * steps are the code between two `await`s. An IndexedDB request takes effect and its
 * continuation runs in one step: by section 2.7.2 of the W3C Indexed Database API a
 * request created before an overlapping write finishes before that write starts, and
 * the reverse, so no overlapping write falls between a result and its continuation.
 */
module Uploader {
  import opened Octets
  import opened Options
  import opened PhotoQueue
  import opened Backoff
  import opened ApiErrors

  /** How the promise returned by `photoService.upload` settles. */
  datatype Outcome =
    | Accepted                                // 2xx: stored now, or stored before
    | Refused(status: int, message: string)   // an ApiError
    | Unreachable(message: string)            // the network failed, or the body did not parse

  /** Where an unfinished `enqueue` call is waiting. */
  datatype EnqueuePhase = Writing | Tallying

  /** Where an unfinished `runDrain` call is waiting. */
  datatype Run =
    | ReadingDue(at: int)                                       // queue.due(at)
    | Sending(item: Item, rest: seq<Item>, request: nat)        // upload(item)
    | Removing(item: Item, rest: seq<Item>, tripOver: bool)     // queue.remove(item.clientId)
    | Putting(item: Item, rest: seq<Item>)                      // queue.put(item)
    | Recounting                                                // refreshCounts()
    | Scheduling                                                // queue.all() in scheduleNextRetry()

  datatype Timer = Timer(armedAt: int, fireAt: int)

  /** `notice` says whether the "photos were lost" message is showing. */
  datatype Status = Status(pending: nat, failed: nat, notice: bool)

  /** One call of `upload`: what was sent and when. */
  datatype Send = Send(item: Item, at: int)

  /** One turn of the do/while loop: the store it read, what it found due, and its first send. */
  datatype Pass = Pass(store: Store, at: int, snapshot: seq<Item>, first: nat, cut: bool)

  datatype State = State(
    now: int,
    store: Store,
    enqueues: map<ClientId, EnqueuePhase>,
    runs: map<nat, Run>, nextRun: nat, draining: Option<nat>, again: bool,
    timer: Option<Timer>, started: bool, status: Status,
    // History: it is read by no step's guard but the freshness of client ids.
    captured: map<ClientId, Item>,   // every capture handed to enqueue
    written: set<ClientId>,          // captures whose durable write finished
    acked: set<ClientId>,            // removed after a 2xx
    dropped: set<ClientId>,          // removed after a 423
    cuts: multiset<ClientId>,        // how often a page reload interrupted each capture's upload
    log: seq<Send>,
    passes: seq<Pass>,
    counted: bool)                   // refreshCounts has finished since the page loaded

  function Init(now: int): State {
    State(now, map[], map[], map[], 0, None, false, None, false, Status(0, 0, false),
          map[], {}, {}, {}, multiset{}, [], [], false)
  }

  datatype Label =
    | Tick(to: int)
    | Start | Stop | Trigger | Dismiss | Fire | Reload
    | Capture(clientId: ClientId, bytes: Bytes, blobType: string, takenAt: string)
    | Written(clientId: ClientId)
    | Tallied(clientId: ClientId)
    | DueRead(run: nat, snapshot: seq<Item>)
    | Settle(run: nat, outcome: Outcome)
    | Removed(run: nat)
    | PutDone(run: nat)
    | RemovedUnseen(run: nat)      // the write commits, and the page is gone before it hears of it
    | PutUnseen(run: nat)
    | Recounted(run: nat)
    | Scheduled(run: nat, soonest: int)

  ghost predicate Waiting(store: Store) {
    exists c :: c in store && !store[c].failed
  }

  /** `soonest` is the earliest retry time among the items still to be tried. */
  ghost predicate IsSoonest(store: Store, soonest: int) {
    && (exists c :: c in store && !store[c].failed && store[c].nextAttemptAt == soonest)
    && (forall c | c in store && !store[c].failed :: soonest <= store[c].nextAttemptAt)
  }

  // Where a drain waits.

  predicate AtRead(s: State, r: nat) { r in s.runs && s.runs[r].ReadingDue? }

  predicate AtSend(s: State, r: nat) { r in s.runs && s.runs[r].Sending? }

  predicate AtRemove(s: State, r: nat) { r in s.runs && s.runs[r].Removing? }

  predicate AtPut(s: State, r: nat) { r in s.runs && s.runs[r].Putting? }

  predicate AtRecount(s: State, r: nat) { r in s.runs && s.runs[r].Recounting? }

  predicate AtSchedule(s: State, r: nat) { r in s.runs && s.runs[r].Scheduling? }

  ghost predicate CanRead(s: State, r: nat, snapshot: seq<Item>) {
    AtRead(s, r) && IsDueSnapshot(s.store, s.runs[r].at, snapshot)
  }

  predicate CanSettle(s: State, r: nat, outcome: Outcome) {
    AtSend(s, r) && (outcome.Refused? ==> !(200 <= outcome.status <= 299))
  }

  predicate CanWrite(s: State, c: ClientId) {
    c in s.enqueues && s.enqueues[c].Writing? && c in s.captured
  }

  ghost predicate CanSchedule(s: State, r: nat, soonest: int) {
    AtSchedule(s, r) && (Waiting(s.store) ==> IsSoonest(s.store, soonest))
  }

  ghost predicate Enabled(s: State, l: Label) {
    match l
    case Tick(to) => s.now <= to
    case Start => true
    case Stop => true
    case Trigger => true
    case Dismiss => true
    case Reload => true
    case Fire => s.timer.Some? && s.timer.value.fireAt <= s.now
    case Capture(c, _, _, _) => c !in s.captured
    case Written(c) => CanWrite(s, c)
    case Tallied(c) => c in s.enqueues && s.enqueues[c].Tallying?
    case DueRead(r, snapshot) => CanRead(s, r, snapshot)
    case Settle(r, outcome) => CanSettle(s, r, outcome)
    case Removed(r) => AtRemove(s, r)
    case PutDone(r) => AtPut(s, r)
    case RemovedUnseen(r) => AtRemove(s, r)
    case PutUnseen(r) => AtPut(s, r)
    case Recounted(r) => AtRecount(s, r)
    case Scheduled(r, soonest) => CanSchedule(s, r, soonest)
  }

  /** `drain()` up to its first await: fold into the running drain, or start one. */
  function CallDrain(s: State): State {
    if s.draining.Some? then s.(again := true)
    else s.(draining := Some(s.nextRun), nextRun := s.nextRun + 1, again := false,
            runs := s.runs[s.nextRun := ReadingDue(s.now)])
  }

  /** The head of the inner loop: send the next item, take another pass, or leave the loop. */
  function NextItem(s: State, r: nat, rest: seq<Item>): State {
    if rest != [] then
      s.(log := s.log + [Send(rest[0], s.now)],
         runs := s.runs[r := Sending(rest[0], rest[1..], |s.log|)])
    else if s.again then
      s.(again := false, runs := s.runs[r := ReadingDue(s.now)])
    else
      s.(runs := s.runs[r := Recounting])
  }

  /** `runDrain` has resolved, and `drain`'s `finally` clears the field. */
  function Finish(s: State, r: nat): State {
    s.(runs := s.runs - {r}, draining := None)
  }

  function Recount(s: State): State {
    s.(status := s.status.(pending := PendingCount(s.store), failed := FailedCount(s.store)), counted := true)
  }

  /** `send`'s continuation and `handleFailure` up to its await. */
  function AfterUpload(now: int, run: Run, outcome: Outcome): Run
    requires run.Sending?
  {
    var item, rest := run.item, run.rest;
    match outcome
    case Accepted => Removing(item, rest, false)
    case Refused(status, message) =>
      if IsLocked(status) then Removing(item, rest, true)
      else if IsPermanent(status) then
        Putting(item.(attempts := item.attempts + 1, failed := true, lastError := message), rest)
      else Putting(Retry(item, now, message), rest)
    case Unreachable(message) => Putting(Retry(item, now, message), rest)
  }

  function Retry(item: Item, now: int, message: string): Item {
    item.(attempts := item.attempts + 1, nextAttemptAt := now + BackoffMs(item.attempts + 1), lastError := message)
  }

  /** A capture has left the store: on a 423 the user is told, after a 2xx nobody needs to be. */
  function AfterRemove(s: State, c: ClientId, tripOver: bool): State {
    if tripOver then s.(store := s.store - {c}, dropped := s.dropped + {c}, status := s.status.(notice := true))
    else s.(store := s.store - {c}, acked := s.acked + {c})
  }

  function WriteBack(s: State, item: Item): State {
    s.(store := s.store[item.clientId := item])
  }

  function BeginPass(s: State, at: int, snapshot: seq<Item>): State {
    s.(passes := s.passes + [Pass(s.store, at, snapshot, |s.log|, false)])
  }

  /** A reload leaves the database, and nothing of the page. */
  function NewPage(s: State): State {
    s.(enqueues := map[], runs := map[], draining := None, again := false, timer := None,
       started := false, status := Status(0, 0, false), counted := false)
  }

  function CutLast(passes: seq<Pass>): seq<Pass> {
    if passes == [] then [] else passes[|passes| - 1 := passes[|passes| - 1].(cut := true)]
  }

  /** The captures in the hands of a drain: sent, and the answer not yet recorded in the store. */
  function InFlight(run: Run): set<ClientId> {
    if run.Sending? || run.Removing? || run.Putting? then {run.item.clientId} else {}
  }

  ghost function AllInFlight(s: State): set<ClientId> {
    set r, c | r in s.runs && c in InFlight(s.runs[r]) :: c
  }

  // ---------- The steps ----------

  function Starting(s: State): State {
    if s.started then s else CallDrain(s.(started := true))
  }

  function Stopping(s: State): State {
    if !s.started then s else s.(started := false, timer := None)
  }

  function Dismissing(s: State): State {
    s.(status := s.status.(notice := false))
  }

  function Firing(s: State): State {
    CallDrain(s.(timer := None))
  }

  ghost function Reloading(s: State): State {
    NewPage(s.(cuts := s.cuts + multiset(AllInFlight(s)),
               passes := if AllInFlight(s) == {} then s.passes else CutLast(s.passes)))
  }

  function Capturing(s: State, c: ClientId, bytes: Bytes, blobType: string, takenAt: string): State {
    s.(captured := s.captured[c := FreshItem(c, bytes, blobType, takenAt)], enqueues := s.enqueues[c := Writing])
  }

  function CaptureStored(s: State, c: ClientId): State
    requires c in s.captured
  {
    s.(store := s.store[c := s.captured[c]], written := s.written + {c}, enqueues := s.enqueues[c := Tallying])
  }

  function CaptureTallied(s: State, c: ClientId): State {
    CallDrain(Recount(s.(enqueues := s.enqueues - {c})))
  }

  function ReadArrived(s: State, r: nat, snapshot: seq<Item>): State
    requires AtRead(s, r)
  {
    NextItem(BeginPass(s, s.runs[r].at, snapshot), r, snapshot)
  }

  function SendSettled(s: State, r: nat, outcome: Outcome): State
    requires AtSend(s, r)
  {
    s.(runs := s.runs[r := AfterUpload(s.now, s.runs[r], outcome)])
  }

  function RemoveCommitted(s: State, r: nat): State
    requires AtRemove(s, r)
  {
    AfterRemove(s, s.runs[r].item.clientId, s.runs[r].tripOver)
  }

  function PutCommitted(s: State, r: nat): State
    requires AtPut(s, r)
  {
    WriteBack(s, s.runs[r].item)
  }

  function RemoveSeen(s: State, r: nat): State
    requires AtRemove(s, r)
  {
    NextItem(RemoveCommitted(s, r), r, s.runs[r].rest)
  }

  function PutSeen(s: State, r: nat): State
    requires AtPut(s, r)
  {
    NextItem(PutCommitted(s, r), r, s.runs[r].rest)
  }

  function RemoveNotSeen(s: State, r: nat): State
    requires AtRemove(s, r)
  {
    NewPage(RemoveCommitted(s, r).(passes := CutLast(s.passes)))
  }

  function PutNotSeen(s: State, r: nat): State
    requires AtPut(s, r)
  {
    NewPage(PutCommitted(s, r).(passes := CutLast(s.passes)))
  }

  function RecountSeen(s: State, r: nat): State {
    var t := Recount(s).(timer := None);
    if !t.started then Finish(t, r) else t.(runs := t.runs[r := Scheduling])
  }

  ghost function ScheduleSeen(s: State, r: nat, soonest: int): State {
    Finish(if Waiting(s.store) then s.(timer := Some(Timer(s.now, if soonest > s.now then soonest else s.now)))
           else s, r)
  }

  ghost function Apply(s: State, l: Label): State
    requires Enabled(s, l)
  {
    match l
    case Tick(to) => s.(now := to)
    case Start => Starting(s)
    case Stop => Stopping(s)
    case Trigger => CallDrain(s)
    case Dismiss => Dismissing(s)
    case Fire => Firing(s)
    case Reload => Reloading(s)
    case Capture(c, bytes, blobType, takenAt) => Capturing(s, c, bytes, blobType, takenAt)
    case Written(c) => CaptureStored(s, c)
    case Tallied(c) => CaptureTallied(s, c)
    case DueRead(r, snapshot) => ReadArrived(s, r, snapshot)
    case Settle(r, outcome) => SendSettled(s, r, outcome)
    case Removed(r) => RemoveSeen(s, r)
    case PutDone(r) => PutSeen(s, r)
    case RemovedUnseen(r) => RemoveNotSeen(s, r)
    case PutUnseen(r) => PutNotSeen(s, r)
    case Recounted(r) => RecountSeen(s, r)
    case Scheduled(r, soonest) => ScheduleSeen(s, r, soonest)
  }

  /** The steps of a drain after its start. */
  predicate ByDrain(l: Label) {
    || l.DueRead? || l.Settle? || l.Removed? || l.PutDone? || l.RemovedUnseen? || l.PutUnseen?
    || l.Recounted? || l.Scheduled?
  }

  /** The steps after which the page is a new one. */
  predicate Reloads(l: Label) {
    l.Reload? || l.RemovedUnseen? || l.PutUnseen?
  }

  /** A run is a list of labels, each enabled where it is taken. */
  ghost predicate Valid(s: State, ls: seq<Label>)
    decreases |ls|
  {
    ls == [] || (Enabled(s, ls[0]) && Valid(Apply(s, ls[0]), ls[1..]))
  }

  ghost function After(s: State, ls: seq<Label>): State
    requires Valid(s, ls)
    decreases |ls|
  {
    if ls == [] then s else After(Apply(s, ls[0]), ls[1..])
  }
}
