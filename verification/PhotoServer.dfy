/**
 * The photo endpoints (backend/internal/photos/upload.go, handler.go, album.go) as a
 * state machine: any number of handlers run at once, each statement that touches the
 * database, the object store or the clock is a step, and a handler may crash between
 * any two. The database's row insert is atomic and enforces UNIQUE (event_id, client_id).
 */
module PhotoServer {
  import opened Faults
  import opened Octets
  import opened Options
  import opened ObjectStore
  import opened Events

  type PhotoId = string

  /** Who sent a request: the modelled phone's n-th upload, or anybody else. */
  datatype Origin = Phone(request: nat) | Elsewhere

  /** What the checks between the guard and the lookup make of a request, in their order. */
  datatype Form = Anonymous | TooLong | Malformed | WellFormed

  /**
   * An upload request. `form` says whether it has a user, keeps the size limit, and has a client
   * id and a capture time that parse; `thumb` is the thumbnail, if the bytes are a decodable JPEG.
   */
  datatype Request = Request(origin: Origin, clientId: string, bytes: Bytes, takenAt: string,
                             form: Form, thumb: Option<Bytes>)

  datatype Row = Row(event: nat, clientId: string, storageKey: string, thumbKey: string,
                     sizeBytes: nat, takenAt: string, writer: nat)

  type Rows = map<PhotoId, Row>

  datatype Reply =
    | Created(id: PhotoId) | Duplicate(id: PhotoId)
    | Locked | NoEvent | Unauthorized | TooLarge | BadRequest | BadGateway | ServerError

  function StatusOf(reply: Reply): int {
    match reply
    case Created(_) => 201
    case Duplicate(_) => 200
    case Locked => 423
    case NoEvent => 404
    case Unauthorized => 401
    case TooLarge => 413
    case BadRequest => 400
    case BadGateway => 502
    case ServerError => 500
  }

  /** The statement an upload handler executes next. */
  datatype Pc =
    | Guarding                        // IsOver in requireRunning
    | Looking                         // FindPhotoByClientId
    | StoringPhoto(id: PhotoId)       // Storage.Put of the original
    | StoringThumb(id: PhotoId)       // Storage.Put of the thumbnail
    | Inserting(id: PhotoId)          // CreatePhoto
    | Resolving(id: PhotoId)          // FindPhotoByClientId in resolveRace
    | Replied(reply: Reply)
    | Crashed

  /** `event` is the event loaded by the guard; `admitted` is when the guard let the request pass. */
  datatype Handler = Handler(req: Request, event: nat, admitted: Option<int>, pc: Pc)

  type Handlers = map<nat, Handler>

  /** What an album request asks for: the event's photos (a list or a zip), or one photo by id. */
  datatype Want = WholeAlbum | Original(id: PhotoId)

  datatype Reader = Reader(want: Want, event: nat, unlocked: bool)

  datatype State = State(
    now: int,
    events: seq<Event>,
    rows: Rows,
    objects: Objects,
    handlers: Handlers,
    readers: map<nat, Reader>,
    // History.
    owner: map<PhotoId, nat>,   // every generated photo id and the handler that generated it
    orphans: set<PhotoId>,      // ids whose handler ended without a row
    named: set<PhotoId>)        // ids that some Original request has asked for

  function Init(now: int): State {
    State(now, [], map[], map[], map[], map[], map[], {}, {})
  }

  datatype Label =
    | Tick(to: int)
    | Create(startsAt: int, endsAt: int)
    | Arrive(h: nat, req: Request, ok: bool)
    | Guard(h: nat)
    | Look(h: nat, ok: bool, id: PhotoId)
    | StorePhoto(h: nat, fault: Fault)
    | StoreThumb(h: nat, fault: Fault)
    | Insert(h: nat, fault: Fault)
    | Resolve(h: nat, ok: bool)
    | Crash(h: nat)
    | Open(k: nat, want: Want)
    | Unlock(k: nat)
    | Emit(k: nat, id: PhotoId)

  /** The row of a capture in an event, if there is one. */
  ghost predicate IsRowOf(rows: Rows, event: nat, clientId: string, id: PhotoId) {
    id in rows && rows[id].event == event && rows[id].clientId == clientId
  }

  ghost predicate Stored(rows: Rows, event: nat, clientId: string) {
    exists id :: IsRowOf(rows, event, clientId, id)
  }

  /** FindPhotoByClientId on a table that has such a row. */
  ghost function Find(rows: Rows, event: nat, clientId: string): (id: PhotoId)
    requires Stored(rows, event, clientId)
    ensures IsRowOf(rows, event, clientId, id)
  {
    var id :| IsRowOf(rows, event, clientId, id);
    id
  }

  // What a handler executes next.

  predicate AtGuard(s: State, h: nat) {
    h in s.handlers && s.handlers[h].pc.Guarding? && s.handlers[h].event < |s.events|
  }

  predicate AtLook(s: State, h: nat) { h in s.handlers && s.handlers[h].pc.Looking? }

  predicate AtPhoto(s: State, h: nat) { h in s.handlers && s.handlers[h].pc.StoringPhoto? }

  predicate AtThumb(s: State, h: nat) { h in s.handlers && s.handlers[h].pc.StoringThumb? }

  predicate AtInsert(s: State, h: nat) { h in s.handlers && s.handlers[h].pc.Inserting? }

  predicate AtResolve(s: State, h: nat) { h in s.handlers && s.handlers[h].pc.Resolving? }

  predicate Unfinished(s: State, h: nat) { h in s.handlers && !s.handlers[h].pc.Replied? }

  /** uuid.New() repeats no id and hits none that a request has guessed beforehand. */
  predicate Unused(s: State, id: PhotoId) { id !in s.owner && id !in s.named }

  predicate CanUnlock(s: State, k: nat) {
    // requireUnlocked: otherwise the request is answered 423 and nothing is sent.
    && k in s.readers && !s.readers[k].unlocked
    && s.readers[k].event < |s.events| && IsOver(s.events[s.readers[k].event], s.now)
  }

  ghost predicate Enabled(s: State, l: Label) {
    match l
    case Tick(to) => s.now <= to
    case Create(_, _) => true
    case Arrive(h, _, _) => h !in s.handlers
    case Guard(h) => AtGuard(s, h)
    case Look(h, _, id) => AtLook(s, h) && Unused(s, id)
    case StorePhoto(h, _) => AtPhoto(s, h)
    case StoreThumb(h, _) => AtThumb(s, h)
    case Insert(h, _) => AtInsert(s, h)
    case Resolve(h, _) => AtResolve(s, h)
    case Crash(h) => Unfinished(s, h)
    case Open(k, _) => k !in s.readers && s.events != []
    case Unlock(k) => CanUnlock(s, k)
    case Emit(k, id) => k in s.readers && s.readers[k].unlocked && id in s.rows && Answers(s, s.readers[k], id)
  }

  /** The photos an unlocked reader may send. */
  predicate Answers(s: State, reader: Reader, id: PhotoId)
    requires id in s.rows
  {
    match reader.want
    case WholeAlbum => s.rows[id].event == reader.event
    case Original(p) => p == id
  }

  function SetPc(s: State, h: nat, pc: Pc): State
    requires h in s.handlers
  {
    s.(handlers := s.handlers[h := s.handlers[h].(pc := pc)])
  }

  /** Reply with an error and abandon the generated photo id. */
  function Abandon(s: State, h: nat, pc: Pc, id: PhotoId): State
    requires h in s.handlers
  {
    SetPc(s, h, pc).(orphans := s.orphans + {id})
  }

  function Put(objects: Objects, key: string, body: Bytes, fault: Fault): Objects {
    if fault.Clean? then objects else objects[key := Object(body, "image/jpeg")]
  }

  function RowFor(handler: Handler, h: nat, id: PhotoId): Row {
    Row(handler.event, handler.req.clientId, PhotoKey(id), ThumbKey(id), |handler.req.bytes|, handler.req.takenAt, h)
  }

  // ---------- The steps ----------

  function EventCreation(s: State, startsAt: int, endsAt: int): State {
    s.(events := CreateEvent(s.events, startsAt, endsAt, s.now).1)
  }

  function Arriving(s: State, h: nat, req: Request, ok: bool): State {
    s.(handlers := s.handlers[h :=
      if !ok then Handler(req, 0, None, Replied(ServerError))
      else if s.events == [] then Handler(req, 0, None, Replied(NoEvent))
      else Handler(req, |s.events| - 1, None, Guarding)])
  }

  /** Where a request goes on that the guard has let pass. */
  function AfterGuard(form: Form): Pc {
    match form
    case Anonymous => Replied(Unauthorized)
    case TooLong => Replied(TooLarge)
    case Malformed => Replied(BadRequest)
    case WellFormed => Looking
  }

  function Guarded(s: State, h: nat): State
    requires AtGuard(s, h)
  {
    var handler := s.handlers[h];
    if IsOver(s.events[handler.event], s.now) then SetPc(s, h, Replied(Locked))
    else s.(handlers := s.handlers[h := handler.(admitted := Some(s.now), pc := AfterGuard(handler.req.form))])
  }

  ghost function LookedUp(s: State, h: nat, ok: bool, id: PhotoId): State
    requires AtLook(s, h)
  {
    var handler := s.handlers[h];
    if !ok then SetPc(s, h, Replied(ServerError))
    else if Stored(s.rows, handler.event, handler.req.clientId) then
      SetPc(s, h, Replied(Duplicate(Find(s.rows, handler.event, handler.req.clientId))))
    else if handler.req.thumb.None? then SetPc(s, h, Replied(BadRequest))
    else SetPc(s, h, StoringPhoto(id)).(owner := s.owner[id := h])
  }

  function PhotoPut(s: State, h: nat, fault: Fault): State
    requires AtPhoto(s, h)
  {
    var id := s.handlers[h].pc.id;
    var t := s.(objects := Put(s.objects, PhotoKey(id), s.handlers[h].req.bytes, fault));
    if fault.Fine? then SetPc(t, h, StoringThumb(id)) else Abandon(t, h, Replied(BadGateway), id)
  }

  function ThumbPut(s: State, h: nat, fault: Fault): State
    requires AtThumb(s, h)
  {
    var id := s.handlers[h].pc.id;
    var thumb := s.handlers[h].req.thumb;
    var t := s.(objects := Put(s.objects, ThumbKey(id), if thumb.Some? then thumb.value else [], fault));
    if fault.Fine? then SetPc(t, h, Inserting(id)) else Abandon(t, h, Replied(BadGateway), id)
  }

  ghost function Inserted(s: State, h: nat, fault: Fault): State
    requires AtInsert(s, h)
  {
    var handler := s.handlers[h];
    var id := handler.pc.id;
    if fault.Clean? then Abandon(s, h, Replied(ServerError), id)
    else if Stored(s.rows, handler.event, handler.req.clientId) then Abandon(s, h, Resolving(id), id)
    else SetPc(s, h, Replied(if fault.Fine? then Created(id) else ServerError))
           .(rows := s.rows[id := RowFor(handler, h, id)])
  }

  ghost function Resolved(s: State, h: nat, ok: bool): State
    requires AtResolve(s, h)
  {
    var handler := s.handlers[h];
    SetPc(s, h, Replied(if ok && Stored(s.rows, handler.event, handler.req.clientId)
                        then Duplicate(Find(s.rows, handler.event, handler.req.clientId)) else ServerError))
  }

  function Crashing(s: State, h: nat): State
    requires Unfinished(s, h)
  {
    var pc := s.handlers[h].pc;
    if Holding(pc) then Abandon(s, h, Crashed, pc.id) else SetPc(s, h, Crashed)
  }

  function Opening(s: State, k: nat, want: Want): State
    requires s.events != []
  {
    s.(readers := s.readers[k := Reader(want, |s.events| - 1, false)],
       named := if want.Original? then s.named + {want.id} else s.named)
  }

  function Unlocking(s: State, k: nat): State
    requires k in s.readers
  {
    s.(readers := s.readers[k := s.readers[k].(unlocked := true)])
  }

  ghost function Apply(s: State, l: Label): State
    requires Enabled(s, l)
  {
    match l
    case Tick(to) => s.(now := to)
    case Create(startsAt, endsAt) => EventCreation(s, startsAt, endsAt)
    case Arrive(h, req, ok) => Arriving(s, h, req, ok)
    case Guard(h) => Guarded(s, h)
    case Look(h, ok, id) => LookedUp(s, h, ok, id)
    case StorePhoto(h, fault) => PhotoPut(s, h, fault)
    case StoreThumb(h, fault) => ThumbPut(s, h, fault)
    case Insert(h, fault) => Inserted(s, h, fault)
    case Resolve(h, ok) => Resolved(s, h, ok)
    case Crash(h) => Crashing(s, h)
    case Open(k, want) => Opening(s, k, want)
    case Unlock(k) => Unlocking(s, k)
    case Emit(_, _) => s
  }

  /** The handler has generated a photo id that is not yet decided to become a row. */
  predicate Holding(pc: Pc) {
    pc.StoringPhoto? || pc.StoringThumb? || pc.Inserting?
  }

  ghost predicate Valid(s: State, ls: seq<Label>)
    decreases |ls|
  {
    ls == [] || (Enabled(s, ls[0]) && Valid(Apply(s, ls[0]), ls[1..]))
  }

  ghost function After(s: State, ls: seq<Label>): State
    requires Valid(s, ls)
    decreases |ls|
  {
    if ls == [] then s else After(Apply(s, ls[0]), ls[1..])
  }
}
