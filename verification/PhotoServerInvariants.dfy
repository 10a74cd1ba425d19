/** What every step of the photo server keeps. */
module PhotoServerInvariants {
  import opened Faults
  import opened ObjectStore
  import opened Octets
  import opened Events
  import opened PhotoServer

  /** UNIQUE (event_id, client_id). */
  ghost predicate Unique(rows: Rows) {
    forall p, q | p in rows && q in rows && rows[p].event == rows[q].event && rows[p].clientId == rows[q].clientId ::
      p == q
  }

  /** The guard let the handler pass while its event was running. */
  predicate Admitted(handler: Handler, now: int, events: seq<Event>) {
    && handler.event < |events|
    && handler.admitted.Some?
    && handler.admitted.value <= now
    && !IsOver(events[handler.event], handler.admitted.value)
  }

  predicate HasPhoto(objects: Objects, id: PhotoId, handler: Handler) {
    PhotoKey(id) in objects && objects[PhotoKey(id)] == Object(handler.req.bytes, "image/jpeg")
  }

  predicate HasThumb(objects: Objects, id: PhotoId, handler: Handler) {
    && ThumbKey(id) in objects && handler.req.thumb.Some?
    && objects[ThumbKey(id)] == Object(handler.req.thumb.value, "image/jpeg")
  }

  /** A row is exactly what its handler wrote, and its objects are in the store. */
  predicate RowBacked(id: PhotoId, row: Row, handlers: Handlers, objects: Objects, owner: map<PhotoId, nat>) {
    && id in owner && owner[id] == row.writer && row.writer in handlers
    && row == RowFor(handlers[row.writer], row.writer, id)
    && handlers[row.writer].admitted.Some?
    && HasPhoto(objects, id, handlers[row.writer]) && HasThumb(objects, id, handlers[row.writer])
    && handlers[row.writer].pc.Replied?
  }

  ghost predicate RowsBacked(rows: Rows, handlers: Handlers, objects: Objects, owner: map<PhotoId, nat>) {
    forall id | id in rows :: RowBacked(id, rows[id], handlers, objects, owner)
  }

  predicate Holds(h: nat, id: PhotoId, rows: Rows, owner: map<PhotoId, nat>, orphans: set<PhotoId>) {
    id in owner && owner[id] == h && id !in rows && id !in orphans
  }

  ghost predicate HandlerOk(h: nat, handler: Handler, now: int, events: seq<Event>, rows: Rows,
                            objects: Objects, owner: map<PhotoId, nat>, orphans: set<PhotoId>) {
    match handler.pc
    case Guarding => handler.event < |events| && handler.admitted.None?
    case Looking => Admitted(handler, now, events)
    case StoringPhoto(id) =>
      && Admitted(handler, now, events) && Holds(h, id, rows, owner, orphans) && handler.req.thumb.Some?
      && PhotoKey(id) !in objects && ThumbKey(id) !in objects
    case StoringThumb(id) =>
      && Admitted(handler, now, events) && Holds(h, id, rows, owner, orphans) && handler.req.thumb.Some?
      && HasPhoto(objects, id, handler) && ThumbKey(id) !in objects
    case Inserting(id) =>
      && Admitted(handler, now, events) && Holds(h, id, rows, owner, orphans)
      && HasPhoto(objects, id, handler) && HasThumb(objects, id, handler)
    case Resolving(_) =>
      Admitted(handler, now, events) && Stored(rows, handler.event, handler.req.clientId)
    case Replied(reply) => ReplyOk(h, handler, reply, now, events, rows)
    case Crashed => true
  }

  /** What a reply promises for ever after it is sent. */
  ghost predicate ReplyOk(h: nat, handler: Handler, reply: Reply, now: int, events: seq<Event>, rows: Rows) {
    match reply
    case Created(id) =>
      && Admitted(handler, now, events)
      && IsRowOf(rows, handler.event, handler.req.clientId, id) && rows[id].writer == h
    case Duplicate(id) =>
      Admitted(handler, now, events) && IsRowOf(rows, handler.event, handler.req.clientId, id)
    case Locked => handler.event < |events| && handler.admitted.None? && IsOver(events[handler.event], now)
    case _ => true
  }

  ghost predicate HandlersOk(handlers: Handlers, now: int, events: seq<Event>, rows: Rows,
                             objects: Objects, owner: map<PhotoId, nat>, orphans: set<PhotoId>) {
    forall h | h in handlers :: HandlerOk(h, handlers[h], now, events, rows, objects, owner, orphans)
  }

  /** Whoever was let in was let in while its event ran. */
  ghost predicate AdmissionsOk(handlers: Handlers, now: int, events: seq<Event>) {
    forall h | h in handlers && handlers[h].admitted.Some? :: Admitted(handlers[h], now, events)
  }

  /** A handler generates at most one photo id, and only after its guard and its lookup. */
  ghost predicate Owned(owner: map<PhotoId, nat>, handlers: Handlers, events: seq<Event>) {
    && (forall id | id in owner :: owner[id] in handlers && handlers[owner[id]].event < |events|
                                && !handlers[owner[id]].pc.Guarding? && !handlers[owner[id]].pc.Looking?)
    && (forall p, q | p in owner && q in owner && owner[p] == owner[q] :: p == q)
  }

  /** Every generated id is a row, an orphan, or in the hands of the handler that generated it. */
  ghost predicate IdsAccounted(rows: Rows, owner: map<PhotoId, nat>, orphans: set<PhotoId>, handlers: Handlers) {
    && (forall id | id in orphans :: id in owner && id !in rows)
    && (forall id | id in owner ::
          id in rows || id in orphans ||
          (owner[id] in handlers && Holding(handlers[owner[id]].pc) && handlers[owner[id]].pc.id == id))
  }

  ghost predicate ObjectsAccounted(objects: Objects, owner: map<PhotoId, nat>) {
    forall key | key in objects :: exists id :: id in owner && (key == PhotoKey(id) || key == ThumbKey(id))
  }

  /** A reader that passed the guard saw its event over, and asked for no photo generated since it began. */
  ghost predicate ReaderOk(reader: Reader, now: int, events: seq<Event>, owner: map<PhotoId, nat>,
                           handlers: Handlers, named: set<PhotoId>) {
    && reader.event < |events|
    && (reader.unlocked ==> IsOver(events[reader.event], now))
    && (reader.want.Original? ==>
          && reader.want.id in named
          && (reader.want.id in owner ==>
                owner[reader.want.id] in handlers && handlers[owner[reader.want.id]].event <= reader.event))
  }

  ghost predicate ReadersOk(readers: map<nat, Reader>, now: int, events: seq<Event>, owner: map<PhotoId, nat>,
                            handlers: Handlers, named: set<PhotoId>) {
    forall k | k in readers :: ReaderOk(readers[k], now, events, owner, handlers, named)
  }

  ghost predicate Inv(s: State) {
    && PastIsOver(s.events, s.now)
    && Unique(s.rows)
    && RowsBacked(s.rows, s.handlers, s.objects, s.owner)
    && HandlersOk(s.handlers, s.now, s.events, s.rows, s.objects, s.owner, s.orphans)
    && AdmissionsOk(s.handlers, s.now, s.events)
    && Owned(s.owner, s.handlers, s.events)
    && IdsAccounted(s.rows, s.owner, s.orphans, s.handlers)
    && ObjectsAccounted(s.objects, s.owner)
    && ReadersOk(s.readers, s.now, s.events, s.owner, s.handlers, s.named)
  }

  // ---------- What a step by one handler leaves to the others ----------

  ghost predicate Extends<A, B>(m: map<A, B>, n: map<A, B>) {
    forall k | k in m :: k in n && n[k] == m[k]
  }

  ghost predicate Later(events: seq<Event>, more: seq<Event>) {
    events <= more
  }

  /** From `s` to `t` only handler `h` moved; what it added belongs to its own photo id. */
  ghost predicate MovedBy(s: State, t: State, h: nat, id: PhotoId) {
    && t.now == s.now && t.events == s.events && t.readers == s.readers && t.named == s.named && t.owner == s.owner
    && id in s.owner && s.owner[id] == h && h in s.handlers
    && h in t.handlers && t.handlers == s.handlers[h := t.handlers[h]]
    && t.handlers[h].req == s.handlers[h].req && t.handlers[h].event == s.handlers[h].event
    && t.handlers[h].admitted == s.handlers[h].admitted
    && Extends(s.rows, t.rows) && (forall p | p in t.rows && p !in s.rows :: p == id)
    && Extends(s.objects, t.objects)
    && (forall k | k in t.objects && k !in s.objects :: k == PhotoKey(id) || k == ThumbKey(id))
    && (forall p | p in t.orphans :: p in s.orphans || p == id)
    && !s.handlers[h].pc.Replied? && !t.handlers[h].pc.Guarding? && !t.handlers[h].pc.Looking?
  }

  lemma StoredGrows(rows: Rows, more: Rows, event: nat, clientId: string)
    requires Extends(rows, more) && Stored(rows, event, clientId)
    ensures Stored(more, event, clientId)
  {
    var id := Find(rows, event, clientId);
    assert IsRowOf(more, event, clientId, id);
  }

  lemma OtherHandlerOk(s: State, t: State, h: nat, id: PhotoId, g: nat)
    requires MovedBy(s, t, h, id) && g in s.handlers && g != h
    requires HandlerOk(g, s.handlers[g], s.now, s.events, s.rows, s.objects, s.owner, s.orphans)
    ensures HandlerOk(g, s.handlers[g], t.now, t.events, t.rows, t.objects, t.owner, t.orphans)
  {
    KeysAreApart();
    var handler := s.handlers[g];
    if handler.pc.Resolving? {
      StoredGrows(s.rows, t.rows, handler.event, handler.req.clientId);
    }
  }

  lemma MovedKeepsTables(s: State, t: State, h: nat, id: PhotoId)
    requires RowsBacked(s.rows, s.handlers, s.objects, s.owner) && ObjectsAccounted(s.objects, s.owner)
    requires MovedBy(s, t, h, id)
    requires forall p | p in t.rows && p !in s.rows :: RowBacked(p, t.rows[p], t.handlers, t.objects, t.owner)
    ensures RowsBacked(t.rows, t.handlers, t.objects, t.owner) && ObjectsAccounted(t.objects, t.owner)
  {
    forall p | p in t.rows ensures RowBacked(p, t.rows[p], t.handlers, t.objects, t.owner) {
      if p in s.rows {
        assert RowBacked(p, s.rows[p], s.handlers, s.objects, s.owner);
      }
    }
    forall key | key in t.objects ensures exists p :: p in t.owner && (key == PhotoKey(p) || key == ThumbKey(p)) {
      if key !in s.objects {
        assert id in t.owner && (key == PhotoKey(id) || key == ThumbKey(id));
      }
    }
  }

  lemma MovedKeepsReaders(s: State, t: State, h: nat, id: PhotoId)
    requires Owned(s.owner, s.handlers, s.events) && MovedBy(s, t, h, id)
    requires ReadersOk(s.readers, s.now, s.events, s.owner, s.handlers, s.named)
    ensures Owned(t.owner, t.handlers, t.events)
    ensures ReadersOk(t.readers, t.now, t.events, t.owner, t.handlers, t.named)
  {
    forall k | k in t.readers ensures ReaderOk(t.readers[k], t.now, t.events, t.owner, t.handlers, t.named) {
      assert ReaderOk(s.readers[k], s.now, s.events, s.owner, s.handlers, s.named);
    }
  }

  lemma MovedKeepsRest(s: State, t: State, h: nat, id: PhotoId)
    requires Inv(s) && MovedBy(s, t, h, id)
    requires forall p | p in t.rows && p !in s.rows :: RowBacked(p, t.rows[p], t.handlers, t.objects, t.owner)
    ensures RowsBacked(t.rows, t.handlers, t.objects, t.owner)
    ensures Owned(t.owner, t.handlers, t.events)
    ensures ObjectsAccounted(t.objects, t.owner)
    ensures ReadersOk(t.readers, t.now, t.events, t.owner, t.handlers, t.named)
    ensures forall g | g in s.handlers && g != h ::
              HandlerOk(g, t.handlers[g], t.now, t.events, t.rows, t.objects, t.owner, t.orphans)
  {
    MovedKeepsTables(s, t, h, id);
    MovedKeepsReaders(s, t, h, id);
    forall g | g in s.handlers && g != h
      ensures HandlerOk(g, t.handlers[g], t.now, t.events, t.rows, t.objects, t.owner, t.orphans)
    {
      OtherHandlerOk(s, t, h, id, g);
    }
  }

  /** The steps that move one handler whose photo id is generated keep the invariant. */
  lemma MovedKeepsInv(s: State, t: State, h: nat, id: PhotoId)
    requires Inv(s) && MovedBy(s, t, h, id)
    requires HandlerOk(h, t.handlers[h], t.now, t.events, t.rows, t.objects, t.owner, t.orphans)
    requires forall p | p in t.rows && p !in s.rows :: RowBacked(p, t.rows[p], t.handlers, t.objects, t.owner)
    requires Unique(t.rows)
    requires id in t.orphans ==> id !in t.rows
    requires forall p | p in s.orphans :: p in t.orphans
    requires id in t.rows || id in t.orphans || (Holding(t.handlers[h].pc) && t.handlers[h].pc.id == id)
    ensures Inv(t)
  {
    MovedKeepsRest(s, t, h, id);
    assert HandlersOk(t.handlers, t.now, t.events, t.rows, t.objects, t.owner, t.orphans);
    forall p | p in t.orphans ensures p in t.owner && p !in t.rows {
      assert p in s.orphans || p == id;
    }
  }

  /** Rows and readers do not see a handler move that has no row yet. */
  lemma TablesKept(s: State, h: nat, next: Handler)
    requires RowsBacked(s.rows, s.handlers, s.objects, s.owner)
    requires ReadersOk(s.readers, s.now, s.events, s.owner, s.handlers, s.named)
    requires h in s.handlers ==> !s.handlers[h].pc.Replied? && next.event == s.handlers[h].event
    requires h !in s.handlers ==> forall id | id in s.owner :: s.owner[id] in s.handlers
    ensures RowsBacked(s.rows, s.handlers[h := next], s.objects, s.owner)
    ensures ReadersOk(s.readers, s.now, s.events, s.owner, s.handlers[h := next], s.named)
  {
    forall p | p in s.rows ensures RowBacked(p, s.rows[p], s.handlers[h := next], s.objects, s.owner) {
      assert RowBacked(p, s.rows[p], s.handlers, s.objects, s.owner);
    }
    forall k | k in s.readers ensures ReaderOk(s.readers[k], s.now, s.events, s.owner, s.handlers[h := next], s.named) {
      assert ReaderOk(s.readers[k], s.now, s.events, s.owner, s.handlers, s.named);
    }
  }

  lemma SoloKeepsOwners(s: State, h: nat, next: Handler)
    requires Owned(s.owner, s.handlers, s.events) && IdsAccounted(s.rows, s.owner, s.orphans, s.handlers)
    requires h in s.handlers && !Holding(s.handlers[h].pc) && next.event == s.handlers[h].event
    requires next.pc.Guarding? || next.pc.Looking? ==> s.handlers[h].pc.Guarding? || s.handlers[h].pc.Looking?
    ensures Owned(s.owner, s.handlers[h := next], s.events)
    ensures IdsAccounted(s.rows, s.owner, s.orphans, s.handlers[h := next])
  {
  }

  /** The steps that move one handler and touch nothing else keep the invariant. */
  lemma SoloKeepsInv(s: State, h: nat, next: Handler)
    requires Inv(s) && h in s.handlers
    requires !s.handlers[h].pc.Replied? && !Holding(s.handlers[h].pc)
    requires next.req == s.handlers[h].req && next.event == s.handlers[h].event
    requires next.pc.Guarding? || next.pc.Looking? ==> s.handlers[h].pc.Guarding? || s.handlers[h].pc.Looking?
    requires HandlerOk(h, next, s.now, s.events, s.rows, s.objects, s.owner, s.orphans)
    requires next.admitted.Some? ==> Admitted(next, s.now, s.events)
    ensures Inv(s.(handlers := s.handlers[h := next]))
  {
    TablesKept(s, h, next);
    SoloKeepsOwners(s, h, next);
  }

  lemma NewcomerIsOk(s: State, h: nat, next: Handler)
    requires h !in s.handlers && next.admitted.None?
    requires HandlersOk(s.handlers, s.now, s.events, s.rows, s.objects, s.owner, s.orphans)
    requires AdmissionsOk(s.handlers, s.now, s.events)
    requires HandlerOk(h, next, s.now, s.events, s.rows, s.objects, s.owner, s.orphans)
    ensures HandlersOk(s.handlers[h := next], s.now, s.events, s.rows, s.objects, s.owner, s.orphans)
    ensures AdmissionsOk(s.handlers[h := next], s.now, s.events)
  {
  }

  lemma NewcomerOwnsNothing(s: State, h: nat, next: Handler)
    requires h !in s.handlers && Owned(s.owner, s.handlers, s.events)
    requires IdsAccounted(s.rows, s.owner, s.orphans, s.handlers)
    ensures Owned(s.owner, s.handlers[h := next], s.events)
    ensures IdsAccounted(s.rows, s.owner, s.orphans, s.handlers[h := next])
  {
  }

  lemma NewcomerKeepsInv(s: State, h: nat, next: Handler)
    requires Inv(s) && h !in s.handlers && next.admitted.None?
    requires HandlerOk(h, next, s.now, s.events, s.rows, s.objects, s.owner, s.orphans)
    ensures Inv(s.(handlers := s.handlers[h := next]))
  {
    TablesKept(s, h, next);
    NewcomerIsOk(s, h, next);
    NewcomerOwnsNothing(s, h, next);
  }

  lemma ArriveInv(s: State, h: nat, req: Request, ok: bool)
    requires Inv(s) && h !in s.handlers
    ensures Inv(Arriving(s, h, req, ok))
  {
    NewcomerKeepsInv(s, h, Arriving(s, h, req, ok).handlers[h]);
  }

  lemma GuardedIsOk(s: State, h: nat)
    requires AtGuard(s, h)
    requires HandlerOk(h, s.handlers[h], s.now, s.events, s.rows, s.objects, s.owner, s.orphans)
    ensures
      var t := Guarded(s, h);
      && h in t.handlers && t == s.(handlers := s.handlers[h := t.handlers[h]])
      && var next := t.handlers[h];
      && next.req == s.handlers[h].req && next.event == s.handlers[h].event
      && HandlerOk(h, next, s.now, s.events, s.rows, s.objects, s.owner, s.orphans)
      && (next.admitted.Some? ==> Admitted(next, s.now, s.events))
  {
  }

  lemma GuardInv(s: State, h: nat)
    requires Inv(s) && AtGuard(s, h)
    ensures Inv(Guarded(s, h))
  {
    GuardedIsOk(s, h);
    SoloKeepsInv(s, h, Guarded(s, h).handlers[h]);
  }

  lemma LookInv(s: State, h: nat, ok: bool, id: PhotoId)
    requires Inv(s) && AtLook(s, h) && Unused(s, id)
    ensures Inv(LookedUp(s, h, ok, id))
  {
    var handler := s.handlers[h];
    assert HandlerOk(h, handler, s.now, s.events, s.rows, s.objects, s.owner, s.orphans);
    if !ok || Stored(s.rows, handler.event, handler.req.clientId) || handler.req.thumb.None? {
      SoloKeepsInv(s, h, LookedUp(s, h, ok, id).handlers[h]);
    } else {
      GenerateInv(s, h, id);
    }
  }

  /** A fresh photo id is in no hands, and no object is filed under it. */
  lemma GenerateKeepsHandlers(s: State, h: nat, id: PhotoId, next: Handler)
    requires HandlersOk(s.handlers, s.now, s.events, s.rows, s.objects, s.owner, s.orphans)
    requires ObjectsAccounted(s.objects, s.owner)
    requires h in s.handlers && id !in s.owner && id !in s.rows && id !in s.orphans
    requires next == s.handlers[h].(pc := StoringPhoto(id)) && next.req.thumb.Some? && Admitted(next, s.now, s.events)
    ensures HandlersOk(s.handlers[h := next], s.now, s.events, s.rows, s.objects, s.owner[id := h], s.orphans)
  {
    FreshKeys(s.objects, s.owner, id);
    forall g | g in s.handlers && g != h
      ensures HandlerOk(g, s.handlers[g], s.now, s.events, s.rows, s.objects, s.owner[id := h], s.orphans)
    {
      assert HandlerOk(g, s.handlers[g], s.now, s.events, s.rows, s.objects, s.owner, s.orphans);
    }
  }

  lemma FreshKeys(objects: Objects, owner: map<PhotoId, nat>, id: PhotoId)
    requires ObjectsAccounted(objects, owner) && id !in owner
    ensures PhotoKey(id) !in objects && ThumbKey(id) !in objects
  {
    KeysAreApart();
  }

  lemma GenerateKeepsIds(s: State, h: nat, id: PhotoId, next: Handler)
    requires ObjectsAccounted(s.objects, s.owner) && IdsAccounted(s.rows, s.owner, s.orphans, s.handlers)
    requires Owned(s.owner, s.handlers, s.events)
    requires h in s.handlers && s.handlers[h].pc.Looking? && id !in s.owner
    requires next == s.handlers[h].(pc := StoringPhoto(id)) && next.event < |s.events|
    ensures ObjectsAccounted(s.objects, s.owner[id := h])
    ensures IdsAccounted(s.rows, s.owner[id := h], s.orphans, s.handlers[h := next])
    ensures Owned(s.owner[id := h], s.handlers[h := next], s.events)
  {
    forall key | key in s.objects
      ensures exists p :: p in s.owner[id := h] && (key == PhotoKey(p) || key == ThumbKey(p))
    {
      var p :| p in s.owner && (key == PhotoKey(p) || key == ThumbKey(p));
      assert p in s.owner[id := h];
    }
  }

  lemma GenerateKeepsTables(s: State, h: nat, id: PhotoId, next: Handler)
    requires RowsBacked(s.rows, s.handlers, s.objects, s.owner) && id !in s.owner && id !in s.named
    requires ReadersOk(s.readers, s.now, s.events, s.owner, s.handlers, s.named)
    requires h in s.handlers && s.handlers[h].pc.Looking? && next == s.handlers[h].(pc := StoringPhoto(id))
    ensures RowsBacked(s.rows, s.handlers[h := next], s.objects, s.owner[id := h])
    ensures ReadersOk(s.readers, s.now, s.events, s.owner[id := h], s.handlers[h := next], s.named)
  {
    forall p | p in s.rows ensures RowBacked(p, s.rows[p], s.handlers[h := next], s.objects, s.owner[id := h]) {
      assert RowBacked(p, s.rows[p], s.handlers, s.objects, s.owner);
    }
    forall k | k in s.readers
      ensures ReaderOk(s.readers[k], s.now, s.events, s.owner[id := h], s.handlers[h := next], s.named)
    {
      assert ReaderOk(s.readers[k], s.now, s.events, s.owner, s.handlers, s.named);
    }
  }

  /** A fresh photo id belongs to no row, no object, no orphan and no reader. */
  lemma GenerateInv(s: State, h: nat, id: PhotoId)
    requires Inv(s) && AtLook(s, h) && Unused(s, id)
    requires s.handlers[h].req.thumb.Some?
    requires Admitted(s.handlers[h], s.now, s.events)
    ensures Inv(SetPc(s, h, StoringPhoto(id)).(owner := s.owner[id := h]))
  {
    var next := s.handlers[h].(pc := StoringPhoto(id));
    assert id in s.rows ==> RowBacked(id, s.rows[id], s.handlers, s.objects, s.owner);
    GenerateKeepsHandlers(s, h, id, next);
    GenerateKeepsIds(s, h, id, next);
    GenerateKeepsTables(s, h, id, next);
  }

  /** A Put under the handler's own key, that worked or left something behind or nothing. */
  lemma PutMoves(s: State, t: State, h: nat, id: PhotoId, key: string, body: Bytes, fault: Fault)
    requires h in s.handlers && id in s.owner && s.owner[id] == h && !s.handlers[h].pc.Replied?
    requires key == PhotoKey(id) || key == ThumbKey(id)
    requires key !in s.objects
    requires t.handlers.Keys == s.handlers.Keys
    requires t == s.(handlers := s.handlers[h := s.handlers[h].(pc := t.handlers[h].pc)], orphans := t.orphans,
                     objects := Put(s.objects, key, body, fault))
    requires t.orphans == s.orphans || t.orphans == s.orphans + {id}
    requires !t.handlers[h].pc.Guarding? && !t.handlers[h].pc.Looking?
    ensures MovedBy(s, t, h, id)
  {
  }

  lemma PhotoIsStored(s: State, h: nat, fault: Fault)
    requires AtPhoto(s, h)
    requires HandlerOk(h, s.handlers[h], s.now, s.events, s.rows, s.objects, s.owner, s.orphans)
    ensures
      var t, id := PhotoPut(s, h, fault), s.handlers[h].pc.id;
      && MovedBy(s, t, h, id) && t.rows == s.rows
      && HandlerOk(h, t.handlers[h], t.now, t.events, t.rows, t.objects, t.owner, t.orphans)
  {
    KeysAreApart();
    var t, id := PhotoPut(s, h, fault), s.handlers[h].pc.id;
    PutMoves(s, t, h, id, PhotoKey(id), s.handlers[h].req.bytes, fault);
  }

  lemma StorePhotoInv(s: State, h: nat, fault: Fault)
    requires Inv(s) && AtPhoto(s, h)
    ensures Inv(PhotoPut(s, h, fault))
  {
    PhotoIsStored(s, h, fault);
    MovedKeepsInv(s, PhotoPut(s, h, fault), h, s.handlers[h].pc.id);
  }

  lemma ThumbIsStored(s: State, h: nat, fault: Fault)
    requires AtThumb(s, h)
    requires HandlerOk(h, s.handlers[h], s.now, s.events, s.rows, s.objects, s.owner, s.orphans)
    ensures
      var t, id := ThumbPut(s, h, fault), s.handlers[h].pc.id;
      && MovedBy(s, t, h, id) && t.rows == s.rows
      && HandlerOk(h, t.handlers[h], t.now, t.events, t.rows, t.objects, t.owner, t.orphans)
  {
    KeysAreApart();
    var t, id := ThumbPut(s, h, fault), s.handlers[h].pc.id;
    PutMoves(s, t, h, id, ThumbKey(id), s.handlers[h].req.thumb.value, fault);
  }

  lemma StoreThumbInv(s: State, h: nat, fault: Fault)
    requires Inv(s) && AtThumb(s, h)
    ensures Inv(ThumbPut(s, h, fault))
  {
    ThumbIsStored(s, h, fault);
    MovedKeepsInv(s, ThumbPut(s, h, fault), h, s.handlers[h].pc.id);
  }

  lemma InsertedRowIsBacked(s: State, h: nat, next: Handler)
    requires h in s.handlers && s.handlers[h].pc.Inserting?
    requires HandlerOk(h, s.handlers[h], s.now, s.events, s.rows, s.objects, s.owner, s.orphans)
    requires next == s.handlers[h].(pc := next.pc) && next.pc.Replied?
    ensures
      var id := s.handlers[h].pc.id;
      RowBacked(id, RowFor(s.handlers[h], h, id), s.handlers[h := next], s.objects, s.owner)
  {
  }

  lemma RowMoves(s: State, h: nat, reply: Reply, row: Row)
    requires h in s.handlers && s.handlers[h].pc.Inserting?
    requires Holds(h, s.handlers[h].pc.id, s.rows, s.owner, s.orphans)
    ensures
      var id := s.handlers[h].pc.id;
      MovedBy(s, SetPc(s, h, Replied(reply)).(rows := s.rows[id := row]), h, id)
  {
  }

  lemma InsertedHandlerIsOk(s: State, h: nat, reply: Reply)
    requires h in s.handlers && s.handlers[h].pc.Inserting?
    requires HandlerOk(h, s.handlers[h], s.now, s.events, s.rows, s.objects, s.owner, s.orphans)
    requires reply == ServerError || reply == Created(s.handlers[h].pc.id)
    ensures
      var handler, id := s.handlers[h], s.handlers[h].pc.id;
      HandlerOk(h, handler.(pc := Replied(reply)), s.now, s.events, s.rows[id := RowFor(handler, h, id)],
                s.objects, s.owner, s.orphans)
  {
  }

  /** A row is inserted for a capture that its event does not have. */
  lemma RowInv(s: State, h: nat, reply: Reply)
    requires Inv(s) && h in s.handlers && s.handlers[h].pc.Inserting?
    requires !Stored(s.rows, s.handlers[h].event, s.handlers[h].req.clientId)
    requires reply == ServerError || reply == Created(s.handlers[h].pc.id)
    ensures
      var id := s.handlers[h].pc.id;
      Inv(SetPc(s, h, Replied(reply)).(rows := s.rows[id := RowFor(s.handlers[h], h, id)]))
  {
    var handler := s.handlers[h];
    var id := handler.pc.id;
    assert HandlerOk(h, handler, s.now, s.events, s.rows, s.objects, s.owner, s.orphans);
    var row := RowFor(handler, h, id);
    var t := SetPc(s, h, Replied(reply)).(rows := s.rows[id := row]);
    InsertedRowIsBacked(s, h, t.handlers[h]);
    InsertedHandlerIsOk(s, h, reply);
    InsertUnique(s.rows, id, row);
    RowMoves(s, h, reply, row);
    MovedKeepsInv(s, t, h, id);
  }

  lemma AbandonMoves(s: State, h: nat, pc: Pc)
    requires h in s.handlers && Holding(s.handlers[h].pc)
    requires HandlerOk(h, s.handlers[h], s.now, s.events, s.rows, s.objects, s.owner, s.orphans)
    requires pc == Replied(ServerError) || pc == Crashed || pc == Resolving(s.handlers[h].pc.id)
    requires pc.Resolving? ==> Stored(s.rows, s.handlers[h].event, s.handlers[h].req.clientId)
    ensures
      var t, id := Abandon(s, h, pc, s.handlers[h].pc.id), s.handlers[h].pc.id;
      && MovedBy(s, t, h, id) && id !in s.rows
      && HandlerOk(h, t.handlers[h], t.now, t.events, t.rows, t.objects, t.owner, t.orphans)
  {
  }

  /** A handler gives up its photo id. */
  lemma AbandonInv(s: State, h: nat, pc: Pc)
    requires Inv(s) && h in s.handlers && Holding(s.handlers[h].pc)
    requires pc == Replied(ServerError) || pc == Crashed || pc == Resolving(s.handlers[h].pc.id)
    requires pc.Resolving? ==> Stored(s.rows, s.handlers[h].event, s.handlers[h].req.clientId)
    ensures Inv(Abandon(s, h, pc, s.handlers[h].pc.id))
  {
    AbandonMoves(s, h, pc);
    MovedKeepsInv(s, Abandon(s, h, pc, s.handlers[h].pc.id), h, s.handlers[h].pc.id);
  }

  lemma InsertInv(s: State, h: nat, fault: Fault)
    requires Inv(s) && AtInsert(s, h)
    ensures Inv(Inserted(s, h, fault))
  {
    var handler := s.handlers[h];
    if fault.Clean? {
      AbandonInv(s, h, Replied(ServerError));
    } else if Stored(s.rows, handler.event, handler.req.clientId) {
      AbandonInv(s, h, Resolving(handler.pc.id));
    } else {
      RowInv(s, h, if fault.Fine? then Created(handler.pc.id) else ServerError);
    }
  }

  lemma InsertUnique(rows: Rows, id: PhotoId, row: Row)
    requires Unique(rows) && id !in rows && !Stored(rows, row.event, row.clientId)
    ensures Unique(rows[id := row])
  {
    forall p | p in rows && rows[p].event == row.event && rows[p].clientId == row.clientId ensures false {
      assert IsRowOf(rows, row.event, row.clientId, p);
    }
  }

  lemma ResolveInv(s: State, h: nat, ok: bool)
    requires Inv(s) && AtResolve(s, h)
    ensures Inv(Resolved(s, h, ok))
  {
    assert HandlerOk(h, s.handlers[h], s.now, s.events, s.rows, s.objects, s.owner, s.orphans);
    SoloKeepsInv(s, h, Resolved(s, h, ok).handlers[h]);
  }

  lemma CrashInv(s: State, h: nat)
    requires Inv(s) && Unfinished(s, h)
    ensures Inv(Crashing(s, h))
  {
    if Holding(s.handlers[h].pc) {
      AbandonInv(s, h, Crashed);
    } else {
      SoloKeepsInv(s, h, s.handlers[h].(pc := Crashed));
    }
  }

  /** The clock moves on, or an event is created. */
  lemma WorldInv(s: State, t: State)
    requires Inv(s)
    requires t == s.(now := t.now, events := t.events)
    requires s.now <= t.now && Later(s.events, t.events) && PastIsOver(t.events, t.now)
    ensures Inv(t)
  {
    forall h | h in t.handlers
      ensures HandlerOk(h, t.handlers[h], t.now, t.events, t.rows, t.objects, t.owner, t.orphans)
      ensures t.handlers[h].admitted.Some? ==> Admitted(t.handlers[h], t.now, t.events)
    {
      assert HandlerOk(h, s.handlers[h], s.now, s.events, s.rows, s.objects, s.owner, s.orphans);
      assert s.handlers[h].admitted.Some? ==> Admitted(s.handlers[h], s.now, s.events);
    }
    forall k | k in t.readers ensures ReaderOk(t.readers[k], t.now, t.events, t.owner, t.handlers, t.named) {
      assert ReaderOk(s.readers[k], s.now, s.events, s.owner, s.handlers, s.named);
    }
  }

  lemma OpenInv(s: State, k: nat, want: Want)
    requires Inv(s) && k !in s.readers && s.events != []
    ensures Inv(Opening(s, k, want))
  {
    var t := Opening(s, k, want);
    forall j | j in t.readers ensures ReaderOk(t.readers[j], t.now, t.events, t.owner, t.handlers, t.named) {
      if j != k {
        assert ReaderOk(s.readers[j], s.now, s.events, s.owner, s.handlers, s.named);
      }
    }
  }

  lemma UnlockInv(s: State, k: nat)
    requires Inv(s) && CanUnlock(s, k)
    ensures Inv(Unlocking(s, k))
  {
    var t := Unlocking(s, k);
    forall j | j in t.readers ensures ReaderOk(t.readers[j], t.now, t.events, t.owner, t.handlers, t.named) {
      assert ReaderOk(s.readers[j], s.now, s.events, s.owner, s.handlers, s.named);
    }
  }

  lemma InvStep(s: State, l: Label)
    requires Inv(s) && Enabled(s, l)
    ensures Inv(Apply(s, l))
  {
    match l
    case Tick(to) => PastStaysOver(s.events, s.now, to, 0, 0); WorldInv(s, Apply(s, l));
    case Create(a, b) => PastStaysOver(s.events, s.now, s.now, a, b); WorldInv(s, Apply(s, l));
    case Arrive(h, req, ok) => ArriveInv(s, h, req, ok);
    case Guard(h) => GuardInv(s, h);
    case Look(h, ok, id) => LookInv(s, h, ok, id);
    case StorePhoto(h, fault) => StorePhotoInv(s, h, fault);
    case StoreThumb(h, fault) => StoreThumbInv(s, h, fault);
    case Insert(h, fault) => InsertInv(s, h, fault);
    case Resolve(h, ok) => ResolveInv(s, h, ok);
    case Crash(h) => CrashInv(s, h);
    case Open(k, want) => OpenInv(s, k, want);
    case Unlock(k) => UnlockInv(s, k);
    case Emit(_, _) =>
  }

  lemma {:induction false} InvAfter(s: State, ls: seq<Label>)
    requires Inv(s) && Valid(s, ls)
    ensures Inv(After(s, ls))
    decreases |ls|
  {
    if ls != [] {
      InvStep(s, ls[0]);
      InvAfter(Apply(s, ls[0]), ls[1..]);
    }
  }
}
