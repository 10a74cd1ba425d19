/**
 * The photo handler as the object it is: `Upload`, its guard, `resolveRace` and the album
 * routes, statement by statement over a table of rows and an object store. Every statement is
 * one step of the state machine in module PhotoServer, so the object is always in a state that
 * some run of that machine reaches.
 */
module PhotoServerObject {
  import opened AlbumOrdering
  import opened Faults
  import opened Octets
  import opened Options
  import opened Sorting
  import opened Text
  import opened ObjectStore
  import opened Events
  import opened PhotoServer
  import opened PhotoServerInvariants
  import opened PhotoServerTheorems
  import opened PhotoServerUploads

  /** When a photo was taken; `taken` reads a capture time. */
  function Moment(rows: Rows, taken: string -> int, id: PhotoId): int {
    if id in rows then taken(rows[id].takenAt) else 0
  }

  /** The album's order: a photo's moment and id. */
  function AlbumOrder(rows: Rows, taken: string -> int): (PhotoId, PhotoId) -> bool {
    (a: PhotoId, b: PhotoId) => NoLater(Moment(rows, taken, a), a, Moment(rows, taken, b), b)
  }

  lemma AlbumOrderIsTotal(rows: Rows, taken: string -> int)
    ensures TotalPreorder(AlbumOrder(rows, taken))
  {
    NoLaterIsTotal();
  }

  /** The event's photos, each once, by capture time, and those of one moment by their id. */
  ghost predicate IsAlbum(rows: Rows, taken: string -> int, event: nat, ids: seq<PhotoId>) {
    && multiset(ids) == multiset(Album(rows, event))
    && forall i, j | 0 <= i < j < |ids| ::
         && ids[i] in rows && ids[j] in rows
         && var a, b := taken(rows[ids[i]].takenAt), taken(rows[ids[j]].takenAt);
         a < b || (a == b && TextLeq(ids[i], ids[j]))
  }

  lemma OrderedIsAlbum(rows: Rows, taken: string -> int, event: nat, ids: seq<PhotoId>)
    requires SortedBy(AlbumOrder(rows, taken), ids) && multiset(ids) == multiset(Album(rows, event))
    ensures IsAlbum(rows, taken, event, ids)
  {
    forall k | 0 <= k < |ids| ensures ids[k] in rows {
      assert ids[k] in multiset(ids);
    }
    forall i, j | 0 <= i < j < |ids|
      ensures
        var a, b := taken(rows[ids[i]].takenAt), taken(rows[ids[j]].takenAt);
        a < b || (a == b && TextLeq(ids[i], ids[j]))
    {
      assert AlbumOrder(rows, taken)(ids[i], ids[j]);
    }
  }

  datatype ListReply = Listed(photos: seq<PhotoId>) | ListFailed | SigningFailed

  datatype OriginalReply = Sent(body: Bytes) | BadId | FindFailed | NotFound | ReadFailed

  class PhotoHandler {
    const storage: Fake
    const taken: string -> int
    var now: int
    var events: seq<Event>
    var rows: Rows
    var handlers: Handlers          // the calls under way
    var readers: map<nat, Reader>

    ghost var owner: map<PhotoId, nat>
    ghost var orphans: set<PhotoId>
    ghost var named: set<PhotoId>

    ghost function View(): State
      reads this, storage
    {
      State(now, events, rows, storage.objects, handlers, readers, owner, orphans, named)
    }

    ghost predicate Valid()
      reads this, storage
    {
      Reachable(View()) && !storage.putFails
    }

    constructor (now: int, taken: string -> int)
      ensures Valid() && fresh(storage) && View() == Init(now) && this.taken == taken
    {
      storage := new Fake();
      this.taken := taken;
      this.now := now;
      events, rows, handlers, readers := [], map[], map[], map[];
      owner, orphans, named := map[], {}, {};
      new;
      ReachableInit(now);
    }

    // ---------- The guard ----------

    /** loadEvent; `ok` is whether the query succeeds. */
    method LoadEvent(h: nat, req: Request, ok: bool)
      requires Valid() && h !in handlers
      modifies this`handlers
      ensures Valid() && View() == Arriving(old(View()), h, req, ok)
      ensures h in handlers && handlers[h].req == req && handlers[h].admitted.None?
      ensures handlers[h].pc.Guarding? <==> ok && events != []
      ensures handlers[h].pc.Guarding? ==> handlers[h].event == |events| - 1
      ensures handlers[h].pc == Replied(ServerError) <==> !ok
      ensures handlers[h].pc == Replied(NoEvent) <==> ok && events == []
    {
      ReachableStep(View(), Arrive(h, req, ok));
      if !ok {
        handlers := handlers[h := Handler(req, 0, None, Replied(ServerError))];
      } else if |events| == 0 {
        handlers := handlers[h := Handler(req, 0, None, Replied(NoEvent))];
      } else {
        handlers := handlers[h := Handler(req, |events| - 1, None, Guarding)];
      }
    }

    /** requireRunning's decision, and the parsing of the form. */
    method RequireRunning(h: nat)
      requires Valid() && AtGuard(View(), h)
      modifies this`handlers
      ensures Valid() && View() == Guarded(old(View()), h)
      ensures h in handlers && handlers[h].event < |events|
      ensures handlers[h].admitted.Some? <==> now < events[handlers[h].event].endsAt
      ensures handlers[h].pc == Replied(Locked) <==> events[handlers[h].event].endsAt <= now
      ensures handlers[h].pc.Looking? <==> now < events[handlers[h].event].endsAt && handlers[h].req.form.WellFormed?
    {
      ReachableStep(View(), Guard(h));
      NotLetInYet(View(), h);
      var handler := handlers[h];
      if IsOver(events[handler.event], now) {
        handlers := handlers[h := handler.(pc := Replied(Locked))];
        return;
      }
      var next := Looking;
      if handler.req.form.Anonymous? {
        next := Replied(Unauthorized);
      } else if handler.req.form.TooLong? {
        next := Replied(TooLarge);
      } else if handler.req.form.Malformed? {
        next := Replied(BadRequest);
      }
      handlers := handlers[h := handler.(admitted := Some(now), pc := next)];
    }

    // ---------- The table ----------

    method FindPhotoByClientId(event: nat, clientId: string) returns (found: Option<PhotoId>)
      ensures found.Some? ==> IsRowOf(rows, event, clientId, found.value)
      ensures found.None? ==> !Stored(rows, event, clientId)
    {
      var left := rows.Keys;
      while left != {}
        invariant left <= rows.Keys
        invariant forall id | IsRowOf(rows, event, clientId, id) :: id in left
        decreases left
      {
        var id :| id in left;
        if rows[id].event == event && rows[id].clientId == clientId {
          return Some(id);
        }
        left := left - {id};
      }
      return None;
    }

    /** The lookup that answers a retry, and the thumbnail; `id` is the generated photo id. */
    method LookUp(h: nat, ok: bool, id: PhotoId)
      requires Valid() && AtLook(View(), h) && Unused(View(), id)
      modifies this`handlers, this`owner
      ensures Valid() && View() == LookedUp(old(View()), h, ok, id)
    {
      ReachableStep(View(), Look(h, ok, id));
      var handler := handlers[h];
      if !ok {
        handlers := handlers[h := handler.(pc := Replied(ServerError))];
        return;
      }
      var existing := FindPhotoByClientId(handler.event, handler.req.clientId);
      if existing.Some? {
        RowsAreUnique(View());
        FoundIsTheOne(rows, handler.event, handler.req.clientId, existing.value);
        handlers := handlers[h := handler.(pc := Replied(Duplicate(existing.value)))];
        return;
      }
      if handler.req.thumb.None? {
        handlers := handlers[h := handler.(pc := Replied(BadRequest))];
        return;
      }
      handlers := handlers[h := handler.(pc := StoringPhoto(id))];
      owner := owner[id := h];
    }

    // ---------- The object store ----------

    method PutObject(key: string, body: Bytes, fault: Fault) returns (ok: bool)
      requires !storage.putFails
      modifies storage`objects
      ensures ok == fault.Fine? && storage.objects == Put(old(storage.objects), key, body, fault)
    {
      if fault.Clean? {
        return false;
      }
      var stored := storage.Put(key, body, "image/jpeg");
      return fault.Fine?;
    }

    method GiveUp(h: nat, pc: Pc, id: PhotoId)
      requires h in handlers
      modifies this`handlers, this`orphans
      ensures View() == Abandon(old(View()), h, pc, id)
    {
      handlers := handlers[h := handlers[h].(pc := pc)];
      orphans := orphans + {id};
    }

    method PutPhoto(h: nat, fault: Fault)
      requires Valid() && AtPhoto(View(), h)
      modifies this`handlers, this`orphans, storage`objects
      ensures Valid() && View() == PhotoPut(old(View()), h, fault)
    {
      ReachableStep(View(), StorePhoto(h, fault));
      var id := handlers[h].pc.id;
      var ok := PutObject(PhotoKey(id), handlers[h].req.bytes, fault);
      if !ok {
        GiveUp(h, Replied(BadGateway), id);
        return;
      }
      handlers := handlers[h := handlers[h].(pc := StoringThumb(id))];
    }

    method PutThumb(h: nat, fault: Fault)
      requires Valid() && AtThumb(View(), h)
      modifies this`handlers, this`orphans, storage`objects
      ensures Valid() && View() == ThumbPut(old(View()), h, fault)
    {
      ReachableStep(View(), StoreThumb(h, fault));
      var id := handlers[h].pc.id;
      var thumb := handlers[h].req.thumb;
      var ok := PutObject(ThumbKey(id), if thumb.Some? then thumb.value else [], fault);
      if !ok {
        GiveUp(h, Replied(BadGateway), id);
        return;
      }
      handlers := handlers[h := handlers[h].(pc := Inserting(id))];
    }

    // ---------- The insert ----------

    /** CreatePhoto; the table refuses a second row for one client id in one event. */
    method CreatePhoto(h: nat, fault: Fault)
      requires Valid() && AtInsert(View(), h)
      modifies this`handlers, this`orphans, this`rows
      ensures Valid() && View() == Inserted(old(View()), h, fault)
    {
      ReachableStep(View(), Insert(h, fault));
      InsertRow(h, fault);
    }

    method InsertRow(h: nat, fault: Fault)
      requires AtInsert(View(), h)
      modifies this`handlers, this`orphans, this`rows
      ensures View() == Inserted(old(View()), h, fault)
    {
      var handler := handlers[h];
      var id := handler.pc.id;
      if fault.Clean? {
        GiveUp(h, Replied(ServerError), id);
        return;
      }
      var taken := FindPhotoByClientId(handler.event, handler.req.clientId);
      if taken.Some? {
        GiveUp(h, Resolving(id), id);
        return;
      }
      rows := rows[id := RowFor(handler, h, id)];
      handlers := handlers[h := handler.(pc := Replied(if fault.Fine? then Created(id) else ServerError))];
    }

    method ResolveRace(h: nat, ok: bool)
      requires Valid() && AtResolve(View(), h)
      modifies this`handlers
      ensures Valid() && View() == Resolved(old(View()), h, ok)
    {
      ReachableStep(View(), Resolve(h, ok));
      RowsAreUnique(View());
      Reread(h, ok);
    }

    method Reread(h: nat, ok: bool)
      requires Unique(rows) && AtResolve(View(), h)
      modifies this`handlers
      ensures View() == Resolved(old(View()), h, ok)
    {
      var handler := handlers[h];
      var winner: Option<PhotoId> := None;
      if ok {
        winner := FindPhotoByClientId(handler.event, handler.req.clientId);
      }
      if winner.Some? {
        FoundIsTheOne(rows, handler.event, handler.req.clientId, winner.value);
        handlers := handlers[h := handler.(pc := Replied(Duplicate(winner.value)))];
      } else {
        handlers := handlers[h := handler.(pc := Replied(ServerError))];
      }
    }

    // ---------- The album ----------

    /** requireUnlocked has loaded the event; the clock is read next. */
    method BeginRead(k: nat, want: Want)
      requires Valid() && k !in readers && events != []
      modifies this`readers, this`named
      ensures Valid() && View() == Opening(old(View()), k, want)
      ensures readers == old(readers)[k := Reader(want, |events| - 1, false)]
    {
      ReachableStep(View(), PhotoServer.Open(k, want));
      readers := readers[k := Reader(want, |events| - 1, false)];
      if want.Original? {
        named := named + {want.id};
      }
    }

    method RequireUnlocked(k: nat) returns (ok: bool)
      requires Valid() && k in readers && !readers[k].unlocked
      modifies this`readers
      ensures Valid() && ok == CanUnlock(old(View()), k)
      ensures k in readers && readers[k].event < |events| && (ok <==> events[readers[k].event].endsAt <= now)
      ensures readers == old(readers)[k := old(readers)[k].(unlocked := ok)]
      ensures View() == if ok then Unlocking(old(View()), k) else old(View())
    {
      ReaderKnowsItsEvent(View(), k);
      ok := IsOver(events[readers[k].event], now);
      if ok {
        ReachableStep(View(), Unlock(k));
        readers := readers[k := readers[k].(unlocked := true)];
      }
    }

    /** ListPhotosByEvent. */
    method ListPhotosByEvent(event: nat) returns (ids: seq<PhotoId>)
      ensures IsAlbum(rows, taken, event, ids)
    {
      ids := [];
      var left := Album(rows, event);
      while left != {}
        invariant multiset(ids) + multiset(left) == multiset(Album(rows, event))
        decreases left
      {
        var id :| id in left;
        assert multiset(left) == multiset(left - {id}) + multiset{id};
        ids := ids + [id];
        left := left - {id};
      }
      AlbumOrderIsTotal(rows, taken);
      SortBySorts(AlbumOrder(rows, taken), ids);
      ids := SortBy(AlbumOrder(rows, taken), ids);
      OrderedIsAlbum(rows, taken, event, ids);
    }

    /**
     * `List` behind its guard. `listOk` is whether the query goes well, `unsigned` the keys that
     * cannot be signed. The reply holds the event's photos, each once and in album order, and
     * every one of them is of an event that is over; or it holds none.
     */
    method List(k: nat, listOk: bool, unsigned: set<string>) returns (reply: ListReply)
      requires Valid() && k in readers && readers[k].unlocked && readers[k].want.WholeAlbum?
      ensures reply.ListFailed? <==> !listOk
      ensures reply.Listed? ==> IsAlbum(rows, taken, readers[k].event, reply.photos)
      ensures reply.Listed? ==> forall id | id in reply.photos ::
                id in rows && rows[id].event < |events| && events[rows[id].event].endsAt <= now
      ensures reply.SigningFailed? <==>
                listOk && exists id :: id in Album(rows, readers[k].event) && CannotSign(rows[id], unsigned)
    {
      if !listOk {
        return ListFailed;
      }
      UnlockedEventIsOver(View(), k);
      var ids := ListPhotosByEvent(readers[k].event);
      AlbumHasThese(rows, taken, readers[k].event, ids);
      for i := 0 to |ids|
        invariant forall j | 0 <= j < i :: ids[j] in rows && !CannotSign(rows[ids[j]], unsigned)
      {
        assert ids[i] in Album(rows, readers[k].event);
        if rows[ids[i]].storageKey in unsigned || rows[ids[i]].thumbKey in unsigned {
          return SigningFailed;
        }
      }
      return Listed(ids);
    }

    /**
     * `Original` serves any photo id: still only photos whose own event is over leave. `isUuid`
     * is whether the id parses, `findOk` how the query goes.
     */
    method FetchOriginal(k: nat, isUuid: bool, findOk: bool) returns (reply: OriginalReply)
      requires Valid() && k in readers && readers[k].unlocked && readers[k].want.Original?
      ensures reply.BadId? <==> !isUuid
      ensures reply.FindFailed? <==> isUuid && !findOk
      ensures reply.NotFound? <==> isUuid && findOk && readers[k].want.id !in rows
      ensures reply.ReadFailed? <==> isUuid && findOk && readers[k].want.id in rows && storage.openFails
      ensures reply.Sent? ==>
        var row := rows[readers[k].want.id];
        && row.event < |events| && events[row.event].endsAt <= now
        && row.writer in handlers && reply.body == handlers[row.writer].req.bytes
    {
      if !isUuid {
        return BadId;
      }
      if !findOk {
        return FindFailed;
      }
      var id := readers[k].want.id;
      if id !in rows {
        return NotFound;
      }
      OriginalIsOver(View(), k);
      var download := storage.Open(rows[id].storageKey);
      if download.None? {
        return ReadFailed;
      }
      return Sent(download.value.body);
    }

    // ---------- Upload, with nothing in between ----------

    /**
     * `Upload` from its first statement to its reply; `luck` is how the calls to the database and
     * the store go, `id` the generated id. The reply is the one that the first failing check calls
     * for, and what is written is exactly what the calls let it write.
     */
    method Upload(h: nat, req: Request, id: PhotoId, luck: Luck) returns (reply: Reply)
      requires Valid() && h !in handlers && Unused(View(), id)
      modifies this`handlers, this`owner, this`orphans, this`rows, storage`objects
      ensures Valid() && h in handlers && handlers[h].pc == Replied(reply)
      ensures IsUpload(old(View()), View(), h, req, id, luck)
      ensures Extends(old(rows), rows) && Extends(old(storage.objects), storage.objects)
    {
      UploadAlone(View(), h, req, id, luck);
      UploadOnlyAdds(View(), h, req, id, luck);
      AdmitAndLookUp(h, req, id, luck);
      if handlers[h].pc.Replied? {
        RepliedStays(View(), h, id, luck);
        return handlers[h].pc.reply;
      }
      StoreObjects(h, luck);
      if handlers[h].pc.Replied? {
        RepliedStays(View(), h, id, luck);
        return handlers[h].pc.reply;
      }
      InsertOrResolve(h, luck);
      return handlers[h].pc.reply;
    }

    /** Up to the generated photo id. */
    method AdmitAndLookUp(h: nat, req: Request, id: PhotoId, luck: Luck)
      requires Valid() && h !in handlers && Unused(View(), id)
      modifies this`handlers, this`owner
      ensures Valid() && View() == ThenLook(LetIn(old(View()), h, req, luck), h, luck.look, id)
      ensures h in handlers && (handlers[h].pc.Replied? || handlers[h].pc.StoringPhoto?)
    {
      Admit(h, req, luck);
      if handlers[h].pc.Replied? {
        return;
      }
      LookShape(View(), h, luck.look, id);
      LookUp(h, luck.look, id);
    }

    /** requireRunning and the form. */
    method Admit(h: nat, req: Request, luck: Luck)
      requires Valid() && h !in handlers
      modifies this`handlers
      ensures Valid() && View() == LetIn(old(View()), h, req, luck) && owner == old(owner)
      ensures h in handlers && (handlers[h].pc.Replied? || handlers[h].pc.Looking?)
    {
      LetInIs(View(), h, req, luck);
      LoadEvent(h, req, luck.load);
      if handlers[h].pc.Replied? {
        return;
      }
      RequireRunning(h);
    }

    /** The two Puts. A handler that replies here has failed. */
    method StoreObjects(h: nat, luck: Luck)
      requires Valid() && h in handlers && handlers[h].pc.StoringPhoto?
      modifies this`handlers, this`orphans, storage`objects
      ensures Valid() && View() == ObjectsPut(old(View()), h, luck)
      ensures h in handlers && (handlers[h].pc.Replied? || handlers[h].pc.Inserting?)
    {
      ObjectsPutIs(View(), h, handlers[h].pc.id, luck);
      PutPhoto(h, luck.photo);
      if handlers[h].pc.Replied? {
        return;
      }
      PutThumb(h, luck.thumb);
    }

    method InsertOrResolve(h: nat, luck: Luck)
      requires Valid() && h in handlers && handlers[h].pc.Inserting?
      modifies this`handlers, this`orphans, this`rows
      ensures Valid() && View() == RowPut(old(View()), h, luck) && h in handlers && handlers[h].pc.Replied?
    {
      InsertShape(View(), h, luck.insert);
      CreatePhoto(h, luck.insert);
      if handlers[h].pc.Resolving? {
        ResolveRace(h, luck.resolve);
      }
    }
  }

  predicate CannotSign(row: Row, unsigned: set<string>) {
    row.storageKey in unsigned || row.thumbKey in unsigned
  }

  lemma AlbumHasThese(rows: Rows, taken: string -> int, event: nat, ids: seq<PhotoId>)
    requires IsAlbum(rows, taken, event, ids)
    ensures forall id :: id in ids <==> id in Album(rows, event)
  {
    forall id ensures id in ids <==> id in Album(rows, event) {
      assert id in ids <==> id in multiset(ids);
    }
  }

  lemma NotLetInYet(s: State, h: nat)
    requires Reachable(s) && AtGuard(s, h)
    ensures s.handlers[h].admitted.None?
  {
    ReachableInv(s);
    assert HandlerOk(h, s.handlers[h], s.now, s.events, s.rows, s.objects, s.owner, s.orphans);
  }

  lemma ReaderKnowsItsEvent(s: State, k: nat)
    requires Reachable(s) && k in s.readers
    ensures s.readers[k].event < |s.events|
  {
    ReachableInv(s);
    assert ReaderOk(s.readers[k], s.now, s.events, s.owner, s.handlers, s.named);
  }

  lemma OriginalIsOver(s: State, k: nat)
    requires Reachable(s) && k in s.readers && s.readers[k].unlocked
    requires s.readers[k].want.Original? && s.readers[k].want.id in s.rows
    ensures
      var row := s.rows[s.readers[k].want.id];
      && row.event < |s.events| && s.events[row.event].endsAt <= s.now
      && row.writer in s.handlers && row.storageKey in s.objects
      && s.objects[row.storageKey].body == s.handlers[row.writer].req.bytes
  {
    ReachableInv(s);
    var id := s.readers[k].want.id;
    EmittedIsOver(s, k, id);
    assert RowBacked(id, s.rows[id], s.handlers, s.objects, s.owner);
  }

  lemma LookShape(s: State, h: nat, ok: bool, id: PhotoId)
    requires AtLook(s, h)
    ensures
      var t := LookedUp(s, h, ok, id);
      && h in t.handlers && (t.handlers[h].pc.Replied? || t.handlers[h].pc == StoringPhoto(id))
  {
  }

  lemma UnlockedEventIsOver(s: State, k: nat)
    requires Reachable(s) && k in s.readers && s.readers[k].unlocked
    ensures s.readers[k].event < |s.events| && s.events[s.readers[k].event].endsAt <= s.now
  {
    ReachableInv(s);
    assert ReaderOk(s.readers[k], s.now, s.events, s.owner, s.handlers, s.named);
  }

  lemma InsertShape(s: State, h: nat, fault: Fault)
    requires AtInsert(s, h)
    ensures
      var t := Inserted(s, h, fault);
      h in t.handlers && (t.handlers[h].pc.Resolving? || t.handlers[h].pc.Replied?)
  {
  }
}
