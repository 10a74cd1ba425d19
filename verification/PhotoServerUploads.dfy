/** `Upload` with nothing in between: what it answers and what it leaves, as one decision. */
module PhotoServerUploads {
  import opened Faults
  import opened Options
  import opened ObjectStore
  import opened PhotoServer
  import opened PhotoServerInvariants
  import opened PhotoServerTheorems

  /** How the calls of one `Upload` go. */
  datatype Luck = Luck(load: bool, look: bool, photo: Fault, thumb: Fault, insert: Fault, resolve: bool)

  // ---------- The statements in their order ----------

  ghost function ThenGuard(s: State, h: nat): State {
    if AtGuard(s, h) then Guarded(s, h) else s
  }

  ghost function ThenLook(s: State, h: nat, ok: bool, id: PhotoId): State {
    if AtLook(s, h) then LookedUp(s, h, ok, id) else s
  }

  ghost function ThenPhoto(s: State, h: nat, fault: Fault): State {
    if AtPhoto(s, h) then PhotoPut(s, h, fault) else s
  }

  ghost function ThenThumb(s: State, h: nat, fault: Fault): State {
    if AtThumb(s, h) then ThumbPut(s, h, fault) else s
  }

  ghost function ThenInsert(s: State, h: nat, fault: Fault): State {
    if AtInsert(s, h) then Inserted(s, h, fault) else s
  }

  ghost function ThenResolve(s: State, h: nat, ok: bool): State {
    if AtResolve(s, h) then Resolved(s, h, ok) else s
  }

  ghost function LetIn(s: State, h: nat, req: Request, luck: Luck): State {
    ThenGuard(Arriving(s, h, req, luck.load), h)
  }

  ghost function ObjectsPut(s: State, h: nat, luck: Luck): State {
    ThenThumb(ThenPhoto(s, h, luck.photo), h, luck.thumb)
  }

  ghost function RowPut(s: State, h: nat, luck: Luck): State {
    ThenResolve(ThenInsert(s, h, luck.insert), h, luck.resolve)
  }

  ghost function Uploaded(s: State, h: nat, req: Request, id: PhotoId, luck: Luck): State {
    RowPut(ObjectsPut(ThenLook(LetIn(s, h, req, luck), h, luck.look, id), h, luck), h, luck)
  }

  // ---------- The decision ----------

  /** This photo of the current event is a photo of the request's capture. */
  ghost predicate IsKnownAs(s: State, req: Request, p: PhotoId) {
    p in s.rows && s.rows[p].event == |s.events| - 1 && s.rows[p].clientId == req.clientId
  }

  ghost predicate IsKnown(s: State, req: Request) {
    exists p :: IsKnownAs(s, req, p)
  }

  /** The upload is new to a running event and nothing is wrong with it: the objects are next. */
  ghost predicate IsNew(s: State, req: Request, luck: Luck) {
    && luck.load && s.events != [] && s.now < s.events[|s.events| - 1].endsAt
    && req.form.WellFormed? && luck.look && req.thumb.Some?
    && !IsKnown(s, req)
  }

  /** The reply by the order of the checks; a duplicate's id is its row's. */
  ghost predicate IsReply(s: State, req: Request, id: PhotoId, luck: Luck, reply: Reply) {
    if !luck.load then reply == ServerError
    else if s.events == [] then reply == NoEvent
    else if s.events[|s.events| - 1].endsAt <= s.now then reply == Locked
    else if req.form.Anonymous? then reply == Unauthorized
    else if req.form.TooLong? then reply == TooLarge
    else if req.form.Malformed? then reply == BadRequest
    else if !luck.look then reply == ServerError
    else if IsKnown(s, req) then reply.Duplicate? && IsKnownAs(s, req, reply.id)
    else if req.thumb.None? then reply == BadRequest
    else if !luck.photo.Fine? || !luck.thumb.Fine? then reply == BadGateway
    else reply == if luck.insert.Fine? then Created(id) else ServerError
  }

  function ObjectsAfter(objects: Objects, req: Request, id: PhotoId, luck: Luck): Objects {
    var photo := objects["photos/" + id + ".jpg" := Object(req.bytes, "image/jpeg")];
    var thumb := if req.thumb.Some? then req.thumb.value else [];
    if luck.photo.Clean? then objects
    else if luck.photo.Dirty? || luck.thumb.Clean? then photo
    else photo["thumbs/" + id + ".jpg" := Object(thumb, "image/jpeg")]
  }

  function RowsAfter(s: State, h: nat, req: Request, id: PhotoId, luck: Luck): Rows {
    if luck.photo.Fine? && luck.thumb.Fine? && !luck.insert.Clean? then
      s.rows[id := Row(if s.events == [] then 0 else |s.events| - 1, req.clientId, "photos/" + id + ".jpg",
                       "thumbs/" + id + ".jpg", |req.bytes|, req.takenAt, h)]
    else s.rows
  }

  /** What `Upload` has answered and stored. */
  ghost predicate IsUpload(s: State, t: State, h: nat, req: Request, id: PhotoId, luck: Luck) {
    && h in t.handlers && t.handlers == s.handlers[h := t.handlers[h]] && t.handlers[h].req == req
    && t.handlers[h].pc.Replied? && IsReply(s, req, id, luck, t.handlers[h].pc.reply)
    && t.rows == (if IsNew(s, req, luck) then RowsAfter(s, h, req, id, luck) else s.rows)
    && t.objects == (if IsNew(s, req, luck) then ObjectsAfter(s.objects, req, id, luck) else s.objects)
    && t.now == s.now && t.events == s.events && t.readers == s.readers
  }

  // ---------- Why ----------

  function AfterLetIn(s: State, req: Request, luck: Luck): Handler {
    if !luck.load then Handler(req, 0, None, Replied(ServerError))
    else if s.events == [] then Handler(req, 0, None, Replied(NoEvent))
    else if s.events[|s.events| - 1].endsAt <= s.now then Handler(req, |s.events| - 1, None, Replied(Locked))
    else Handler(req, |s.events| - 1, Some(s.now),
                 match req.form
                 case Anonymous => Replied(Unauthorized)
                 case TooLong => Replied(TooLarge)
                 case Malformed => Replied(BadRequest)
                 case WellFormed => Looking)
  }

  lemma LetInIs(s: State, h: nat, req: Request, luck: Luck)
    requires h !in s.handlers
    ensures LetIn(s, h, req, luck) == s.(handlers := s.handlers[h := AfterLetIn(s, req, luck)])
  {
    var m := Arriving(s, h, req, luck.load);
    if AtGuard(m, h) {
      assert Guarded(m, h).handlers == s.handlers[h := AfterLetIn(s, req, luck)];
    }
  }

  /** Once a handler has replied nothing more happens. */
  lemma RepliedStays(s: State, h: nat, id: PhotoId, luck: Luck)
    requires h in s.handlers && s.handlers[h].pc.Replied?
    ensures ThenLook(s, h, luck.look, id) == s && ObjectsPut(s, h, luck) == s && RowPut(s, h, luck) == s
  {
  }

  ghost predicate AtLookup(s: State, h: nat, req: Request) {
    && h in s.handlers && s.handlers[h].pc.Looking? && s.handlers[h].req == req
    && s.events != [] && s.handlers[h].event == |s.events| - 1
    && s.now < s.events[|s.events| - 1].endsAt && req.form.WellFormed?
  }

  lemma KnownIsStored(s: State, req: Request)
    requires s.events != []
    ensures Stored(s.rows, |s.events| - 1, req.clientId) <==> IsKnown(s, req)
  {
    var e := |s.events| - 1;
    assert forall p :: IsRowOf(s.rows, e, req.clientId, p) <==> IsKnownAs(s, req, p);
  }

  lemma LookIs(s: State, h: nat, req: Request, id: PhotoId, luck: Luck)
    requires luck.load && AtLookup(s, h, req)
    ensures
      var t := ThenLook(s, h, luck.look, id);
      && h in t.handlers && t.handlers == s.handlers[h := s.handlers[h].(pc := t.handlers[h].pc)]
      && t == s.(handlers := t.handlers, owner := t.owner)
      && (if IsNew(s, req, luck) then t.handlers[h].pc == StoringPhoto(id)
          else t.handlers[h].pc.Replied? && IsReply(s, req, id, luck, t.handlers[h].pc.reply))
  {
    KnownIsStored(s, req);
  }

  lemma ObjectsPutIs(s: State, h: nat, id: PhotoId, luck: Luck)
    requires h in s.handlers && s.handlers[h].pc == StoringPhoto(id)
    ensures
      var t := ObjectsPut(s, h, luck);
      && h in t.handlers && t.handlers == s.handlers[h := t.handlers[h]]
      && t == s.(handlers := t.handlers, objects := ObjectsAfter(s.objects, s.handlers[h].req, id, luck),
                 orphans := t.orphans)
      && t.handlers[h] == s.handlers[h].(pc := if luck.photo.Fine? && luck.thumb.Fine? then Inserting(id)
                                               else Replied(BadGateway))
  {
    var m := ThenPhoto(s, h, luck.photo);
    if luck.photo.Fine? {
      assert m.handlers[h] == s.handlers[h].(pc := StoringThumb(id));
    }
  }

  lemma RowPutIs(s: State, h: nat, luck: Luck)
    requires AtInsert(s, h) && !Stored(s.rows, s.handlers[h].event, s.handlers[h].req.clientId)
    ensures
      var t, handler, id := RowPut(s, h, luck), s.handlers[h], s.handlers[h].pc.id;
      && h in t.handlers && t == s.(handlers := t.handlers, rows := t.rows, orphans := t.orphans)
      && t.handlers == s.handlers[h := handler.(pc := Replied(if luck.insert.Fine? then Created(id) else ServerError))]
      && t.rows == (if luck.insert.Clean? then s.rows
                    else s.rows[id := Row(handler.event, handler.req.clientId, "photos/" + id + ".jpg",
                                          "thumbs/" + id + ".jpg", |handler.req.bytes|, handler.req.takenAt, h)])
  {
  }

  /** From the objects on, for an upload that is new. */
  lemma NewIsStored(s: State, h: nat, req: Request, id: PhotoId, luck: Luck)
    requires luck.load && AtLookup(s, h, req) && IsNew(s, req, luck)
    requires h in s.handlers
    ensures
      var m := ThenLook(s, h, luck.look, id);
      IsUpload(s, RowPut(ObjectsPut(m, h, luck), h, luck), h, req, id, luck)
  {
    LookIs(s, h, req, id, luck);
    var m := ThenLook(s, h, luck.look, id);
    ObjectsPutIs(m, h, id, luck);
    var n := ObjectsPut(m, h, luck);
    if luck.photo.Fine? && luck.thumb.Fine? {
      KnownIsStored(s, req);
      RowPutIs(n, h, luck);
    } else {
      RepliedStays(n, h, id, luck);
    }
  }

  lemma KnownIsAnswered(s: State, h: nat, req: Request, id: PhotoId, luck: Luck)
    requires luck.load && AtLookup(s, h, req) && !IsNew(s, req, luck)
    ensures
      var m := ThenLook(s, h, luck.look, id);
      IsUpload(s, RowPut(ObjectsPut(m, h, luck), h, luck), h, req, id, luck)
  {
    LookIs(s, h, req, id, luck);
    RepliedStays(ThenLook(s, h, luck.look, id), h, id, luck);
  }

  /** The reply does not see the handlers. */
  lemma SameUpload(s: State, m: State, t: State, h: nat, req: Request, id: PhotoId, luck: Luck)
    requires h !in s.handlers && h in m.handlers && m == s.(handlers := s.handlers[h := m.handlers[h]])
    requires IsUpload(m, t, h, req, id, luck)
    ensures IsUpload(s, t, h, req, id, luck)
  {
    assert forall p :: IsKnownAs(s, req, p) <==> IsKnownAs(m, req, p);
  }

  /**
   * `Upload` on its own gives exactly the reply that the first failing check calls for, else 200
   * with the stored photo's id, else 201; and it leaves exactly the row and the objects that its
   * calls to the store and the database let it write.
   */
  lemma UploadAlone(s: State, h: nat, req: Request, id: PhotoId, luck: Luck)
    requires h !in s.handlers
    ensures IsUpload(s, Uploaded(s, h, req, id, luck), h, req, id, luck)
  {
    LetInIs(s, h, req, luck);
    var m := LetIn(s, h, req, luck);
    if m.handlers[h].pc.Replied? {
      RepliedStays(m, h, id, luck);
    } else if IsNew(m, req, luck) {
      NewIsStored(m, h, req, id, luck);
      SameUpload(s, m, Uploaded(s, h, req, id, luck), h, req, id, luck);
    } else {
      KnownIsAnswered(m, h, req, id, luck);
      SameUpload(s, m, Uploaded(s, h, req, id, luck), h, req, id, luck);
    }
  }

  /** It overwrites no row and no object. */
  lemma UploadOnlyAdds(s: State, h: nat, req: Request, id: PhotoId, luck: Luck)
    requires Reachable(s) && h !in s.handlers && Unused(s, id)
    ensures
      var t := Uploaded(s, h, req, id, luck);
      Extends(s.rows, t.rows) && Extends(s.objects, t.objects)
  {
    UploadAlone(s, h, req, id, luck);
    UnusedHasNothing(s, id);
  }

  lemma UnusedHasNothing(s: State, id: PhotoId)
    requires Reachable(s) && Unused(s, id)
    ensures id !in s.rows && "photos/" + id + ".jpg" !in s.objects && "thumbs/" + id + ".jpg" !in s.objects
  {
    ReachableInv(s);
    FreshKeys(s.objects, s.owner, id);
    assert id in s.rows ==> RowBacked(id, s.rows[id], s.handlers, s.objects, s.owner);
  }
}
