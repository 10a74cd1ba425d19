/** The photo server's guarantees over every interleaving of handlers, crashes and clients. */
module PhotoServerTheorems {
  import opened Faults
  import opened Options
  import opened ObjectStore
  import opened PhotoServer
  import opened PhotoServerInvariants

  ghost predicate Reached(now: int, ls: seq<Label>, t: State) {
    Valid(Init(now), ls) && t == After(Init(now), ls)
  }

  lemma ReachedInv(now: int, ls: seq<Label>, t: State)
    requires Reached(now, ls, t)
    ensures Inv(t)
  {
    InvAfter(Init(now), ls);
  }

  lemma {:induction false} RunSnoc(s: State, ls: seq<Label>, l: Label)
    requires Valid(s, ls) && Enabled(After(s, ls), l)
    ensures Valid(s, ls + [l]) && After(s, ls + [l]) == Apply(After(s, ls), l)
    decreases |ls|
  {
    if ls == [] {
      assert [l][1..] == [];
    } else {
      RunSnoc(Apply(s, ls[0]), ls[1..], l);
      assert (ls + [l])[1..] == ls[1..] + [l];
    }
  }

  lemma {:induction false} RunAppend(s: State, ls: seq<Label>, ms: seq<Label>)
    requires Valid(s, ls) && Valid(After(s, ls), ms)
    ensures Valid(s, ls + ms) && After(s, ls + ms) == After(After(s, ls), ms)
    decreases |ms|
  {
    if ms == [] {
      assert ls + ms == ls;
    } else {
      RunSnoc(s, ls, ms[0]);
      RunAppend(s, ls + [ms[0]], ms[1..]);
      assert ls + ms == (ls + [ms[0]]) + ms[1..];
    }
  }

  ghost predicate Reachable(s: State) {
    exists now: int, ls :: Reached(now, ls, s)
  }

  lemma ReachableInv(s: State)
    requires Reachable(s)
    ensures Inv(s)
  {
    var now: int, ls :| Reached(now, ls, s);
    ReachedInv(now, ls, s);
  }

  lemma ReachableStep(s: State, l: Label)
    requires Reachable(s) && Enabled(s, l)
    ensures Reachable(Apply(s, l))
  {
    var now: int, ls :| Reached(now, ls, s);
    RunSnoc(Init(now), ls, l);
    assert Reached(now, ls + [l], Apply(s, l));
  }

  lemma ReachableAfter(s: State, ls: seq<Label>)
    requires Reachable(s) && Valid(s, ls)
    ensures Reachable(After(s, ls))
  {
    var now: int, ks :| Reached(now, ks, s);
    RunAppend(Init(now), ks, ls);
    assert Reached(now, ks + ls, After(s, ls));
  }

  lemma ReachableInit(now: int)
    ensures Reachable(Init(now))
  {
    assert Reached(now, [], Init(now));
  }

  // ---------- One handler at a time ----------

  lemma OthersMoveNoHandler(s: State, l: Label)
    requires Enabled(s, l) && (l.Tick? || l.Create? || l.Open? || l.Unlock? || l.Emit?)
    ensures Apply(s, l).handlers == s.handlers
  {
  }

  /** A step of handler `h` changes no other handler, and no handler's request. */
  ghost predicate MovesOnly(handlers: Handlers, next: Handlers, h: nat, req: Request) {
    h in next && next == handlers[h := next[h]] && next[h].req == req
  }

  lemma LookMovesOne(s: State, h: nat, ok: bool, id: string)
    requires AtLook(s, h)
    ensures MovesOnly(s.handlers, LookedUp(s, h, ok, id).handlers, h, s.handlers[h].req)
  {
  }

  lemma GuardMovesOne(s: State, h: nat)
    requires AtGuard(s, h)
    ensures MovesOnly(s.handlers, Guarded(s, h).handlers, h, s.handlers[h].req)
  {
  }

  lemma EarlyStepsMoveOne(s: State, l: Label)
    requires Enabled(s, l) && (l.Arrive? || l.Guard? || l.Look? || l.Resolve?)
    ensures MovesOnly(s.handlers, Apply(s, l).handlers, l.h, if l.Arrive? then l.req else s.handlers[l.h].req)
  {
    match l
    case Arrive(_, _, _) =>
    case Guard(h) => GuardMovesOne(s, h);
    case Look(h, ok, id) => LookMovesOne(s, h, ok, id);
    case Resolve(_, _) =>
  }

  lemma PutsMoveOne(s: State, l: Label)
    requires Enabled(s, l) && (l.StorePhoto? || l.StoreThumb?)
    ensures MovesOnly(s.handlers, Apply(s, l).handlers, l.h, s.handlers[l.h].req)
  {
    match l
    case StorePhoto(_, _) =>
    case StoreThumb(_, _) =>
  }

  lemma InsertMovesOne(s: State, h: nat, fault: Fault)
    requires AtInsert(s, h)
    ensures MovesOnly(s.handlers, Inserted(s, h, fault).handlers, h, s.handlers[h].req)
  {
  }

  lemma CrashMovesOne(s: State, h: nat)
    requires Unfinished(s, h)
    ensures MovesOnly(s.handlers, Crashing(s, h).handlers, h, s.handlers[h].req)
  {
  }

  lemma LateStepsMoveOne(s: State, l: Label)
    requires Enabled(s, l) && (l.StorePhoto? || l.StoreThumb? || l.Insert? || l.Crash?)
    ensures MovesOnly(s.handlers, Apply(s, l).handlers, l.h, s.handlers[l.h].req)
  {
    match l
    case Insert(h, fault) => InsertMovesOne(s, h, fault);
    case Crash(h) => CrashMovesOne(s, h);
    case _ => PutsMoveOne(s, l);
  }

  /** The steps of a handler. */
  predicate ByHandler(l: Label) {
    !l.Tick? && !l.Create? && !l.Open? && !l.Unlock? && !l.Emit?
  }

  lemma HandlerMovesAlone(s: State, l: Label)
    requires Enabled(s, l) && ByHandler(l)
    ensures MovesOnly(s.handlers, Apply(s, l).handlers, l.h, if l.Arrive? then l.req else s.handlers[l.h].req)
  {
    if l.Arrive? || l.Guard? || l.Look? || l.Resolve? {
      EarlyStepsMoveOne(s, l);
    } else {
      LateStepsMoveOne(s, l);
    }
  }

  lemma RequestsAreFixed(s: State, l: Label, h: nat)
    requires Enabled(s, l) && h in Apply(s, l).handlers
    ensures if h in s.handlers then Apply(s, l).handlers[h].req == s.handlers[h].req
            else l.Arrive? && Apply(s, l).handlers[h].req == l.req
  {
    if ByHandler(l) {
      HandlerMovesAlone(s, l);
    } else {
      OthersMoveNoHandler(s, l);
    }
  }

  lemma OthersStay(s: State, l: Label, h: nat)
    requires Enabled(s, l) && h in s.handlers && (ByHandler(l) ==> l.h != h)
    ensures h in Apply(s, l).handlers && Apply(s, l).handlers[h] == s.handlers[h]
  {
    if ByHandler(l) {
      HandlerMovesAlone(s, l);
    } else {
      OthersMoveNoHandler(s, l);
    }
  }

  lemma RepliesAreFinal(s: State, l: Label, h: nat)
    requires Enabled(s, l) && h in s.handlers && s.handlers[h].pc.Replied?
    ensures h in Apply(s, l).handlers && Apply(s, l).handlers[h] == s.handlers[h]
  {
    OthersStay(s, l, h);
  }

  // ---------- Exactly once per event ----------

  lemma AtMostOneRow(now: int, ls: seq<Label>, t: State, p: PhotoId, q: PhotoId)
    requires Reached(now, ls, t)
    requires p in t.rows && q in t.rows
    requires t.rows[p].event == t.rows[q].event && t.rows[p].clientId == t.rows[q].clientId
    ensures p == q
  {
    ReachedInv(now, ls, t);
  }

  predicate Succeeded(reply: Reply) {
    reply.Created? || reply.Duplicate?
  }

  /**
   * However many handlers serve retries of one capture in one event, every success reply
   * carries the id of its one row, and at most one of them is the 201.
   */
  lemma SuccessRepliesAgree(now: int, ls: seq<Label>, t: State, g: nat, h: nat)
    requires Reached(now, ls, t) && g in t.handlers && h in t.handlers
    requires t.handlers[g].pc.Replied? && Succeeded(t.handlers[g].pc.reply)
    requires t.handlers[h].pc.Replied? && Succeeded(t.handlers[h].pc.reply)
    requires t.handlers[g].event == t.handlers[h].event && t.handlers[g].req.clientId == t.handlers[h].req.clientId
    ensures t.handlers[g].pc.reply.id == t.handlers[h].pc.reply.id
    ensures IsRowOf(t.rows, t.handlers[h].event, t.handlers[h].req.clientId, t.handlers[h].pc.reply.id)
    ensures t.handlers[g].pc.reply.Created? && t.handlers[h].pc.reply.Created? ==> g == h
  {
    ReachedInv(now, ls, t);
    assert HandlerOk(g, t.handlers[g], t.now, t.events, t.rows, t.objects, t.owner, t.orphans);
    assert HandlerOk(h, t.handlers[h], t.now, t.events, t.rows, t.objects, t.owner, t.orphans);
  }

  // ---------- Rows and objects ----------

  /** Each row's objects exist, hold what its upload sent, and have the recorded size. */
  lemma RowsAndObjectsAgree(now: int, ls: seq<Label>, t: State, id: PhotoId)
    requires Reached(now, ls, t) && id in t.rows
    ensures
      var row := t.rows[id];
      && row.writer in t.handlers
      && var req := t.handlers[row.writer].req;
      && row.clientId == req.clientId && row.takenAt == req.takenAt && row.event == t.handlers[row.writer].event
      && row.storageKey == "photos/" + id + ".jpg" && row.thumbKey == "thumbs/" + id + ".jpg"
      && row.storageKey in t.objects && t.objects[row.storageKey] == Object(req.bytes, "image/jpeg")
      && row.sizeBytes == |t.objects[row.storageKey].body|
      && req.thumb.Some? && row.thumbKey in t.objects
      && t.objects[row.thumbKey] == Object(req.thumb.value, "image/jpeg")
  {
    ReachedInv(now, ls, t);
    assert RowBacked(id, t.rows[id], t.handlers, t.objects, t.owner);
  }

  /** Distinct rows share no key, and a row's two keys differ. */
  lemma RowsShareNoKey(now: int, ls: seq<Label>, t: State, p: PhotoId, q: PhotoId)
    requires Reached(now, ls, t) && p in t.rows && q in t.rows && p != q
    ensures t.rows[p].storageKey != t.rows[q].storageKey && t.rows[p].thumbKey != t.rows[q].thumbKey
    ensures t.rows[p].storageKey != t.rows[q].thumbKey && t.rows[p].storageKey != t.rows[p].thumbKey
  {
    ReachedInv(now, ls, t);
    assert RowBacked(p, t.rows[p], t.handlers, t.objects, t.owner);
    assert RowBacked(q, t.rows[q], t.handlers, t.objects, t.owner);
    KeysAreApart();
  }

  /**
   * Each stored object belongs to one generated photo id. That id is a row's, or is held by
   * the handler still at work on it, or was abandoned; an abandoned id's keys are named by no row.
   */
  lemma ObjectsAreAccountedFor(now: int, ls: seq<Label>, t: State, key: string) returns (id: PhotoId)
    requires Reached(now, ls, t) && key in t.objects
    ensures id in t.owner && (key == PhotoKey(id) || key == ThumbKey(id))
    ensures id in t.rows || id in t.orphans ||
            (t.owner[id] in t.handlers && Holding(t.handlers[t.owner[id]].pc) && t.handlers[t.owner[id]].pc.id == id)
    ensures id in t.orphans ==> forall p | p in t.rows :: t.rows[p].storageKey != key && t.rows[p].thumbKey != key
  {
    ReachedInv(now, ls, t);
    id :| id in t.owner && (key == PhotoKey(id) || key == ThumbKey(id));
    KeysAreApart();
    forall p | p in t.rows && id in t.orphans ensures t.rows[p].storageKey != key && t.rows[p].thumbKey != key {
      assert RowBacked(p, t.rows[p], t.handlers, t.objects, t.owner);
    }
  }

  lemma StorePhotoOnlyAdds(s: State, h: nat, fault: Fault)
    requires AtPhoto(s, h) && PhotoKey(s.handlers[h].pc.id) !in s.objects
    ensures Extends(s.objects, PhotoPut(s, h, fault).objects) && PhotoPut(s, h, fault).rows == s.rows
    ensures s.orphans <= PhotoPut(s, h, fault).orphans
  {
  }

  lemma StoreThumbOnlyAdds(s: State, h: nat, fault: Fault)
    requires AtThumb(s, h) && ThumbKey(s.handlers[h].pc.id) !in s.objects
    ensures Extends(s.objects, ThumbPut(s, h, fault).objects) && ThumbPut(s, h, fault).rows == s.rows
    ensures s.orphans <= ThumbPut(s, h, fault).orphans
  {
  }

  lemma InsertOnlyAdds(s: State, h: nat, fault: Fault)
    requires AtInsert(s, h) && s.handlers[h].pc.id !in s.rows
    ensures Extends(s.rows, Inserted(s, h, fault).rows) && Inserted(s, h, fault).objects == s.objects
    ensures s.orphans <= Inserted(s, h, fault).orphans
  {
  }

  lemma StepOnlyAdds(s: State, l: Label)
    requires HandlersOk(s.handlers, s.now, s.events, s.rows, s.objects, s.owner, s.orphans) && Enabled(s, l)
    ensures Extends(s.rows, Apply(s, l).rows) && Extends(s.objects, Apply(s, l).objects)
    ensures s.orphans <= Apply(s, l).orphans
  {
    match l
    case StorePhoto(h, fault) =>
      assert HandlerOk(h, s.handlers[h], s.now, s.events, s.rows, s.objects, s.owner, s.orphans);
      StorePhotoOnlyAdds(s, h, fault);
    case StoreThumb(h, fault) =>
      assert HandlerOk(h, s.handlers[h], s.now, s.events, s.rows, s.objects, s.owner, s.orphans);
      StoreThumbOnlyAdds(s, h, fault);
    case Insert(h, fault) =>
      assert HandlerOk(h, s.handlers[h], s.now, s.events, s.rows, s.objects, s.owner, s.orphans);
      InsertOnlyAdds(s, h, fault);
    case _ => OthersAddNothing(s, l);
  }

  lemma HandlersAddNothing(s: State, l: Label)
    requires Enabled(s, l) && (l.Arrive? || l.Guard? || l.Look? || l.Resolve? || l.Crash?)
    ensures Apply(s, l).rows == s.rows && Apply(s, l).objects == s.objects && s.orphans <= Apply(s, l).orphans
  {
    match l
    case Arrive(_, _, _) =>
    case Guard(_) =>
    case Look(_, _, _) =>
    case Resolve(_, _) =>
    case Crash(_) =>
  }

  lemma OthersAddNothing(s: State, l: Label)
    requires Enabled(s, l) && !l.StorePhoto? && !l.StoreThumb? && !l.Insert?
    ensures Apply(s, l).rows == s.rows && Apply(s, l).objects == s.objects && s.orphans <= Apply(s, l).orphans
  {
    if l.Arrive? || l.Guard? || l.Look? || l.Resolve? || l.Crash? {
      HandlersAddNothing(s, l);
    }
  }

  /** Rows and objects are written once: no later step changes or removes one, and no orphan becomes a row. */
  lemma {:induction false} RowsAndObjectsArePermanent(s: State, ls: seq<Label>)
    requires Inv(s) && Valid(s, ls)
    ensures Extends(s.rows, After(s, ls).rows) && Extends(s.objects, After(s, ls).objects)
    ensures forall id | id in s.orphans :: id !in After(s, ls).rows
    decreases |ls|
  {
    assert IdsAccounted(s.rows, s.owner, s.orphans, s.handlers);
    if ls != [] {
      StepOnlyAdds(s, ls[0]);
      InvStep(s, ls[0]);
      RowsAndObjectsArePermanent(Apply(s, ls[0]), ls[1..]);
    }
  }

  // ---------- The lock ----------

  /** Every event but the latest is over at all later times. */
  lemma OnlyTheLatestEventCanRun(now: int, ls: seq<Label>, t: State, i: nat)
    requires Reached(now, ls, t) && i < |t.events| && t.now < t.events[i].endsAt
    ensures i == |t.events| - 1
  {
    ReachedInv(now, ls, t);
  }

  lemma EmittedIsOver(t: State, k: nat, id: PhotoId)
    requires Inv(t) && k in t.readers && t.readers[k].unlocked && id in t.rows && Answers(t, t.readers[k], id)
    ensures t.rows[id].event < |t.events| && t.events[t.rows[id].event].endsAt <= t.now
  {
    assert ReaderOk(t.readers[k], t.now, t.events, t.owner, t.handlers, t.named);
    assert RowBacked(id, t.rows[id], t.handlers, t.objects, t.owner);
    var e := t.rows[id].event;
    assert e <= t.readers[k].event;
    assert e < |t.events| - 1 ==> t.events[e].endsAt <= t.now;
  }

  /**
   * The lock covers every event: whichever photo a list, a zip or an Original request sends,
   * its own event is over at that moment, although the guard looked only at the current one.
   */
  lemma NothingLeavesARunningEvent(now: int, ls: seq<Label>, t: State, k: nat, id: PhotoId)
    requires Reached(now, ls, t) && Enabled(t, Emit(k, id))
    ensures t.rows[id].event < |t.events| && t.events[t.rows[id].event].endsAt <= t.now
  {
    ReachedInv(now, ls, t);
    EmittedIsOver(t, k, id);
  }

  /** Every row was let in by a guard that saw the row's own event running. */
  lemma RowsWereAdmittedInTime(now: int, ls: seq<Label>, t: State, id: PhotoId)
    requires Reached(now, ls, t) && id in t.rows
    ensures
      var row := t.rows[id];
      && row.event < |t.events| && row.writer in t.handlers && t.handlers[row.writer].admitted.Some?
      && t.handlers[row.writer].admitted.value <= t.now
      && t.handlers[row.writer].admitted.value < t.events[row.event].endsAt
  {
    ReachedInv(now, ls, t);
    assert RowBacked(id, t.rows[id], t.handlers, t.objects, t.owner);
    assert Admitted(t.handlers[t.rows[id].writer], t.now, t.events);
  }

  /** Whoever was let in was let in before the event's end, as every success was; a 423 came at the end or later. */
  lemma RepliesFollowTheClock(now: int, ls: seq<Label>, t: State, h: nat)
    requires Reached(now, ls, t) && h in t.handlers
    ensures t.handlers[h].pc == Replied(Locked) ==>
              && t.handlers[h].event < |t.events| && t.events[t.handlers[h].event].endsAt <= t.now
              && t.handlers[h].admitted.None?
    ensures t.handlers[h].pc.Replied? && Succeeded(t.handlers[h].pc.reply) ==> t.handlers[h].admitted.Some?
    ensures t.handlers[h].admitted.Some? ==>
              && t.handlers[h].event < |t.events| && t.handlers[h].admitted.value <= t.now
              && t.handlers[h].admitted.value < t.events[t.handlers[h].event].endsAt
  {
    ReachedInv(now, ls, t);
    assert HandlerOk(h, t.handlers[h], t.now, t.events, t.rows, t.objects, t.owner, t.orphans);
  }

  // ---------- Retries ----------

  lemma RowWriterIsDone(s: State, id: PhotoId)
    requires Inv(s) && id in s.rows
    ensures s.rows[id].writer in s.handlers && s.handlers[s.rows[id].writer].pc.Replied?
    ensures
      var handler := s.handlers[s.rows[id].writer];
      s.rows[id].event == handler.event && s.rows[id].clientId == handler.req.clientId
  {
    assert RowBacked(id, s.rows[id], s.handlers, s.objects, s.owner);
  }

  lemma DuplicateNamesTheRow(t: State, h: nat, id: PhotoId)
    requires Inv(t) && h in t.handlers && id in t.rows && t.rows[id].writer != h
    requires t.rows[id].event == t.handlers[h].event && t.rows[id].clientId == t.handlers[h].req.clientId
    ensures t.handlers[h].pc.Replied? && Succeeded(t.handlers[h].pc.reply) ==> t.handlers[h].pc.reply == Duplicate(id)
    ensures forall p | p in t.rows :: t.rows[p].writer != h
  {
    assert HandlerOk(h, t.handlers[h], t.now, t.events, t.rows, t.objects, t.owner, t.orphans);
    forall p | p in t.rows ensures t.rows[p].writer != h {
      RowWriterIsDone(t, p);
    }
  }

  /**
   * Every handler of a stored capture, be it a later retry or the loser of the race, whatever
   * goes wrong and whatever else runs: it adds no row, and if it succeeds its answer is the
   * duplicate's, with the id of the stored row.
   */
  lemma RetriesStoreNothing(s: State, ls: seq<Label>, h: nat, id: PhotoId)
    requires Inv(s) && Valid(s, ls) && id in s.rows
    requires h in s.handlers ==> !s.handlers[h].pc.Replied?
    requires
      var t := After(s, ls);
      h in t.handlers && t.handlers[h].event == s.rows[id].event && t.handlers[h].req.clientId == s.rows[id].clientId
    ensures
      var t := After(s, ls);
      && (t.handlers[h].pc.Replied? && Succeeded(t.handlers[h].pc.reply) ==> t.handlers[h].pc.reply == Duplicate(id))
      && (forall p | p in t.rows :: t.rows[p].writer != h)
  {
    RowWriterIsDone(s, id);
    RowsAndObjectsArePermanent(s, ls);
    InvAfter(s, ls);
    DuplicateNamesTheRow(After(s, ls), h, id);
  }

  // ---------- After the end ----------

  /** If the handler was let in, it was at `from` or later. */
  ghost predicate LetInSince(handlers: Handlers, h: nat, from: int) {
    h in handlers && handlers[h].admitted.Some? ==> handlers[h].admitted.value >= from
  }

  lemma EarlyStepsLetInLater(s: State, l: Label, h: nat, from: int)
    requires Enabled(s, l) && (l.Arrive? || l.Guard? || l.Look? || l.Resolve?) && s.now >= from
    requires LetInSince(s.handlers, h, from)
    ensures LetInSince(Apply(s, l).handlers, h, from)
  {
    match l
    case Arrive(_, _, _) =>
    case Guard(_) =>
    case Look(_, _, _) =>
    case Resolve(_, _) =>
  }

  lemma LateStepsLetNobodyIn(s: State, l: Label, h: nat, from: int)
    requires Enabled(s, l) && (l.StorePhoto? || l.StoreThumb? || l.Insert? || l.Crash?)
    requires LetInSince(s.handlers, h, from)
    ensures LetInSince(Apply(s, l).handlers, h, from)
  {
    match l
    case StorePhoto(_, _) =>
    case StoreThumb(_, _) =>
    case Insert(_, _) =>
    case Crash(_) =>
  }

  lemma {:induction false} AdmissionsFollowTheClock(s: State, ls: seq<Label>, h: nat, from: int)
    requires Valid(s, ls) && s.now >= from && LetInSince(s.handlers, h, from)
    ensures LetInSince(After(s, ls).handlers, h, from) && s.events <= After(s, ls).events
    decreases |ls|
  {
    if ls != [] {
      var l := ls[0];
      if l.Arrive? || l.Guard? || l.Look? || l.Resolve? {
        EarlyStepsLetInLater(s, l, h, from);
      } else if l.StorePhoto? || l.StoreThumb? || l.Insert? || l.Crash? {
        LateStepsLetNobodyIn(s, l, h, from);
      } else {
        OthersMoveNoHandler(s, l);
      }
      EventsOnlyGrow(s, l);
      AdmissionsFollowTheClock(Apply(s, l), ls[1..], h, from);
    }
  }

  /** Whoever is not let in by an event's end never is: no success, and no row. */
  lemma LateUploadsAreRefused(s: State, ls: seq<Label>, h: nat)
    requires Inv(s) && Valid(s, ls) && (h in s.handlers ==> s.handlers[h].admitted.None?)
    requires
      var t := After(s, ls);
      && h in t.handlers && t.handlers[h].event < |s.events|
      && s.events[t.handlers[h].event].endsAt <= s.now
    ensures
      var t := After(s, ls);
      && t.handlers[h].admitted.None?
      && (t.handlers[h].pc.Replied? ==> !Succeeded(t.handlers[h].pc.reply))
      && (forall p | p in t.rows :: t.rows[p].writer != h)
  {
    AdmissionsFollowTheClock(s, ls, h, s.now);
    InvAfter(s, ls);
    NotLetInStoresNothing(After(s, ls), h, s.now);
  }

  lemma NotLetInStoresNothing(t: State, h: nat, from: int)
    requires Inv(t) && h in t.handlers && LetInSince(t.handlers, h, from)
    requires t.handlers[h].event < |t.events| && t.events[t.handlers[h].event].endsAt <= from
    ensures t.handlers[h].admitted.None?
    ensures t.handlers[h].pc.Replied? ==> !Succeeded(t.handlers[h].pc.reply)
    ensures forall p | p in t.rows :: t.rows[p].writer != h
  {
    assert t.handlers[h].admitted.Some? ==> Admitted(t.handlers[h], t.now, t.events);
    assert HandlerOk(h, t.handlers[h], t.now, t.events, t.rows, t.objects, t.owner, t.orphans);
    forall p | p in t.rows ensures t.rows[p].writer != h {
      assert RowBacked(p, t.rows[p], t.handlers, t.objects, t.owner);
    }
  }

  // ---------- The album freezes ----------

  /** The handlers that may still add a row to event `e`. */
  ghost predicate CanStillAdd(handler: Handler, e: nat) {
    handler.event == e && (handler.pc.Looking? || Holding(handler.pc))
  }

  ghost function InFlight(handlers: Handlers, e: nat): set<nat> {
    set h | h in handlers && CanStillAdd(handlers[h], e)
  }

  function Album(rows: Rows, e: nat): set<PhotoId> {
    set id | id in rows && rows[id].event == e
  }

  ghost function Writers(s: State, ids: set<PhotoId>): set<nat> {
    set id | id in ids && id in s.rows :: s.rows[id].writer
  }

  lemma InFlightShrinks(handlers: Handlers, h: nat, next: Handler, e: nat)
    requires CanStillAdd(next, e) ==> h in handlers && CanStillAdd(handlers[h], e)
    ensures InFlight(handlers[h := next], e) <= InFlight(handlers, e)
  {
  }

  /** Nobody is let into an event that is over. */
  lemma NobodyEnters(s: State, l: Label, e: nat)
    requires Enabled(s, l) && (l.Arrive? || l.Guard? || l.Look?) && e < |s.events| && s.events[e].endsAt <= s.now
    ensures InFlight(Apply(s, l).handlers, e) <= InFlight(s.handlers, e)
  {
    InFlightShrinks(s.handlers, l.h, Apply(s, l).handlers[l.h], e);
  }

  lemma PutsRestartNobody(s: State, l: Label, e: nat)
    requires Enabled(s, l) && (l.StorePhoto? || l.StoreThumb?)
    ensures InFlight(Apply(s, l).handlers, e) <= InFlight(s.handlers, e)
  {
    InFlightShrinks(s.handlers, l.h, Apply(s, l).handlers[l.h], e);
  }

  lemma InsertRestartsNobody(s: State, h: nat, fault: Fault, e: nat)
    requires AtInsert(s, h)
    ensures InFlight(Inserted(s, h, fault).handlers, e) <= InFlight(s.handlers, e)
  {
    InFlightShrinks(s.handlers, h, Inserted(s, h, fault).handlers[h], e);
  }

  lemma NobodyRestarts(s: State, l: Label, e: nat)
    requires Enabled(s, l) && (l.StorePhoto? || l.StoreThumb? || l.Insert? || l.Resolve? || l.Crash?)
    ensures InFlight(Apply(s, l).handlers, e) <= InFlight(s.handlers, e)
  {
    match l
    case Insert(h, fault) => InsertRestartsNobody(s, h, fault, e);
    case Resolve(h, ok) => InFlightShrinks(s.handlers, h, Resolved(s, h, ok).handlers[h], e);
    case Crash(h) => InFlightShrinks(s.handlers, h, Crashing(s, h).handlers[h], e);
    case _ => PutsRestartNobody(s, l, e);
  }

  lemma NobodyJoins(s: State, l: Label, e: nat)
    requires Enabled(s, l) && e < |s.events| && s.events[e].endsAt <= s.now
    ensures InFlight(Apply(s, l).handlers, e) <= InFlight(s.handlers, e)
  {
    if l.Arrive? || l.Guard? || l.Look? {
      NobodyEnters(s, l, e);
    } else if l.Tick? || l.Create? || l.Open? || l.Unlock? || l.Emit? {
      OthersMoveNoHandler(s, l);
    } else {
      NobodyRestarts(s, l, e);
    }
  }

  lemma HandlersKeepTheWorld(s: State, l: Label)
    requires Enabled(s, l) && !l.Tick? && !l.Create?
    ensures Apply(s, l).now == s.now && Apply(s, l).events == s.events
  {
    match l
    case Arrive(_, _, _) =>
    case Guard(_) =>
    case Look(_, _, _) =>
    case StorePhoto(_, _) =>
    case StoreThumb(_, _) =>
    case Insert(_, _) =>
    case Resolve(_, _) =>
    case Crash(_) =>
    case _ =>
  }

  lemma EventsOnlyGrow(s: State, l: Label)
    requires Enabled(s, l)
    ensures s.now <= Apply(s, l).now && s.events <= Apply(s, l).events
  {
    if !l.Tick? && !l.Create? {
      HandlersKeepTheWorld(s, l);
    }
  }

  lemma InsertedByOneInFlight(s: State, h: nat, fault: Fault, e: nat, id: PhotoId)
    requires AtInsert(s, h)
    requires id in Inserted(s, h, fault).rows && id !in s.rows && Inserted(s, h, fault).rows[id].event == e
    ensures Inserted(s, h, fault).rows[id].writer in InFlight(s.handlers, e)
  {
  }

  lemma NewRowsAreInserted(s: State, l: Label, e: nat, id: PhotoId)
    requires Enabled(s, l)
    requires id in Apply(s, l).rows && id !in s.rows && Apply(s, l).rows[id].event == e
    ensures Apply(s, l).rows[id].writer in InFlight(s.handlers, e)
  {
    if l.Insert? {
      InsertedByOneInFlight(s, l.h, l.fault, e, id);
    } else if l.StorePhoto? || l.StoreThumb? {
      PutsAddNoRow(s, l);
    } else {
      OthersAddNothing(s, l);
    }
  }

  lemma PutsAddNoRow(s: State, l: Label)
    requires Enabled(s, l) && (l.StorePhoto? || l.StoreThumb?)
    ensures Apply(s, l).rows == s.rows
  {
  }

  lemma OverStep(s: State, l: Label, e: nat)
    requires Enabled(s, l) && e < |s.events| && s.events[e].endsAt <= s.now
    ensures
      var t := Apply(s, l);
      && e < |t.events| && t.events[e] == s.events[e] && t.events[e].endsAt <= t.now
      && InFlight(t.handlers, e) <= InFlight(s.handlers, e)
      && (forall id | id in t.rows && id !in s.rows && t.rows[id].event == e ::
            t.rows[id].writer in InFlight(s.handlers, e))
  {
    var t := Apply(s, l);
    NobodyJoins(s, l, e);
    EventsOnlyGrow(s, l);
    forall id | id in t.rows && id !in s.rows && t.rows[id].event == e
      ensures t.rows[id].writer in InFlight(s.handlers, e)
    {
      NewRowsAreInserted(s, l, e, id);
    }
  }

  /** Once an event is over, only handlers admitted before and still at work can add to its album. */
  lemma {:induction false} LateRowsComeFromHandlersInFlight(s: State, ls: seq<Label>, e: nat)
    requires Inv(s) && Valid(s, ls) && e < |s.events| && s.events[e].endsAt <= s.now
    ensures Extends(s.rows, After(s, ls).rows)
    ensures forall id | id in After(s, ls).rows && id !in s.rows && After(s, ls).rows[id].event == e ::
              After(s, ls).rows[id].writer in InFlight(s.handlers, e)
    ensures InFlight(After(s, ls).handlers, e) <= InFlight(s.handlers, e)
    decreases |ls|
  {
    if ls != [] {
      var m := Apply(s, ls[0]);
      OverStep(s, ls[0], e);
      InvStep(s, ls[0]);
      StepOnlyAdds(s, ls[0]);
      LateRowsComeFromHandlersInFlight(m, ls[1..], e);
    }
  }

  lemma {:induction false} WritersAreAsMany(s: State, ids: set<PhotoId>)
    requires RowsBacked(s.rows, s.handlers, s.objects, s.owner) && Owned(s.owner, s.handlers, s.events)
    requires forall id | id in ids :: id in s.rows
    ensures |Writers(s, ids)| == |ids|
    decreases |ids|
  {
    if id :| id in ids {
      var rest := ids - {id};
      WritersAreAsMany(s, rest);
      assert RowBacked(id, s.rows[id], s.handlers, s.objects, s.owner);
      forall p | p in rest ensures s.rows[p].writer != s.rows[id].writer {
        assert RowBacked(p, s.rows[p], s.handlers, s.objects, s.owner);
      }
      assert Writers(s, ids) == Writers(s, rest) + {s.rows[id].writer};
    }
  }

  lemma SubsetSize<T>(a: set<T>, b: set<T>)
    requires a <= b
    ensures |a| <= |b|
  {
    assert b == a + (b - a);
  }

  lemma SplitSize<T>(part: set<T>, whole: set<T>)
    requires part <= whole
    ensures |whole| == |part| + |whole - part|
  {
    assert whole == part + (whole - part);
  }

  lemma AlbumGrows(rows: Rows, more: Rows, e: nat)
    requires Extends(rows, more)
    ensures Album(rows, e) <= Album(more, e)
  {
    forall id | id in Album(rows, e) ensures id in Album(more, e) {
      assert id in more;
    }
  }

  lemma AlbumBound(rows: Rows, t: State, e: nat, writers: set<nat>)
    requires RowsBacked(t.rows, t.handlers, t.objects, t.owner) && Owned(t.owner, t.handlers, t.events)
    requires Extends(rows, t.rows)
    requires forall id | id in t.rows && id !in rows && t.rows[id].event == e :: t.rows[id].writer in writers
    ensures Album(rows, e) <= Album(t.rows, e)
    ensures |Album(t.rows, e)| <= |Album(rows, e)| + |writers|
    ensures writers == {} ==> Album(t.rows, e) == Album(rows, e)
  {
    AlbumGrows(rows, t.rows, e);
    SplitSize(Album(rows, e), Album(t.rows, e));
    var late := Album(t.rows, e) - Album(rows, e);
    assert forall id | id in late :: id in t.rows && id !in rows && t.rows[id].event == e;
    WritersAreAsMany(t, late);
    SubsetSize(Writers(t, late), writers);
  }

  /** The album grows after the end by at most the number of handlers then in flight, and not at all without any. */
  lemma AlbumFreezes(s: State, ls: seq<Label>, e: nat)
    requires Inv(s) && Valid(s, ls) && e < |s.events| && s.events[e].endsAt <= s.now
    ensures Album(s.rows, e) <= Album(After(s, ls).rows, e)
    ensures |Album(After(s, ls).rows, e)| <= |Album(s.rows, e)| + |InFlight(s.handlers, e)|
    ensures InFlight(s.handlers, e) == {} ==> Album(After(s, ls).rows, e) == Album(s.rows, e)
  {
    LateRowsComeFromHandlersInFlight(s, ls, e);
    InvAfter(s, ls);
    AlbumBound(s.rows, After(s, ls), e, InFlight(s.handlers, e));
  }

  // ---------- Runs of one upload ----------

  ghost predicate Running(s: State) {
    s.events != [] && s.now < s.events[|s.events| - 1].endsAt
  }

  /** Whatever request arrives during the run is this one. */
  ghost predicate Brings(ls: seq<Label>, req: Request) {
    forall i | 0 <= i < |ls| && ls[i].Arrive? :: ls[i].req == req
  }

  /** The guard lets a well-formed request into a running event. */
  lemma UploadIsAdmitted(s: State, h: nat, req: Request) returns (ls: seq<Label>, t: State)
    requires Running(s) && h !in s.handlers && req.form.WellFormed?
    ensures Valid(s, ls) && t == After(s, ls) && Brings(ls, req)
    ensures t == s.(handlers := s.handlers[h := Handler(req, |s.events| - 1, Some(s.now), Looking)])
  {
    RunSnoc(s, [], Arrive(h, req, true));
    t := Apply(s, Arrive(h, req, true));
    RunSnoc(s, [] + [Arrive(h, req, true)], Guard(h));
    t := Apply(t, Guard(h));
    ls := [] + [Arrive(h, req, true)] + [Guard(h)];
    assert t.handlers == s.handlers[h := Handler(req, |s.events| - 1, Some(s.now), Looking)];
  }

  /** A retry of a stored capture is answered 200 with the stored photo's id, and changes no row and no object. */
  lemma RetryIsADuplicate(s: State, h: nat, req: Request, id: PhotoId, unused: PhotoId)
    returns (ls: seq<Label>, t: State)
    requires Reachable(s) && Running(s) && h !in s.handlers && req.form.WellFormed?
    requires IsRowOf(s.rows, |s.events| - 1, req.clientId, id)
    requires unused !in s.owner && unused !in s.named
    ensures Valid(s, ls) && t == After(s, ls) && Brings(ls, req)
    ensures h in t.handlers && t.handlers[h].req == req && t.handlers[h].pc == Replied(Duplicate(id))
    ensures t.rows == s.rows && t.objects == s.objects && t.owner == s.owner && t.events == s.events
  {
    ls, t := UploadIsAdmitted(s, h, req);
    RowsAreUnique(s);
    FoundIsTheOne(s.rows, |s.events| - 1, req.clientId, id);
    RunSnoc(s, ls, Look(h, true, unused));
    ls, t := ls + [Look(h, true, unused)], Apply(t, Look(h, true, unused));
  }

  lemma FoundIsTheOne(rows: Rows, event: nat, clientId: string, id: PhotoId)
    requires Unique(rows) && IsRowOf(rows, event, clientId, id)
    ensures Stored(rows, event, clientId) && Find(rows, event, clientId) == id
  {
  }

  /** Both objects are written, and the handler is about to insert. */
  lemma ObjectsAreStored(s: State, h: nat) returns (ls: seq<Label>, t: State)
    requires h in s.handlers && s.handlers[h].pc.StoringPhoto?
    ensures Valid(s, ls) && t == After(s, ls) && Brings(ls, s.handlers[h].req)
    ensures t == s.(handlers := s.handlers[h := s.handlers[h].(pc := Inserting(s.handlers[h].pc.id))],
                    objects := t.objects)
  {
    RunSnoc(s, [], StorePhoto(h, Fine));
    t := Apply(s, StorePhoto(h, Fine));
    RunSnoc(s, [] + [StorePhoto(h, Fine)], StoreThumb(h, Fine));
    t := Apply(t, StoreThumb(h, Fine));
    ls := [] + [StorePhoto(h, Fine)] + [StoreThumb(h, Fine)];
  }

  /** From the lookup to the row. */
  lemma LookedUpIsStored(s: State, h: nat, id: PhotoId) returns (ls: seq<Label>, t: State)
    requires h in s.handlers && s.handlers[h].pc.Looking? && s.handlers[h].req.thumb.Some?
    requires !Stored(s.rows, s.handlers[h].event, s.handlers[h].req.clientId)
    requires id !in s.owner && id !in s.named
    ensures Valid(s, ls) && t == After(s, ls) && Brings(ls, s.handlers[h].req)
    ensures t.handlers == s.handlers[h := s.handlers[h].(pc := Replied(Created(id)))]
    ensures t.rows == s.rows[id := RowFor(s.handlers[h], h, id)] && t.owner == s.owner[id := h]
    ensures t.events == s.events && t.now == s.now && t.named == s.named
  {
    RunSnoc(s, [], Look(h, true, id));
    var m := Apply(s, Look(h, true, id));
    var ms, u := ObjectsAreStored(m, h);
    RunAppend(s, [] + [Look(h, true, id)], ms);
    ls := [] + [Look(h, true, id)] + ms;
    RunSnoc(s, ls, Insert(h, Fine));
    ls, t := ls + [Insert(h, Fine)], Apply(u, Insert(h, Fine));
  }

  /** A capture that its event does not have yet is stored by an upload that nothing disturbs. */
  lemma UploadIsStored(s: State, h: nat, req: Request, id: PhotoId) returns (ls: seq<Label>, t: State)
    requires Running(s) && h !in s.handlers && req.form.WellFormed? && req.thumb.Some?
    requires !Stored(s.rows, |s.events| - 1, req.clientId)
    requires id !in s.owner && id !in s.named
    ensures Valid(s, ls) && t == After(s, ls) && Brings(ls, req)
    ensures h in t.handlers && t.handlers[h].req == req && t.handlers[h].pc == Replied(Created(id))
    ensures t.events == s.events && t.now == s.now && t.named == s.named
    ensures t.owner == s.owner[id := h] && t.handlers.Keys == s.handlers.Keys + {h}
    ensures id in t.rows && t.rows == s.rows[id := t.rows[id]]
    ensures t.rows[id].event == |s.events| - 1 && t.rows[id].clientId == req.clientId
  {
    var ks, m := UploadIsAdmitted(s, h, req);
    var ms, u := LookedUpIsStored(m, h, id);
    RunAppend(s, ks, ms);
    ls, t := ks + ms, u;
  }

  lemma RowsAreUnique(s: State)
    requires Reachable(s)
    ensures Unique(s.rows)
  {
    ReachableInv(s);
  }

  /** Two retries raced past the lookup: the one that inserts second is answered 200 with the winner's id. */
  lemma RaceLoserIsADuplicate(s: State, h: nat, winner: PhotoId) returns (ls: seq<Label>, t: State)
    requires Reachable(s) && h in s.handlers && s.handlers[h].pc.Inserting?
    requires IsRowOf(s.rows, s.handlers[h].event, s.handlers[h].req.clientId, winner)
    ensures Valid(s, ls) && t == After(s, ls)
    ensures h in t.handlers && t.handlers[h].pc == Replied(Duplicate(winner))
    ensures t.rows == s.rows && t.objects == s.objects && s.handlers[h].pc.id in t.orphans
  {
    RowsAreUnique(s);
    FoundIsTheOne(s.rows, s.handlers[h].event, s.handlers[h].req.clientId, winner);
    RunSnoc(s, [], Insert(h, Fine));
    t := Apply(s, Insert(h, Fine));
    RunSnoc(s, [] + [Insert(h, Fine)], Resolve(h, true));
    ls, t := [] + [Insert(h, Fine)] + [Resolve(h, true)], Apply(t, Resolve(h, true));
  }

  lemma RowsAreOfKnownEvents(s: State)
    requires Reachable(s)
    ensures forall id | id in s.rows :: id in s.owner && s.rows[id].event < |s.events|
  {
    ReachableInv(s);
    forall id | id in s.rows ensures id in s.owner && s.rows[id].event < |s.events| {
      assert RowBacked(id, s.rows[id], s.handlers, s.objects, s.owner);
    }
  }

  lemma NewEventIsEmpty(s: State, endsAt: int, clientId: string)
    requires Reachable(s) && Enabled(s, Create(s.now, endsAt)) && !Running(s) && s.now < endsAt
    ensures
      var m := Apply(s, Create(s.now, endsAt));
      && m == s.(events := m.events) && Running(m) && |m.events| == |s.events| + 1
      && !Stored(m.rows, |m.events| - 1, clientId)
  {
    RowsAreOfKnownEvents(s);
  }

  /**
   * Uniqueness is per event only: whenever a capture is stored, its event is over and a new
   * one is started, a retry of that capture is stored a second time.
   */
  lemma NewEventStoresTwice(s: State, h: nat, req: Request, first: PhotoId, second: PhotoId, endsAt: int)
    returns (ls: seq<Label>, t: State)
    requires Reachable(s) && s.events != [] && !Running(s) && s.now < endsAt
    requires h !in s.handlers && req.form.WellFormed? && req.thumb.Some?
    requires first in s.rows && s.rows[first].clientId == req.clientId
    requires second !in s.owner && second !in s.named
    ensures Valid(s, ls) && t == After(s, ls)
    ensures first in t.rows && second in t.rows && first != second
    ensures t.rows[first].clientId == t.rows[second].clientId && t.rows[first].event != t.rows[second].event
  {
    var create := Create(s.now, endsAt);
    RunSnoc(s, [], create);
    NewEventIsEmpty(s, endsAt, req.clientId);
    RowsAreOfKnownEvents(s);
    var ms, u := UploadIsStored(Apply(s, create), h, req, second);
    RunAppend(s, [] + [create], ms);
    ls, t := [] + [create] + ms, u;
  }

  /**
   * After the end every upload is refused, also the retry of a capture that is stored: the
   * 423 that makes the phone report a lost photo does not mean that the photo is lost.
   */
  lemma LateRetryIsRefused(s: State, h: nat, req: Request) returns (ls: seq<Label>, t: State)
    requires s.events != [] && !Running(s) && h !in s.handlers
    ensures Valid(s, ls) && t == After(s, ls) && Brings(ls, req)
    ensures t == s.(handlers := s.handlers[h := Handler(req, |s.events| - 1, None, Replied(Locked))])
  {
    RunSnoc(s, [], Arrive(h, req, true));
    t := Apply(s, Arrive(h, req, true));
    RunSnoc(s, [] + [Arrive(h, req, true)], Guard(h));
    t := Apply(t, Guard(h));
    ls := [] + [Arrive(h, req, true)] + [Guard(h)];
  }
}
