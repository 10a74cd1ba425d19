/** What the server answers, and when: each reply has its cause, and the event's end decides what opens and closes. */
module PhotoServerReplies {
  import opened Faults
  import opened Options
  import opened PhotoServer
  import opened PhotoServerTheorems

  // ---------- Each reply has its cause ----------

  /** The checks behind the guard, in their order: user, size, form, lookup, thumbnail, store, insert. */
  predicate ReplyCause(req: Request, letIn: bool, reply: Reply) {
    match reply
    case Created(_) => letIn && req.form.WellFormed? && req.thumb.Some?
    case Duplicate(_) => letIn && req.form.WellFormed?
    case Locked => !letIn
    case NoEvent => !letIn
    case Unauthorized => letIn && req.form.Anonymous?
    case TooLarge => letIn && req.form.TooLong?
    case BadRequest => letIn && (req.form.Malformed? || (req.form.WellFormed? && req.thumb.None?))
    case BadGateway => letIn && req.form.WellFormed? && req.thumb.Some?
    case ServerError => !letIn || req.form.WellFormed?
  }

  predicate Caused(handler: Handler) {
    var letIn := handler.admitted.Some?;
    match handler.pc
    case Guarding => !letIn
    case Looking => letIn && handler.req.form.WellFormed?
    case StoringPhoto(_) => letIn && handler.req.form.WellFormed? && handler.req.thumb.Some?
    case StoringThumb(_) => letIn && handler.req.form.WellFormed? && handler.req.thumb.Some?
    case Inserting(_) => letIn && handler.req.form.WellFormed? && handler.req.thumb.Some?
    case Resolving(_) => letIn && handler.req.form.WellFormed?
    case Replied(reply) => ReplyCause(handler.req, letIn, reply)
    case Crashed => true
  }

  ghost predicate AllCaused(handlers: Handlers) {
    forall h | h in handlers :: Caused(handlers[h])
  }

  /** Where the next statement can take the handler. */
  predicate Follows(handler: Handler, next: Pc) {
    match handler.pc
    case Looking =>
      || next == Replied(ServerError) || (next.Replied? && next.reply.Duplicate?)
      || (next == Replied(BadRequest) && handler.req.thumb.None?) || (next.StoringPhoto? && handler.req.thumb.Some?)
    case StoringPhoto(_) => next == Replied(BadGateway) || next.StoringThumb?
    case StoringThumb(_) => next == Replied(BadGateway) || next.Inserting?
    case Inserting(_) =>
      next == Replied(ServerError) || (next.Replied? && next.reply.Created?) || next.Resolving?
    case Resolving(_) => next == Replied(ServerError) || (next.Replied? && next.reply.Duplicate?)
    case _ => false
  }

  /** The handler is at its next statement, or has crashed. */
  predicate Advances(handler: Handler, after: Handler) {
    after == handler.(pc := after.pc) && (Follows(handler, after.pc) || after.pc.Crashed?)
  }

  lemma AdvanceCaused(handler: Handler, after: Handler)
    requires Caused(handler) && Advances(handler, after)
    ensures Caused(after)
  {
  }

  lemma LookAdvances(s: State, h: nat, ok: bool, id: PhotoId)
    requires AtLook(s, h)
    ensures h in LookedUp(s, h, ok, id).handlers && Advances(s.handlers[h], LookedUp(s, h, ok, id).handlers[h])
  {
  }

  lemma InsertAdvances(s: State, h: nat, fault: Fault)
    requires AtInsert(s, h)
    ensures h in Inserted(s, h, fault).handlers && Advances(s.handlers[h], Inserted(s, h, fault).handlers[h])
  {
  }

  lemma CrashAdvances(s: State, h: nat)
    requires Unfinished(s, h)
    ensures h in Crashing(s, h).handlers && Advances(s.handlers[h], Crashing(s, h).handlers[h])
  {
  }

  lemma LateAdvances(s: State, l: Label)
    requires Enabled(s, l) && (l.StorePhoto? || l.StoreThumb? || l.Resolve?)
    ensures l.h in Apply(s, l).handlers && Advances(s.handlers[l.h], Apply(s, l).handlers[l.h])
  {
    match l
    case StorePhoto(_, _) =>
    case StoreThumb(_, _) =>
    case Resolve(_, _) =>
  }

  lemma StepAdvances(s: State, l: Label)
    requires Enabled(s, l) && ByHandler(l) && !l.Arrive? && !l.Guard?
    ensures l.h in s.handlers && l.h in Apply(s, l).handlers
    ensures Advances(s.handlers[l.h], Apply(s, l).handlers[l.h])
  {
    match l
    case Look(h, ok, id) => LookAdvances(s, h, ok, id);
    case Insert(h, fault) => InsertAdvances(s, h, fault);
    case Crash(h) => CrashAdvances(s, h);
    case _ => LateAdvances(s, l);
  }

  lemma GuardIs(s: State, h: nat)
    requires AtGuard(s, h)
    ensures
      var t := Guarded(s, h);
      && h in t.handlers
      && t.handlers[h] ==
         if s.events[s.handlers[h].event].endsAt <= s.now then s.handlers[h].(pc := Replied(Locked))
         else s.handlers[h].(admitted := Some(s.now), pc := AfterGuard(s.handlers[h].req.form))
  {
  }

  lemma GuardCaused(s: State, h: nat)
    requires AtGuard(s, h) && Caused(s.handlers[h])
    ensures h in Guarded(s, h).handlers && Caused(Guarded(s, h).handlers[h])
  {
    GuardIs(s, h);
    assert Caused(s.handlers[h].(pc := Replied(Locked)));
  }

  lemma CausedStep(s: State, l: Label)
    requires Enabled(s, l) && AllCaused(s.handlers)
    ensures AllCaused(Apply(s, l).handlers)
  {
    if ByHandler(l) {
      HandlerMovesAlone(s, l);
      if l.Guard? {
        GuardCaused(s, l.h);
      } else if !l.Arrive? {
        StepAdvances(s, l);
        AdvanceCaused(s.handlers[l.h], Apply(s, l).handlers[l.h]);
      }
    } else {
      OthersMoveNoHandler(s, l);
    }
  }

  lemma {:induction false} CausedAfter(s: State, ls: seq<Label>)
    requires Valid(s, ls) && AllCaused(s.handlers)
    ensures AllCaused(After(s, ls).handlers)
    decreases |ls|
  {
    if ls != [] {
      CausedStep(s, ls[0]);
      CausedAfter(Apply(s, ls[0]), ls[1..]);
    }
  }

  /**
   * Over every run a reply says what was wrong with its request: 401 and 413 exactly for a request
   * that was let in without a user or over the limit, 400 only for a form or an image that does
   * not parse, 502 and every success only for a request with nothing wrong, 404 and 423 only for
   * one that was not let in.
   */
  lemma RepliesHaveTheirCause(now: int, ls: seq<Label>, t: State, h: nat)
    requires Reached(now, ls, t) && h in t.handlers && t.handlers[h].pc.Replied?
    ensures
      var req, reply, letIn := t.handlers[h].req, t.handlers[h].pc.reply, t.handlers[h].admitted.Some?;
      && (reply.Unauthorized? <==> letIn && req.form.Anonymous?)
      && (reply.TooLarge? <==> letIn && req.form.TooLong?)
      && (letIn && req.form.Malformed? ==> reply.BadRequest?)
      && (reply.BadRequest? ==> letIn && (req.form.Malformed? || (req.form.WellFormed? && req.thumb.None?)))
      && (Succeeded(reply) || reply.BadGateway? ==> letIn && req.form.WellFormed?)
      && (reply.Created? || reply.BadGateway? ==> req.thumb.Some?)
      && (reply.Locked? || reply.NoEvent? ==> !letIn)
      && (reply.ServerError? ==> !letIn || req.form.WellFormed?)
  {
    CausedAfter(Init(now), ls);
  }

  // ---------- The end of the event decides ----------

  /** The guard lets a request in if and only if its event has not ended: at exactly the end it is over. */
  lemma GuardDecidesExactly(s: State, h: nat)
    requires AtGuard(s, h) && s.handlers[h].admitted.None?
    ensures
      var endsAt, after := s.events[s.handlers[h].event].endsAt, Guarded(s, h).handlers[h];
      && (after.admitted == if s.now < endsAt then Some(s.now) else None)
      && (after.pc == Replied(Locked) <==> endsAt <= s.now)
      && (after.pc.Looking? <==> s.now < endsAt && s.handlers[h].req.form.WellFormed?)
  {
  }

  ghost predicate NotBy(ls: seq<Label>, h: nat) {
    forall i | 0 <= i < |ls| && ByHandler(ls[i]) :: ls[i].h != h
  }

  lemma {:induction false} IdleHandlerStays(s: State, ls: seq<Label>, h: nat)
    requires Valid(s, ls) && NotBy(ls, h) && h in s.handlers
    ensures h in After(s, ls).handlers && After(s, ls).handlers[h] == s.handlers[h]
    ensures s.events <= After(s, ls).events
    decreases |ls|
  {
    if ls != [] {
      OthersStay(s, ls[0], h);
      EventsOnlyGrow(s, ls[0]);
      IdleHandlerStays(Apply(s, ls[0]), ls[1..], h);
    }
  }

  /**
   * An upload that found the current event is let in, whatever else runs before its guard reads
   * the clock, if and only if the clock then shows a time before that event's end.
   */
  lemma UploadIsLetInExactly(s: State, h: nat, req: Request, ls: seq<Label>)
    requires h !in s.handlers && s.events != [] && Enabled(s, Arrive(h, req, true))
    requires Valid(Arriving(s, h, req, true), ls) && NotBy(ls, h)
    ensures
      var t, endsAt := After(Arriving(s, h, req, true), ls), s.events[|s.events| - 1].endsAt;
      && Enabled(t, Guard(h))
      && (Apply(t, Guard(h)).handlers[h].admitted.Some? <==> t.now < endsAt)
      && (Apply(t, Guard(h)).handlers[h].pc.Looking? <==> t.now < endsAt && req.form.WellFormed?)
      && (Apply(t, Guard(h)).handlers[h].pc == Replied(Locked) <==> endsAt <= t.now)
  {
    var m := Arriving(s, h, req, true);
    IdleHandlerStays(m, ls, h);
    GuardDecidesExactly(After(m, ls), h);
  }

  lemma HandlersKeepReaders(s: State, l: Label)
    requires Enabled(s, l) && ByHandler(l)
    ensures Apply(s, l).readers == s.readers
  {
    match l
    case Arrive(_, _, _) =>
    case Guard(_) =>
    case Look(_, _, _) =>
    case StorePhoto(_, _) =>
    case StoreThumb(_, _) =>
    case Insert(_, _) =>
    case Resolve(_, _) =>
    case Crash(_) =>
  }

  lemma ReaderStays(s: State, l: Label, k: nat)
    requires Enabled(s, l) && k in s.readers && l != Unlock(k)
    ensures k in Apply(s, l).readers && Apply(s, l).readers[k] == s.readers[k]
  {
    if ByHandler(l) {
      HandlersKeepReaders(s, l);
    }
  }

  lemma {:induction false} ReaderWaits(s: State, ls: seq<Label>, k: nat)
    requires Valid(s, ls) && Unlock(k) !in ls && k in s.readers
    ensures k in After(s, ls).readers && After(s, ls).readers[k] == s.readers[k]
    ensures s.events <= After(s, ls).events
    decreases |ls|
  {
    if ls != [] {
      ReaderStays(s, ls[0], k);
      EventsOnlyGrow(s, ls[0]);
      ReaderWaits(Apply(s, ls[0]), ls[1..], k);
    }
  }

  /**
   * An album request opens, whatever else runs before its guard reads the clock, if and only if
   * the event that was current when it came has ended by then.
   */
  lemma AlbumOpensExactly(s: State, k: nat, want: Want, ls: seq<Label>)
    requires Enabled(s, Open(k, want)) && Valid(Opening(s, k, want), ls) && Unlock(k) !in ls
    ensures
      var t := After(Opening(s, k, want), ls);
      Enabled(t, Unlock(k)) <==> s.events[|s.events| - 1].endsAt <= t.now
  {
    ReaderWaits(Opening(s, k, want), ls, k);
  }
}
