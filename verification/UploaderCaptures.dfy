/** What the user took is what is stored and sent, over every run. */
module UploaderCaptures {
  import opened Octets
  import opened PhotoQueue
  import opened Uploader
  import opened UploaderHistory
  import opened UploaderInvariants
  import opened UploaderTheorems

  lemma WritesKeepCaptures(s: State, l: Label)
    requires Enabled(s, l) && (l.Removed? || l.PutDone? || l.RemovedUnseen? || l.PutUnseen?)
    ensures Apply(s, l).captured == s.captured
  {
    if l.Removed? || l.RemovedUnseen? {
      RemovalKeepsRecord(s, l.run);
    } else {
      PutKeepsRecord(s, l.run);
    }
  }

  lemma DrainKeepsCaptures(s: State, l: Label)
    requires Enabled(s, l) && ByDrain(l)
    ensures Apply(s, l).captured == s.captured
  {
    match l
    case DueRead(r, snapshot) => NextItemFrame(BeginPass(s, s.runs[r].at, snapshot), r, snapshot);
    case Settle(_, _) =>
    case Recounted(_) => EndOfDrainKeepsRecord(s, l);
    case Scheduled(_, _) => EndOfDrainKeepsRecord(s, l);
    case _ => WritesKeepCaptures(s, l);
  }

  /** Only a capture is recorded, and only its own. */
  lemma CapturesStep(s: State, l: Label)
    requires Enabled(s, l)
    ensures !l.Capture? ==> Apply(s, l).captured == s.captured
    ensures l.Capture? ==> Apply(s, l).captured == s.captured[l.clientId := Apply(s, l).captured[l.clientId]]
  {
    if ByDrain(l) {
      DrainKeepsCaptures(s, l);
    } else if !l.Capture? && !l.Written? {
      OthersKeepRecord(s, l);
    }
  }

  lemma {:induction false} CapturesStay(s: State, ls: seq<Label>, c: ClientId)
    requires Valid(s, ls) && c in s.captured
    ensures c in After(s, ls).captured && After(s, ls).captured[c] == s.captured[c]
    decreases |ls|
  {
    if ls != [] {
      CapturesStep(s, ls[0]);
      CapturesStay(Apply(s, ls[0]), ls[1..], c);
    }
  }

  lemma {:induction false} CaptureIsRecorded(s: State, ls: seq<Label>, c: ClientId, bytes: Bytes, blobType: string,
                                             takenAt: string)
    requires Valid(s, ls) && Capture(c, bytes, blobType, takenAt) in ls
    ensures
      var captured := After(s, ls).captured;
      c in captured && IsCapture(captured[c], c, bytes, blobType, takenAt) && Untried(captured[c])
    decreases |ls|
  {
    var m := Apply(s, ls[0]);
    if ls[0] == Capture(c, bytes, blobType, takenAt) {
      CapturesStay(m, ls[1..], c);
    } else {
      CaptureIsRecorded(m, ls[1..], c, bytes, blobType, takenAt);
    }
  }

  /** Nothing is recorded but what some `enqueue` call brought. */
  lemma {:induction false} RecordedWasCaptured(s: State, ls: seq<Label>, c: ClientId)
    returns (bytes: Bytes, blobType: string, takenAt: string)
    requires Valid(s, ls) && c !in s.captured && c in After(s, ls).captured
    ensures Capture(c, bytes, blobType, takenAt) in ls
    decreases |ls|
  {
    var m := Apply(s, ls[0]);
    CapturesStep(s, ls[0]);
    if c in m.captured {
      bytes, blobType, takenAt := ls[0].bytes, ls[0].blobType, ls[0].takenAt;
    } else {
      bytes, blobType, takenAt := RecordedWasCaptured(m, ls[1..], c);
    }
  }

  /**
   * A capture keeps the bytes, the type and the time it was taken with: in the queue, however
   * often it has been tried and written back, and in every upload of it. It is stored untried.
   */
  lemma CapturesAreKeptAsTaken(now: nat, ls: seq<Label>, t: State, c: ClientId, bytes: Bytes, blobType: string,
                               takenAt: string)
    requires Reached(now, ls, t) && Capture(c, bytes, blobType, takenAt) in ls
    ensures c in t.captured && IsCapture(t.captured[c], c, bytes, blobType, takenAt) && Untried(t.captured[c])
    ensures c in t.store ==> IsCapture(t.store[c], c, bytes, blobType, takenAt)
    ensures forall j | 0 <= j < |t.log| && t.log[j].item.clientId == c ::
              IsCapture(t.log[j].item, c, bytes, blobType, takenAt)
  {
    CaptureIsRecorded(Init(now), ls, c, bytes, blobType, takenAt);
    ReachedInv(now, ls, t);
    assert Keyed(t.store, t.captured);
  }

  /** Every stored item and every upload is of something that was captured. */
  lemma OnlyCapturesAreSent(now: nat, ls: seq<Label>, t: State, c: ClientId)
    returns (bytes: Bytes, blobType: string, takenAt: string)
    requires Reached(now, ls, t)
    requires c in t.store || exists j :: 0 <= j < |t.log| && t.log[j].item.clientId == c
    ensures Capture(c, bytes, blobType, takenAt) in ls
  {
    ReachedInv(now, ls, t);
    assert Keyed(t.store, t.captured);
    bytes, blobType, takenAt := RecordedWasCaptured(Init(now), ls, c);
  }

  /** The durable write stores the capture as it was taken, never tried and due at once. */
  lemma WrittenCaptureIsDue(now: nat, ls: seq<Label>, t: State, c: ClientId, bytes: Bytes, blobType: string,
                            takenAt: string)
    requires Reached(now, ls, t) && Capture(c, bytes, blobType, takenAt) in ls && CanWrite(t, c)
    ensures
      var stored := CaptureStored(t, c).store;
      && stored.Keys == t.store.Keys + {c} && (forall d | d in t.store :: stored[d] == t.store[d])
      && IsCapture(stored[c], c, bytes, blobType, takenAt)
      && stored[c].attempts == 0 && !stored[c].failed && stored[c].nextAttemptAt <= t.now
  {
    CapturesAreKeptAsTaken(now, ls, t, c, bytes, blobType, takenAt);
    ReachedInv(now, ls, t);
    assert Conserved(t.written, t.store, t.acked, t.dropped);
    assert Enqueuing(t.enqueues, t.captured, t.written);
  }
}
