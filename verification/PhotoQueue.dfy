/**
 * The durable capture queue (frontend/app/lib/photoQueue.ts): one IndexedDB object
 * store keyed by client id. The store is a map; the class below is the module's API.
 */
module PhotoQueue {
  import opened Octets
  import opened Sorting
  import opened Text

  type ClientId = string

  datatype Item = Item(clientId: ClientId, bytes: Bytes, contentType: string, takenAt: string,
                       attempts: nat, nextAttemptAt: int, failed: bool, lastError: string)

  type Store = map<ClientId, Item>

  /** What `enqueue` stores for a new capture. */
  function FreshItem(clientId: ClientId, bytes: Bytes, blobType: string, takenAt: string): Item {
    Item(clientId, bytes, if blobType == "" then "image/jpeg" else blobType, takenAt, 0, 0, false, "")
  }

  /** The item holds this capture, whatever became of its attempts. */
  predicate IsCapture(item: Item, clientId: ClientId, bytes: Bytes, blobType: string, takenAt: string) {
    && item.clientId == clientId && item.bytes == bytes && item.takenAt == takenAt
    && item.contentType == if blobType == "" then "image/jpeg" else blobType
  }

  /** Never tried: due at once. */
  predicate Untried(item: Item) {
    item.attempts == 0 && item.nextAttemptAt == 0 && !item.failed && item.lastError == ""
  }

  predicate IsDue(item: Item, now: int) {
    !item.failed && item.nextAttemptAt <= now
  }

  predicate TakenBefore(a: Item, b: Item) {
    LocaleLeq(a.takenAt, b.takenAt)
  }

  /** `items` lists every stored item once, in some order, as `getAll` does. */
  ghost predicate Enumerates(items: seq<Item>, store: Store) {
    && (forall c | c in store :: store[c] in items)
    && (forall i | 0 <= i < |items| :: items[i].clientId in store && store[items[i].clientId] == items[i])
    && (forall i, j | 0 <= i < j < |items| :: items[i].clientId != items[j].clientId)
  }

  /** Exactly the due items of the store, once each, oldest capture first. */
  ghost predicate IsDueSnapshot(store: Store, now: int, snapshot: seq<Item>) {
    && (forall c | c in store && IsDue(store[c], now) :: store[c] in snapshot)
    && (forall i | 0 <= i < |snapshot| ::
          snapshot[i].clientId in store && store[snapshot[i].clientId] == snapshot[i] && IsDue(snapshot[i], now))
    && (forall i, j | 0 <= i < j < |snapshot| :: snapshot[i].clientId != snapshot[j].clientId)
    && SortedBy(TakenBefore, snapshot)
  }

  function PendingCount(store: Store): nat {
    |set c | c in store && !store[c].failed|
  }

  function FailedCount(store: Store): nat {
    |set c | c in store && store[c].failed|
  }

  function FilterDue(items: seq<Item>, now: int): seq<Item> {
    if items == [] then []
    else (if IsDue(items[0], now) then [items[0]] else []) + FilterDue(items[1..], now)
  }

  /** The body of `due` once the items are read: filter, then sort by capture time. */
  function Due(items: seq<Item>, now: int): seq<Item> {
    SortBy(TakenBefore, FilterDue(items, now))
  }

  lemma TakenBeforeIsTotalPreorder()
    ensures TotalPreorder(TakenBefore)
  {
    forall x: Item, y: Item ensures TakenBefore(x, y) || TakenBefore(y, x) {
      TextLeqTotal(Collated(x.takenAt), Collated(y.takenAt));
    }
    forall x: Item, y: Item, z: Item | TakenBefore(x, y) && TakenBefore(y, z) ensures TakenBefore(x, z) {
      TextLeqTransitive(Collated(x.takenAt), Collated(y.takenAt), Collated(z.takenAt));
    }
  }

  lemma {:induction false} FilterDueElements(items: seq<Item>, now: int)
    ensures forall x :: x in FilterDue(items, now) <==> x in items && IsDue(x, now)
  {
    if items != [] {
      FilterDueElements(items[1..], now);
      assert items == [items[0]] + items[1..];
    }
  }

  ghost predicate DistinctIds(items: seq<Item>) {
    forall i, j | 0 <= i < j < |items| :: items[i].clientId != items[j].clientId
  }

  lemma {:induction false} FilterDueDistinct(items: seq<Item>, now: int)
    requires DistinctIds(items)
    ensures DistinctIds(FilterDue(items, now))
  {
    if items != [] {
      FilterDueDistinct(items[1..], now);
      FilterDueElements(items[1..], now);
      var rest := FilterDue(items[1..], now);
      forall j | 0 <= j < |rest| ensures rest[j].clientId != items[0].clientId {
        assert rest[j] in rest;
        var k :| 0 <= k < |items[1..]| && items[1..][k] == rest[j];
        assert items[k + 1] == rest[j];
      }
    }
  }

  /** Distinctness of ids only depends on which items there are and how often. */
  lemma PermutationKeepsDistinctIds(xs: seq<Item>, ys: seq<Item>)
    requires multiset(xs) == multiset(ys) && DistinctIds(xs)
    ensures DistinctIds(ys)
  {
    SameElements(xs, ys);
    forall i, j | 0 <= i < j < |ys| ensures ys[i].clientId != ys[j].clientId {
      if ys[i].clientId == ys[j].clientId {
        assert ys[i] in ys && ys[j] in ys;
        var a :| 0 <= a < |xs| && xs[a] == ys[i];
        var b :| 0 <= b < |xs| && xs[b] == ys[j];
        assert a == b;
        MultisetTwice(ys, i, j);
        MultisetOnce(xs, a);
        assert false;
      }
    }
  }

  lemma MultisetTwice(ys: seq<Item>, i: nat, j: nat)
    requires i < j < |ys| && ys[i] == ys[j]
    ensures multiset(ys)[ys[i]] >= 2
  {
    assert ys == ys[..j] + ([ys[j]] + ys[j + 1..]);
    assert ys[i] == ys[..j][i];
    assert ys[i] in multiset(ys[..j]);
    assert multiset(ys) == multiset(ys[..j]) + (multiset{ys[j]} + multiset(ys[j + 1..]));
  }

  lemma MultisetOnce(xs: seq<Item>, a: nat)
    requires a < |xs| && DistinctIds(xs)
    ensures multiset(xs)[xs[a]] == 1
  {
    assert xs == xs[..a] + ([xs[a]] + xs[a + 1..]);
    assert multiset(xs) == multiset(xs[..a]) + (multiset{xs[a]} + multiset(xs[a + 1..]));
    assert xs[a] !in xs[..a] && xs[a] !in xs[a + 1..];
  }

  /** `due` returns the store's due items, each once, sorted, whatever order `getAll` used. */
  lemma DueIsSnapshot(items: seq<Item>, store: Store, now: int)
    requires Enumerates(items, store)
    ensures IsDueSnapshot(store, now, Due(items, now))
    ensures forall c | c in store ::
              store[c] in Due(items, now) <==> !store[c].failed && store[c].nextAttemptAt <= now
  {
    var kept := FilterDue(items, now);
    var due := Due(items, now);
    FilterDueElements(items, now);
    FilterDueDistinct(items, now);
    PermutationKeepsDistinctIds(kept, due);
    SameElements(kept, due);
    TakenBeforeIsTotalPreorder();
    SortBySorts(TakenBefore, kept);
    forall i | 0 <= i < |due|
      ensures due[i].clientId in store && store[due[i].clientId] == due[i] && IsDue(due[i], now)
    {
      assert due[i] in due;
      assert due[i] in items;
    }
  }

  /** `items.filter(...).length` for items that did, or did not, fail for good. */
  function CountWhere(items: seq<Item>, failed: bool): nat {
    if items == [] then 0
    else CountWhere(items[..|items| - 1], failed) + (if items[|items| - 1].failed == failed then 1 else 0)
  }

  ghost function IdsWhere(items: seq<Item>, failed: bool): set<ClientId> {
    set i | 0 <= i < |items| && items[i].failed == failed :: items[i].clientId
  }

  lemma IdsOfLonger(front: seq<Item>, last: Item, failed: bool)
    requires DistinctIds(front + [last])
    ensures
      var ids := IdsWhere(front, failed);
      && last.clientId !in ids
      && IdsWhere(front + [last], failed) == if last.failed == failed then ids + {last.clientId} else ids
  {
    var items := front + [last];
    forall i | 0 <= i < |front| ensures front[i].clientId != last.clientId {
      assert items[i] == front[i] && items[|front|] == last;
    }
    forall id ensures id in IdsWhere(items, failed) <==>
        id in IdsWhere(front, failed) || (last.failed == failed && id == last.clientId)
    {
      if i :| 0 <= i < |front| && front[i].failed == failed && front[i].clientId == id {
        assert items[i] == front[i];
      } else if last.failed == failed && id == last.clientId {
        assert items[|front|] == last;
      }
    }
  }

  lemma {:induction false} CountWhereIsCardinality(items: seq<Item>, failed: bool)
    requires DistinctIds(items)
    ensures CountWhere(items, failed) == |IdsWhere(items, failed)|
  {
    if items != [] {
      var front, last := items[..|items| - 1], items[|items| - 1];
      assert items == front + [last];
      CountWhereIsCardinality(front, failed);
      IdsOfLonger(front, last, failed);
    }
  }

  lemma CountMatchesStore(items: seq<Item>, store: Store)
    requires Enumerates(items, store) && forall c | c in store :: store[c].clientId == c
    ensures CountWhere(items, false) == PendingCount(store)
    ensures CountWhere(items, true) == FailedCount(store)
  {
    CountWhereIsCardinality(items, false);
    CountWhereIsCardinality(items, true);
    assert IdsWhere(items, false) == set c | c in store && !store[c].failed;
    assert IdsWhere(items, true) == set c | c in store && store[c].failed;
  }

  /** The module's functions over the object store. */
  class Queue {
    var store: Store

    constructor ()
      ensures store == map[]
    {
      store := map[];
    }

    method Enqueue(clientId: ClientId, bytes: Bytes, blobType: string, takenAt: string) returns (pending: Item)
      modifies this
      ensures IsCapture(pending, clientId, bytes, blobType, takenAt) && Untried(pending)
      ensures store == old(store)[clientId := pending]
    {
      pending := FreshItem(clientId, bytes, blobType, takenAt);
      Put(pending);
    }

    method Put(item: Item)
      modifies this
      ensures store == old(store)[item.clientId := item]
    {
      store := store[item.clientId := item];
    }

    method Remove(clientId: ClientId)
      modifies this
      ensures store == old(store) - {clientId}
    {
      store := store - {clientId};
    }

    method Clear()
      modifies this
      ensures store == map[]
    {
      store := map[];
    }

    method All() returns (items: seq<Item>)
      requires forall c | c in store :: store[c].clientId == c
      ensures Enumerates(items, store)
    {
      items := [];
      var left := store.Keys;
      while left != {}
        invariant left <= store.Keys
        invariant forall c | c in store && c !in left :: store[c] in items
        invariant forall i | 0 <= i < |items| ::
            items[i].clientId in store.Keys - left && store[items[i].clientId] == items[i]
        invariant forall i, j | 0 <= i < j < |items| :: items[i].clientId != items[j].clientId
        decreases left
      {
        var c :| c in left;
        items := items + [store[c]];
        left := left - {c};
      }
    }

    /** The due snapshot `runDrain` walks. */
    method DueItems(now: int) returns (due: seq<Item>)
      requires forall c | c in store :: store[c].clientId == c
      ensures IsDueSnapshot(store, now, due)
      ensures forall c | c in store :: store[c] in due <==> !store[c].failed && store[c].nextAttemptAt <= now
    {
      var items := All();
      DueIsSnapshot(items, store, now);
      due := Due(items, now);
    }

    method Counts() returns (pending: nat, failed: nat)
      requires forall c | c in store :: store[c].clientId == c
      ensures pending == PendingCount(store) && failed == FailedCount(store)
    {
      var items := All();
      CountMatchesStore(items, store);
      pending, failed := CountWhere(items, false), CountWhere(items, true);
    }
  }
}
