/** Object storage: the key layout (backend/internal/storage/storage.go) and the in-memory store (fake.go). */
module ObjectStore {
  import opened Octets
  import opened Options
  import opened Sorting
  import opened Text

  datatype Object = Object(body: Bytes, contentType: string)

  type Objects = map<string, Object>

  function PhotoKey(id: string): string { "photos/" + id + ".jpg" }

  function ThumbKey(id: string): string { "thumbs/" + id + ".jpg" }

  lemma BetweenIsInjective(p: string, a: string, b: string, q: string)
    requires p + a + q == p + b + q
    ensures a == b
  {
    assert |a| == |b|;
    assert (p + a + q)[|p|..|p| + |a|] == a && (p + b + q)[|p|..|p| + |b|] == b;
  }

  /** Each key names one photo and one kind of object. */
  lemma KeysAreApart()
    ensures forall p: string, q: string :: PhotoKey(p) == PhotoKey(q) ==> p == q
    ensures forall p: string, q: string :: ThumbKey(p) == ThumbKey(q) ==> p == q
    ensures forall p: string, q: string :: PhotoKey(p) != ThumbKey(q)
  {
    forall p: string, q: string | PhotoKey(p) == PhotoKey(q) ensures p == q {
      BetweenIsInjective("photos/", p, q, ".jpg");
    }
    forall p: string, q: string | ThumbKey(p) == ThumbKey(q) ensures p == q {
      BetweenIsInjective("thumbs/", p, q, ".jpg");
    }
    forall p: string, q: string ensures PhotoKey(p) != ThumbKey(q) {
      assert PhotoKey(p)[0] == 'p' && ThumbKey(q)[0] == 't';
    }
  }

  datatype Download = Download(body: Bytes, contentType: string, contentLength: nat)

  class Fake {
    var objects: Objects
    var putFails: bool
    var openFails: bool

    constructor ()
      ensures objects == map[] && !putFails && !openFails
    {
      objects, putFails, openFails := map[], false, false;
    }

    method Put(key: string, body: Bytes, contentType: string) returns (ok: bool)
      modifies this`objects
      ensures ok == !putFails
      ensures objects == if ok then old(objects)[key := Object(body, contentType)] else old(objects)
    {
      if putFails {
        return false;
      }
      objects := objects[key := Object(body, contentType)];
      return true;
    }

    method Open(key: string) returns (download: Option<Download>)
      ensures download.Some? <==> !openFails && key in objects
      ensures download.Some? ==>
        && download.value.body == objects[key].body && download.value.contentType == objects[key].contentType
        && download.value.contentLength == |objects[key].body|
    {
      if openFails || key !in objects {
        return None;
      }
      var stored := objects[key];
      return Some(Download(stored.body, stored.contentType, |stored.body|));
    }

    /** Every stored key once, in order. */
    method Keys() returns (keys: seq<string>)
      ensures SortedBy(TextLeq, keys)
      ensures multiset(keys) == multiset(objects.Keys)
    {
      keys := [];
      var left := objects.Keys;
      while left != {}
        invariant left <= objects.Keys
        invariant multiset(keys) + multiset(left) == multiset(objects.Keys)
        decreases left
      {
        var key :| key in left;
        assert multiset(left) == multiset(left - {key}) + multiset{key};
        keys := keys + [key];
        left := left - {key};
      }
      TextLeqIsTotalPreorder();
      SortBySorts(TextLeq, keys);
      keys := SortBy(TextLeq, keys);
    }
  }

  lemma TextLeqIsTotalPreorder()
    ensures TotalPreorder(TextLeq)
  {
    forall x: string, y: string ensures TextLeq(x, y) || TextLeq(y, x) {
      TextLeqTotal(x, y);
    }
    forall x: string, y: string, z: string | TextLeq(x, y) && TextLeq(y, z) ensures TextLeq(x, z) {
      TextLeqTransitive(x, y, z);
    }
  }
}
