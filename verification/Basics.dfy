/** A value that may be absent: JavaScript's `null` fields and Go's `ErrNoRows`. */
module Options {
  datatype Option<+T> = None | Some(value: T)
}

/** How a call to another system can go: well, failing without effect, or failing after its effect. */
module Faults {
  datatype Fault = Fine | Clean | Dirty
}

/** What a photo is made of. */
module Octets {
  type Bytes = seq<bv8>
}

/** Values that are not in use yet. */
module Fresh {
  lemma {:induction false} Larger(used: set<nat>) returns (n: nat)
    ensures forall m | m in used :: m < n
    decreases |used|
  {
    n := 0;
    if m :| m in used {
      var k := Larger(used - {m});
      n := if m < k then k else m + 1;
      forall other | other in used ensures other < n {
        assert other == m || other in used - {m};
      }
    }
  }

  lemma {:induction false} Longer(used: set<string>) returns (text: string)
    ensures forall other | other in used :: |other| < |text|
    decreases |used|
  {
    text := "a";
    if other :| other in used {
      var rest := Longer(used - {other});
      text := rest + other + "a";
      forall t | t in used ensures |t| < |text| {
        assert t == other || t in used - {other};
      }
    }
  }
}

/** Sorting by an arbitrary comparison, as `Array.prototype.sort` and `ORDER BY` do it. */
module Sorting {
  ghost predicate TotalPreorder<T(!new)>(leq: (T, T) -> bool) {
    && (forall x, y :: leq(x, y) || leq(y, x))
    && (forall x, y, z :: leq(x, y) && leq(y, z) ==> leq(x, z))
  }

  ghost predicate SortedBy<T>(leq: (T, T) -> bool, xs: seq<T>) {
    forall i, j | 0 <= i < j < |xs| :: leq(xs[i], xs[j])
  }

  function Insert<T>(leq: (T, T) -> bool, x: T, xs: seq<T>): (r: seq<T>)
    ensures |r| == |xs| + 1
    ensures multiset(r) == multiset(xs) + multiset{x}
  {
    if xs == [] then [x]
    else if leq(x, xs[0]) then [x] + xs
    else
      assert xs == [xs[0]] + xs[1..];
      [xs[0]] + Insert(leq, x, xs[1..])
  }

  function SortBy<T>(leq: (T, T) -> bool, xs: seq<T>): (r: seq<T>)
    ensures |r| == |xs|
    ensures multiset(r) == multiset(xs)
  {
    if xs == [] then []
    else
      assert xs == [xs[0]] + xs[1..];
      Insert(leq, xs[0], SortBy(leq, xs[1..]))
  }

  lemma SameElements<T>(xs: seq<T>, ys: seq<T>)
    requires multiset(xs) == multiset(ys)
    ensures forall x :: x in xs <==> x in ys
  {
    forall x ensures x in xs <==> x in ys {
      assert x in xs <==> x in multiset(xs);
      assert x in ys <==> x in multiset(ys);
    }
  }

  lemma {:induction false} InsertSorts<T(!new)>(leq: (T, T) -> bool, x: T, xs: seq<T>)
    requires TotalPreorder(leq) && SortedBy(leq, xs)
    ensures SortedBy(leq, Insert(leq, x, xs))
  {
    if xs != [] && !leq(x, xs[0]) {
      var tail := Insert(leq, x, xs[1..]);
      InsertSorts(leq, x, xs[1..]);
      assert multiset(tail) == multiset([x] + xs[1..]);
      SameElements(tail, [x] + xs[1..]);
      forall y | y in tail ensures leq(xs[0], y) {
        assert y == x || y in xs[1..];
      }
    }
  }

  /** `SortBy` returns a sorted rearrangement of its argument. */
  lemma {:induction false} SortBySorts<T(!new)>(leq: (T, T) -> bool, xs: seq<T>)
    requires TotalPreorder(leq)
    ensures SortedBy(leq, SortBy(leq, xs))
  {
    if xs != [] {
      SortBySorts(leq, xs[1..]);
      InsertSorts(leq, xs[0], SortBy(leq, xs[1..]));
    }
  }
}

/** Text compared character by character. */
module Text {
  /** Lexicographic order by code unit; the empty text comes first. */
  predicate TextLeq(a: string, b: string) {
    a == [] || (b != [] && (a[0] < b[0] || (a[0] == b[0] && TextLeq(a[1..], b[1..]))))
  }

  lemma {:induction false} TextLeqTotal(a: string, b: string)
    ensures TextLeq(a, b) || TextLeq(b, a)
  {
    if a != [] && b != [] && a[0] == b[0] {
      TextLeqTotal(a[1..], b[1..]);
    }
  }

  lemma {:induction false} TextLeqTransitive(a: string, b: string, c: string)
    requires TextLeq(a, b) && TextLeq(b, c)
    ensures TextLeq(a, c)
  {
    if a != [] && a[0] == b[0] && b[0] == c[0] {
      TextLeqTransitive(a[1..], b[1..], c[1..]);
    }
  }

  lemma {:induction false} TextLeqAntisymmetric(a: string, b: string)
    requires TextLeq(a, b) && TextLeq(b, a)
    ensures a == b
  {
    if a != [] {
      TextLeqAntisymmetric(a[1..], b[1..]);
      assert a == [a[0]] + a[1..] && b == [b[0]] + b[1..];
    }
  }

  /** A common prefix does not change the order. */
  lemma {:induction false} TextLeqPrefix(p: string, a: string, b: string)
    ensures TextLeq(p + a, p + b) <==> TextLeq(a, b)
  {
    if p == [] {
      assert p + a == a && p + b == b;
    } else {
      assert (p + a)[1..] == p[1..] + a && (p + b)[1..] == p[1..] + b;
      TextLeqPrefix(p[1..], a, b);
    }
  }

  /** Texts of equal length order by their first difference. */
  lemma {:induction false} TextLeqHead(a: string, b: string, x: string, y: string)
    requires |a| == |b| && a != b
    ensures TextLeq(a + x, b + y) <==> TextLeq(a, b)
  {
    assert (a + x)[1..] == a[1..] + x && (b + y)[1..] == b[1..] + y;
    assert a == [a[0]] + a[1..] && b == [b[0]] + b[1..];
    if a[0] == b[0] {
      TextLeqHead(a[1..], b[1..], x, y);
    }
  }

  // ---------- localeCompare ----------

  /** In the root collation "-" sorts before "+", where code units have it the other way round. */
  function CollationKey(c: char): char {
    if c == '-' then '+' else if c == '+' then '-' else c
  }

  function Collated(s: string): (r: string)
    ensures |r| == |s| && forall i | 0 <= i < |s| :: r[i] == CollationKey(s[i])
  {
    seq(|s|, i requires 0 <= i < |s| => CollationKey(s[i]))
  }

  /** `a.localeCompare(b) <= 0`, for texts of digits, signs and fixed separators. */
  predicate LocaleLeq(a: string, b: string) {
    TextLeq(Collated(a), Collated(b))
  }

  lemma CollatedConcat(a: string, b: string)
    ensures Collated(a + b) == Collated(a) + Collated(b)
  {
  }
}

/** ORDER BY taken_at ASC, id ASC. */
module AlbumOrdering {
  import opened Text

  predicate NoLater(x: int, a: string, y: int, b: string) {
    x < y || (x == y && TextLeq(a, b))
  }

  lemma NoLaterIsTotal()
    ensures forall x, a, y, b :: NoLater(x, a, y, b) || NoLater(y, b, x, a)
    ensures forall x, a, y, b, z, c :: NoLater(x, a, y, b) && NoLater(y, b, z, c) ==> NoLater(x, a, z, c)
  {
    forall x, a, y, b ensures NoLater(x, a, y, b) || NoLater(y, b, x, a) {
      TextLeqTotal(a, b);
    }
    forall x, a, y, b, z, c | NoLater(x, a, y, b) && NoLater(y, b, z, c) ensures NoLater(x, a, z, c) {
      if x == y && y == z { TextLeqTransitive(a, b, c); }
    }
  }
}
