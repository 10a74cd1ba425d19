/**
 * Downloading the album (backend/internal/photos/download_all.go, album.go): the order of the
 * rows, the entry names, and what of the archive is written when something fails on the way.
 */
module Download {
  import opened AlbumOrdering
  import opened Octets
  import opened Options
  import opened Sorting
  import opened Text
  import opened Decimal
  import opened Rfc3339

  /** A `photos` row: `takenAt` in microseconds, and the UTC fields of that moment. */
  datatype Photo = Photo(id: string, eventId: string, storageKey: string, takenAt: int, utc: Stamp)

  // ---------- Album order ----------

  /** The album's order: a photo's moment and id. */
  predicate AlbumLeq(a: Photo, b: Photo) {
    NoLater(a.takenAt, a.id, b.takenAt, b.id)
  }

  function OfEvent(table: seq<Photo>, eventId: string): seq<Photo> {
    if table == [] then []
    else (if table[0].eventId == eventId then [table[0]] else []) + OfEvent(table[1..], eventId)
  }

  /** ListPhotosByEvent. */
  function ListPhotos(table: seq<Photo>, eventId: string): seq<Photo> {
    SortBy(AlbumLeq, OfEvent(table, eventId))
  }

  lemma AlbumLeqIsTotalPreorder()
    ensures TotalPreorder(AlbumLeq)
  {
    NoLaterIsTotal();
  }

  lemma {:induction false} OfEventKeepsRows(table: seq<Photo>, eventId: string, r: Photo)
    ensures multiset(OfEvent(table, eventId))[r] == if r.eventId == eventId then multiset(table)[r] else 0
  {
    if table != [] {
      assert table == [table[0]] + table[1..];
      OfEventKeepsRows(table[1..], eventId, r);
    }
  }

  /** Ordered by capture time, earliest first, and photos of one moment by their id. */
  ghost predicate InAlbumOrder(rows: seq<Photo>) {
    forall i, j | 0 <= i < j < |rows| ::
      rows[i].takenAt < rows[j].takenAt || (rows[i].takenAt == rows[j].takenAt && TextLeq(rows[i].id, rows[j].id))
  }

  /** The list holds each row of the event as often as the table does, no other row, in album order. */
  lemma ListIsTheAlbum(table: seq<Photo>, eventId: string)
    ensures InAlbumOrder(ListPhotos(table, eventId))
    ensures forall r: Photo ::
              multiset(ListPhotos(table, eventId))[r] == if r.eventId == eventId then multiset(table)[r] else 0
  {
    AlbumLeqIsTotalPreorder();
    SortBySorts(AlbumLeq, OfEvent(table, eventId));
    forall r: Photo
      ensures multiset(ListPhotos(table, eventId))[r] == if r.eventId == eventId then multiset(table)[r] else 0
    {
      OfEventKeepsRows(table, eventId, r);
    }
  }

  // ---------- Entry names ----------

  /** Go's four-digit year: padded, and with its sign in front when negative. */
  function YearDigits(year: int): string {
    if year < 0 then "-" + Pad(-year, 4) else Pad(year, 4)
  }

  function DateDigits(t: Stamp): string {
    YearDigits(t.year) + Pad(t.month, 2) + Pad(t.day, 2)
  }

  function ClockDigits(t: Stamp): string {
    Pad(t.hour, 2) + Pad(t.minute, 2) + Pad(t.second, 2)
  }

  /** `downloadFilename` without its extension. */
  function Stem(t: Stamp): string {
    "italy-" + DateDigits(t) + "-" + ClockDigits(t)
  }

  function DownloadFilename(t: Stamp): string {
    Stem(t) + ".jpg"
  }

  /** `strings.LastIndex` for one character. */
  function LastIndex(s: string, c: char): (i: int)
    ensures -1 <= i < |s|
    ensures i >= 0 ==> s[i] == c
    ensures forall k | i < k < |s| :: s[k] != c
  {
    if s == [] then -1 else if s[|s| - 1] == c then |s| - 1 else LastIndex(s[..|s| - 1], c)
  }

  /** The name `uniqueName` gives the `count`-th photo called `name`. */
  function Numbered(name: string, count: nat): string {
    if count == 1 then name
    else
      var dot := LastIndex(name, '.');
      var base, ext := if dot == -1 then name else name[..dot], if dot == -1 then "" else name[dot..];
      base + "-" + Print(count) + ext
  }

  function Occurrences(names: seq<string>, name: string): nat {
    if names == [] then 0
    else Occurrences(names[..|names| - 1], name) + (if names[|names| - 1] == name then 1 else 0)
  }

  /** The name of the i-th entry: numbered by how often its file name has come up so far. */
  function EntryName(names: seq<string>, i: nat): string
    requires i < |names|
  {
    Numbered(names[i], Occurrences(names[..i + 1], names[i]))
  }

  predicate Without(s: string, c: char) { c !in s }

  lemma NowhereIn(s: string, c: char)
    requires Without(s, c)
    ensures forall k | 0 <= k < |s| :: s[k] != c
  {
  }

  lemma LastPart(x: string, y: string, x': string, y': string, c: char)
    requires Without(y, c) && Without(y', c)
    requires x + [c] + y == x' + [c] + y'
    ensures x == x' && y == y'
  {
    NowhereIn(y, c);
    NowhereIn(y', c);
    var s := x + [c] + y;
    assert s[|x|] == c && s[|x'|] == c;
    assert forall k | |x| < k < |s| :: s[k] == y[k - |x| - 1];
    assert forall k | |x'| < k < |s| :: s[k] == y'[k - |x'| - 1];
    assert |x| == |x'|;
    assert s[..|x|] == x && s[..|x'|] == x';
    assert s[|x| + 1..] == y && s[|x'| + 1..] == y';
  }

  lemma DigitsHaveNoPunctuation(s: string)
    requires AllDigits(s)
    ensures Without(s, '-') && Without(s, '.')
  {
  }

  lemma {:induction false} LastIndexBehind(s: string, ext: string)
    requires Without(s, '.') && Without(ext, '.')
    ensures LastIndex(s + "." + ext, '.') == |s|
  {
    NowhereIn(ext, '.');
    var t := s + "." + ext;
    assert t[|s|] == '.';
    assert forall k | |s| < k < |t| :: t[k] == ext[k - |s| - 1];
  }

  /** The pieces of a file name: digits, but for a sign that can only be the first character of the date. */
  lemma StemParts(t: Stamp)
    ensures Without(ClockDigits(t), '-') && Without(Stem(t), '.')
    ensures DateDigits(t) != [] && Without(DateDigits(t)[1..], '-')
  {
    assert Without(ClockDigits(t), '-') && Without(ClockDigits(t), '.') by {
      DigitsHaveNoPunctuation(ClockDigits(t));
    }
    var y := Pad(if t.year < 0 then -t.year else t.year, 4);
    assert y != [];
    var digits := y + Pad(t.month, 2) + Pad(t.day, 2);
    DigitsHaveNoPunctuation(digits);
    if t.year < 0 {
      assert DateDigits(t) == ['-'] + digits;
    } else {
      assert DateDigits(t) == digits;
    }
  }

  lemma NumberedStem(t: Stamp, count: nat)
    ensures Numbered(DownloadFilename(t), count) ==
            (if count == 1 then Stem(t) else Stem(t) + "-" + Print(count)) + ".jpg"
  {
    StemParts(t);
    assert DownloadFilename(t) == Stem(t) + "." + "jpg";
    LastIndexBehind(Stem(t), "jpg");
    assert DownloadFilename(t)[..|Stem(t)|] == Stem(t) && DownloadFilename(t)[|Stem(t)|..] == ".jpg";
  }

  lemma DashBehindTheDate(date: string, other: string, clock: string)
    requires other != [] && Without(date[if date == [] then 0 else 1..], '-')
    ensures date != other + "-" + clock
  {
    if date != [] {
      NowhereIn(date[1..], '-');
      assert forall k | 1 <= k < |date| :: date[k] == date[1..][k - 1];
      var long := other + "-" + clock;
      assert long[|other|] == '-';
    }
  }

  lemma SamePrefix(p: string, x: string, y: string)
    requires p + x == p + y
    ensures x == y
  {
    assert x == (p + x)[|p|..] && y == (p + y)[|p|..];
  }

  lemma StemIs(t: Stamp)
    ensures Stem(t) == ("italy-" + DateDigits(t)) + ['-'] + ClockDigits(t)
    ensures Stem(t) == "italy-" + (DateDigits(t) + "-" + ClockDigits(t))
  {
    Regroup("italy-", DateDigits(t), ClockDigits(t));
  }

  lemma Regroup(p: string, x: string, y: string)
    ensures p + x + "-" + y == (p + x) + ['-'] + y == p + (x + "-" + y)
  {
  }

  /** A bare stem is no numbered one: behind the date there is one dash, not two. */
  lemma BareIsNotNumbered(a: Stamp, b: Stamp, n: nat)
    ensures Stem(a) != Stem(b) + "-" + Print(n)
  {
    if Stem(a) == Stem(b) + "-" + Print(n) {
      StemParts(a);
      StemParts(b);
      StemIs(a);
      StemIs(b);
      DigitsHaveNoPunctuation(Print(n));
      LastPart("italy-" + DateDigits(a), ClockDigits(a), Stem(b), Print(n), '-');
      SamePrefix("italy-", DateDigits(a), DateDigits(b) + "-" + ClockDigits(b));
      DashBehindTheDate(DateDigits(a), DateDigits(b), ClockDigits(b));
      assert false;
    }
  }

  /** The file name and the number can be read off an entry name. */
  lemma NumberingIsInjective(a: Stamp, m: nat, b: Stamp, n: nat)
    requires Numbered(DownloadFilename(a), m) == Numbered(DownloadFilename(b), n)
    ensures DownloadFilename(a) == DownloadFilename(b) && m == n
  {
    NumberedStem(a, m);
    NumberedStem(b, n);
    var x := if m == 1 then Stem(a) else Stem(a) + "-" + Print(m);
    var y := if n == 1 then Stem(b) else Stem(b) + "-" + Print(n);
    assert x == (x + ".jpg")[..|x + ".jpg"| - 4] && y == (y + ".jpg")[..|y + ".jpg"| - 4];
    if m == 1 && n != 1 {
      BareIsNotNumbered(a, b, n);
    } else if m != 1 && n == 1 {
      BareIsNotNumbered(b, a, m);
    } else if m != 1 {
      DigitsHaveNoPunctuation(Print(m));
      DigitsHaveNoPunctuation(Print(n));
      LastPart(Stem(a), Print(m), Stem(b), Print(n), '-');
      PrintIsInjective(m, n);
    }
  }

  function FileNames(rows: seq<Photo>): (names: seq<string>)
    ensures |names| == |rows| && forall i | 0 <= i < |rows| :: names[i] == DownloadFilename(rows[i].utc)
  {
    seq(|rows|, i requires 0 <= i < |rows| => DownloadFilename(rows[i].utc))
  }

  lemma {:induction false} OccurrencesGrow(names: seq<string>, i: nat, j: nat, name: string)
    requires i <= j <= |names|
    ensures Occurrences(names[..i], name) <= Occurrences(names[..j], name)
  {
    if i < j {
      OccurrencesGrow(names, i, j - 1, name);
      assert names[..j][..j - 1] == names[..j - 1];
    }
  }

  /** The entry names of a whole download. */
  function Titles(rows: seq<Photo>): (titles: seq<string>)
    ensures |titles| == |rows| && forall i | 0 <= i < |rows| :: titles[i] == EntryName(FileNames(rows), i)
  {
    seq(|rows|, i requires 0 <= i < |rows| => EntryName(FileNames(rows), i))
  }

  lemma LaterCountsAreLarger(names: seq<string>, i: nat, j: nat)
    requires i < j < |names| && names[i] == names[j]
    ensures Occurrences(names[..i + 1], names[i]) < Occurrences(names[..j + 1], names[j])
  {
    OccurrencesGrow(names, i + 1, j, names[j]);
    assert names[..j + 1][..j] == names[..j];
  }

  /** The last dot splits a name from its extension, the last dash a base from its number. */
  lemma NumberedParts(name: string, count: nat) returns (base: string, tail: string)
    requires count != 1
    ensures name == base + tail && Numbered(name, count) == (base + ['-'] + Print(count)) + tail
    ensures tail == [] ==> Without(name, '.')
    ensures tail != [] ==> tail[0] == '.' && Without(tail[1..], '.')
  {
    var dot := LastIndex(name, '.');
    base, tail := if dot == -1 then name else name[..dot], if dot == -1 then "" else name[dot..];
    assert Numbered(name, count) == base + "-" + Print(count) + tail;
    if dot != -1 {
      assert forall k | 0 <= k < |tail[1..]| :: tail[1..][k] == name[dot + 1 + k];
    }
  }

  lemma DottedApart(x: string, tail: string, y: string)
    requires tail != [] && tail[0] == '.' && Without(y, '.')
    ensures x + tail != y
  {
    assert (x + tail)[|x|] == '.';
  }

  lemma DottedAlike(x: string, tail: string, x': string, tail': string)
    requires tail != [] && tail[0] == '.' && Without(tail[1..], '.')
    requires tail' != [] && tail'[0] == '.' && Without(tail'[1..], '.')
    requires x + tail == x' + tail'
    ensures x == x' && tail == tail'
  {
    assert tail == ['.'] + tail[1..] && tail' == ['.'] + tail'[1..];
    assert x + ['.'] + tail[1..] == x + tail && x' + ['.'] + tail'[1..] == x' + tail';
    LastPart(x, tail[1..], x', tail'[1..], '.');
  }

  lemma NoDotAdded(base: string, count: nat)
    requires Without(base, '.')
    ensures Without(base + ['-'] + Print(count), '.')
  {
    DigitsHaveNoPunctuation(Print(count));
  }

  /** Of any two names at all, numbered from 2 on: the name and the number can be read off. */
  lemma NumbersCanBeReadOff(a: string, m: nat, b: string, n: nat)
    requires m >= 2 && n >= 2 && Numbered(a, m) == Numbered(b, n)
    ensures a == b && m == n
  {
    var x, tail := NumberedParts(a, m);
    var y, tail' := NumberedParts(b, n);
    var front, front' := x + ['-'] + Print(m), y + ['-'] + Print(n);
    if tail == [] {
      NoDotAdded(x, m);
      if tail' != [] { DottedApart(front', tail', front + tail); }
    } else if tail' == [] {
      NoDotAdded(y, n);
      DottedApart(front, tail, front' + tail');
    } else {
      DottedAlike(front, tail, front', tail');
    }
    assert front == front' && tail == tail' by {
      assert tail == [] ==> front + tail == front;
      assert tail' == [] ==> front' + tail' == front';
    }
    DigitsHaveNoPunctuation(Print(m));
    DigitsHaveNoPunctuation(Print(n));
    LastPart(x, Print(m), y, Print(n), '-');
    PrintIsInjective(m, n);
  }

  lemma NumberedIsLonger(name: string, count: nat)
    requires count != 1
    ensures |Numbered(name, count)| > |name|
  {
    var base, tail := NumberedParts(name, count);
  }

  lemma {:induction false} KthOccurrence(names: seq<string>, name: string, k: nat) returns (i: nat)
    requires 1 <= k <= Occurrences(names, name)
    ensures i < |names| && names[i] == name && Occurrences(names[..i + 1], name) == k
  {
    var front := names[..|names| - 1];
    if k <= Occurrences(front, name) {
      i := KthOccurrence(front, name, k);
      assert front[..i + 1] == names[..i + 1];
    } else {
      i := |names| - 1;
      assert names[..i + 1] == names;
    }
  }

  lemma {:induction false} OccursInside(names: seq<string>, name: string)
    ensures Occurrences(names, name) >= 1 <==> name in names
  {
    if names != [] {
      OccursInside(names[..|names| - 1], name);
      assert names == names[..|names| - 1] + [names[|names| - 1]];
    }
  }

  ghost predicate DistinctEntries(names: seq<string>) {
    forall i, j | 0 <= i < j < |names| :: EntryName(names, i) != EntryName(names, j)
  }

  /** The list itself has the name that numbering will give the `k`-th photo called `name`. */
  predicate Taken(names: seq<string>, name: string, k: nat) {
    2 <= k <= Occurrences(names, name) && Numbered(name, k) in names
  }

  lemma CountOf(names: seq<string>, i: nat)
    requires i < |names|
    ensures 1 <= Occurrences(names[..i + 1], names[i]) <= Occurrences(names, names[i])
  {
    OccursInside(names[..i + 1], names[i]);
    assert names[..i + 1][i] == names[i];
    OccurrencesGrow(names, i + 1, |names|, names[i]);
    assert names[..|names|] == names;
  }

  /** Two equal entries: one is a name of the list, the other numbering's for it. */
  lemma EqualEntriesAreTaken(names: seq<string>, i: nat, j: nat)
    requires i < j < |names| && EntryName(names, i) == EntryName(names, j)
    ensures exists name, k :: Taken(names, name, k)
  {
    var m, n := Occurrences(names[..i + 1], names[i]), Occurrences(names[..j + 1], names[j]);
    CountOf(names, i);
    CountOf(names, j);
    if names[i] == names[j] {
      LaterCountsAreLarger(names, i, j);
    }
    if m >= 2 && n >= 2 {
      NumbersCanBeReadOff(names[i], m, names[j], n);
    } else if m >= 2 {
      assert Taken(names, names[i], m);
    } else if n >= 2 {
      assert Taken(names, names[j], n);
    }
  }

  lemma TakenMakesEqualEntries(names: seq<string>, name: string, k: nat) returns (i: nat, j: nat)
    requires Taken(names, name, k)
    ensures i < |names| && j < |names| && i != j && EntryName(names, i) == EntryName(names, j)
  {
    var other := Numbered(name, k);
    OccursInside(names, other);
    i := KthOccurrence(names, other, 1);
    j := KthOccurrence(names, name, k);
    NumberedIsLonger(name, k);
  }

  /** For every list of names, `uniqueName` makes distinct entries exactly when no name it makes is in the list. */
  lemma DistinctExactly(names: seq<string>)
    ensures DistinctEntries(names) <==> forall name, k :: !Taken(names, name, k)
  {
    if name, k: nat :| Taken(names, name, k) {
      var i, j := TakenMakesEqualEntries(names, name, k);
      assert EntryName(names, if i < j then i else j) == EntryName(names, if i < j then j else i);
    } else {
      forall i, j | 0 <= i < j < |names| ensures EntryName(names, i) != EntryName(names, j) {
        if EntryName(names, i) == EntryName(names, j) { EqualEntriesAreTaken(names, i, j); }
      }
    }
  }

  /** A file name of a download is numbered by none of the others. */
  lemma FileNamesAreFree(rows: seq<Photo>, name: string, k: nat)
    ensures !Taken(FileNames(rows), name, k)
  {
    var names := FileNames(rows);
    if Taken(names, name, k) {
      OccursInside(names, name);
      var i, j :| 0 <= i < |names| && 0 <= j < |names| && names[i] == name && names[j] == Numbered(name, k);
      var a, b := rows[i].utc, rows[j].utc;
      assert Numbered(DownloadFilename(a), k) == Numbered(DownloadFilename(b), 1);
      NumberingIsInjective(a, k, b, 1);
      assert false;
    }
  }

  /** Whatever the rows, the entry names are pairwise distinct, numbered ones included. */
  lemma EntriesAreDistinct(rows: seq<Photo>, i: nat, j: nat)
    requires i < j < |rows|
    ensures Titles(rows)[i] != Titles(rows)[j]
  {
    forall name, k: nat ensures !Taken(FileNames(rows), name, k) {
      FileNamesAreFree(rows, name, k);
    }
    DistinctExactly(FileNames(rows));
  }

  /** It is the shape of the names that does it: `uniqueName` alone maps these three to two. */
  lemma ArbitraryNamesCanCollide(names: seq<string>)
    requires names == ["a.jpg", "a-2.jpg", "a.jpg"]
    ensures Taken(names, "a.jpg", 2) && EntryName(names, 2) == EntryName(names, 1) && !DistinctEntries(names)
  {
    assert names[..3][..2] == ["a.jpg", "a-2.jpg"] && names[..2][..1] == ["a.jpg"] && ["a.jpg"][..0] == [];
    assert ["a.jpg", "a-2.jpg"][..1] == ["a.jpg"];
    assert Occurrences(["a.jpg"], "a.jpg") == 1 && Occurrences(["a.jpg"], "a-2.jpg") == 0;
    assert Occurrences(names[..3], "a.jpg") == 2 && Occurrences(names[..2], "a-2.jpg") == 1;
    assert names[..3] == names;
    assert "a.jpg" == "a" + "." + "jpg";
    LastIndexBehind("a", "jpg");
    assert Print(2) == "2";
    assert names[1] == Numbered("a.jpg", 2);
  }

  /** The name table of one download. */
  class NameTable {
    var seen: map<string, nat>

    constructor ()
      ensures seen == map[]
    {
      seen := map[];
    }

    function Seen(name: string): nat
      reads this
    {
      if name in seen then seen[name] else 0
    }

    method UniqueName(name: string) returns (entry: string)
      modifies this
      ensures seen == old(seen)[name := old(Seen(name)) + 1]
      ensures entry == Numbered(name, old(Seen(name)) + 1)
    {
      seen := seen[name := Seen(name) + 1];
      if seen[name] == 1 {
        return name;
      }
      var ext, base := "", name;
      var idx := LastIndex(name, '.');
      if idx != -1 {
        ext, base := name[idx..], name[..idx];
      }
      entry := base + "-" + Print(seen[name]) + ext;
    }
  }

  /** The table holds how often each name has come up. */
  ghost predicate Tracks(seen: map<string, nat>, names: seq<string>) {
    forall name :: (if name in seen then seen[name] else 0) == Occurrences(names, name)
  }

  lemma TracksNext(seen: map<string, nat>, names: seq<string>, i: nat)
    requires i < |names| && Tracks(seen, names[..i])
    ensures
      var count := if names[i] in seen then seen[names[i]] else 0;
      && Tracks(seen[names[i] := count + 1], names[..i + 1])
      && count + 1 == Occurrences(names[..i + 1], names[i])
  {
    assert names[..i + 1][..i] == names[..i];
  }

  method NextName(table: NameTable, file: string, ghost names: seq<string>, ghost i: nat) returns (entry: string)
    requires i < |names| && file == names[i] && Tracks(table.seen, names[..i])
    modifies table
    ensures Tracks(table.seen, names[..i + 1])
    ensures entry == EntryName(names, i)
  {
    TracksNext(table.seen, names, i);
    entry := table.UniqueName(file);
  }

  // ---------- The archive ----------

  /** What happens to one photo of the loop. */
  datatype Outcome =
    | Copied
    | OpenFails
    | CreateFails
    | CopyStops(written: nat)

  datatype Entry = Entry(name: string, content: Bytes, complete: bool)

  predicate Opens(objects: map<string, Bytes>, row: Photo, outcome: Outcome) {
    row.storageKey in objects && !outcome.OpenFails?
  }

  predicate Succeeds(objects: map<string, Bytes>, row: Photo, outcome: Outcome) {
    row.storageKey in objects && outcome == Copied
  }

  /** Copying fails part of the way: the entry stays in the archive. */
  predicate LeavesPart(objects: map<string, Bytes>, row: Photo, outcome: Outcome) {
    row.storageKey in objects && outcome.CopyStops?
  }

  /** The first `k` photos are copied and the next one, if any, is not. */
  ghost predicate StopsAt(objects: map<string, Bytes>, rows: seq<Photo>, outcomes: seq<Outcome>, k: nat)
    requires |outcomes| == |rows|
  {
    && k <= |rows|
    && (forall i | 0 <= i < k :: Succeeds(objects, rows[i], outcomes[i]))
    && (k < |rows| ==> !Succeeds(objects, rows[k], outcomes[k]))
  }

  function StopFrom(objects: map<string, Bytes>, rows: seq<Photo>, outcomes: seq<Outcome>, i: nat): (k: nat)
    requires i <= |outcomes| == |rows|
    ensures i <= k <= |rows|
    ensures forall j | i <= j < k :: Succeeds(objects, rows[j], outcomes[j])
    ensures k < |rows| ==> !Succeeds(objects, rows[k], outcomes[k])
    decreases |rows| - i
  {
    if i < |rows| && Succeeds(objects, rows[i], outcomes[i]) then StopFrom(objects, rows, outcomes, i + 1) else i
  }

  /** How many photos the loop copies. */
  function Stop(objects: map<string, Bytes>, rows: seq<Photo>, outcomes: seq<Outcome>): (k: nat)
    requires |outcomes| == |rows|
    ensures StopsAt(objects, rows, outcomes, k)
  {
    StopFrom(objects, rows, outcomes, 0)
  }

  lemma StopIsUnique(objects: map<string, Bytes>, rows: seq<Photo>, outcomes: seq<Outcome>, k: nat)
    requires |outcomes| == |rows| && StopsAt(objects, rows, outcomes, k)
    ensures k == Stop(objects, rows, outcomes)
  {
    var j := Stop(objects, rows, outcomes);
    if j < |rows| && k < |rows| {
      assert !Succeeds(objects, rows[j], outcomes[j]) && !Succeeds(objects, rows[k], outcomes[k]);
    }
  }

  /** The entries are the photos of the first rows, whole, under their own titles. */
  ghost predicate Complete(zip: seq<Entry>, titles: seq<string>, objects: map<string, Bytes>, rows: seq<Photo>) {
    && |zip| <= |rows| == |titles|
    && (forall i | 0 <= i < |zip| ::
          rows[i].storageKey in objects && zip[i] == Entry(titles[i], objects[rows[i].storageKey], true))
  }

  /** As much of the failing photo as was written before copying stopped. */
  predicate IsPartial(entry: Entry, objects: map<string, Bytes>, row: Photo, outcome: Outcome) {
    && !entry.complete && row.storageKey in objects && outcome.CopyStops?
    && var body := objects[row.storageKey];
    entry.content == body[..if outcome.written <= |body| then outcome.written else |body|]
  }

  /**
   * The archive of a download: its complete entries are the photos copied, the first rows in the
   * order given, under their own titles; after them comes one more entry exactly when copying
   * the next photo fails part of the way, and it holds what was written of that photo's bytes.
   */
  ghost predicate IsArchive(zip: seq<Entry>, titles: seq<string>, objects: map<string, Bytes>,
                            rows: seq<Photo>, outcomes: seq<Outcome>)
    requires |outcomes| == |rows| == |titles|
  {
    var k := Stop(objects, rows, outcomes);
    && |zip| == k + (if k < |rows| && LeavesPart(objects, rows[k], outcomes[k]) then 1 else 0)
    && Complete(zip[..k], titles, objects, rows)
    && (|zip| > k ==> zip[k].name == titles[k] && IsPartial(zip[k], objects, rows[k], outcomes[k]))
  }

  ghost predicate AllCopied(objects: map<string, Bytes>, rows: seq<Photo>, outcomes: seq<Outcome>, k: nat)
    requires k <= |outcomes| == |rows|
  {
    forall i | 0 <= i < k :: Succeeds(objects, rows[i], outcomes[i])
  }

  lemma OneMoreCopied(zip: seq<Entry>, titles: seq<string>, objects: map<string, Bytes>, rows: seq<Photo>,
                      outcomes: seq<Outcome>)
    requires |zip| < |outcomes| == |rows| == |titles| && Complete(zip, titles, objects, rows)
    requires AllCopied(objects, rows, outcomes, |zip|) && Succeeds(objects, rows[|zip|], outcomes[|zip|])
    ensures AllCopied(objects, rows, outcomes, |zip| + 1)
    ensures Complete(zip + [Entry(titles[|zip|], objects[rows[|zip|].storageKey], true)], titles, objects, rows)
  {
  }

  /** The loop ends between two entries. */
  lemma ArchiveEnds(zip: seq<Entry>, titles: seq<string>, objects: map<string, Bytes>, rows: seq<Photo>,
                    outcomes: seq<Outcome>)
    requires |zip| <= |outcomes| == |rows| == |titles| && AllCopied(objects, rows, outcomes, |zip|)
    requires |zip| < |rows| ==> !Succeeds(objects, rows[|zip|], outcomes[|zip|])
    requires |zip| < |rows| ==> !LeavesPart(objects, rows[|zip|], outcomes[|zip|])
    requires Complete(zip, titles, objects, rows)
    ensures IsArchive(zip, titles, objects, rows, outcomes)
  {
    StopIsUnique(objects, rows, outcomes, |zip|);
    assert zip[..|zip|] == zip;
  }

  /** The loop ends in the middle of an entry. */
  lemma ArchiveIsCut(zip: seq<Entry>, part: Entry, titles: seq<string>, objects: map<string, Bytes>,
                     rows: seq<Photo>, outcomes: seq<Outcome>)
    requires |zip| < |outcomes| == |rows| == |titles| && AllCopied(objects, rows, outcomes, |zip|)
    requires LeavesPart(objects, rows[|zip|], outcomes[|zip|]) && Complete(zip, titles, objects, rows)
    requires part.name == titles[|zip|] && IsPartial(part, objects, rows[|zip|], outcomes[|zip|])
    ensures IsArchive(zip + [part], titles, objects, rows, outcomes)
  {
    StopIsUnique(objects, rows, outcomes, |zip|);
    assert (zip + [part])[..|zip|] == zip;
  }

  /** The loop of `DownloadAll`, for any file naming; `titles` are the entry names it makes. */
  method WriteEntries(objects: map<string, Bytes>, rows: seq<Photo>, outcomes: seq<Outcome>, file: Photo -> string,
                      ghost names: seq<string>, ghost titles: seq<string>)
    returns (zip: seq<Entry>)
    requires |outcomes| == |rows| == |names| == |titles|
    requires forall i | 0 <= i < |rows| :: names[i] == file(rows[i])
    requires forall i | 0 <= i < |names| :: titles[i] == EntryName(names, i)
    ensures IsArchive(zip, titles, objects, rows, outcomes)
  {
    zip := [];
    var table := new NameTable();
    for i := 0 to |rows|
      invariant |zip| == i && AllCopied(objects, rows, outcomes, i)
      invariant fresh(table) && Tracks(table.seen, names[..i])
      invariant Complete(zip, titles, objects, rows)
    {
      var row, outcome := rows[i], outcomes[i];
      if !Opens(objects, row, outcome) {
        ArchiveEnds(zip, titles, objects, rows, outcomes);
        return;
      }
      var name := NextName(table, file(row), names, i);
      if outcome.CreateFails? {
        ArchiveEnds(zip, titles, objects, rows, outcomes);
        return;
      }
      var body := objects[row.storageKey];
      if outcome.CopyStops? {
        var part := Entry(name, body[..if outcome.written <= |body| then outcome.written else |body|], false);
        ArchiveIsCut(zip, part, titles, objects, rows, outcomes);
        return zip + [part];
      }
      OneMoreCopied(zip, titles, objects, rows, outcomes);
      zip := zip + [Entry(name, body, true)];
    }
    ArchiveEnds(zip, titles, objects, rows, outcomes);
  }

  /**
   * `DownloadAll` behind its guard; `listOk` is how the query goes, `outcome` how the i-th photo
   * does. The archive is that of the event's album, in album order, up to the first failure.
   */
  method DownloadAll(table: seq<Photo>, eventId: string, objects: map<string, Bytes>, outcome: nat -> Outcome,
                     listOk: bool)
    returns (zip: Option<seq<Entry>>)
    ensures zip.None? <==> !listOk
    ensures
      var rows := ListPhotos(table, eventId);
      && InAlbumOrder(rows)
      && (zip.Some? ==> IsArchive(zip.value, Titles(rows), objects, rows, seq(|rows|, outcome)))
  {
    ListIsTheAlbum(table, eventId);
    if !listOk {
      return None;
    }
    var rows := ListPhotos(table, eventId);
    var entries := WriteEntries(objects, rows, seq(|rows|, outcome), (r: Photo) => DownloadFilename(r.utc),
                                FileNames(rows), Titles(rows));
    return Some(entries);
  }

  lemma ArchiveIsTitled(zip: seq<Entry>, titles: seq<string>, objects: map<string, Bytes>, rows: seq<Photo>,
                        outcomes: seq<Outcome>)
    requires |outcomes| == |rows| == |titles| && IsArchive(zip, titles, objects, rows, outcomes)
    ensures |zip| <= |titles| && forall n | 0 <= n < |zip| :: zip[n].name == titles[n]
  {
    var k := Stop(objects, rows, outcomes);
    assert forall n | 0 <= n < k :: zip[n] == zip[..k][n];
  }

  /** No two entries of an archive, the partial one included, have the same name. */
  lemma ArchiveNamesAreDistinct(zip: seq<Entry>, titles: seq<string>, objects: map<string, Bytes>, rows: seq<Photo>,
                                outcomes: seq<Outcome>, i: nat, j: nat)
    requires |outcomes| == |rows| && titles == Titles(rows)
    requires IsArchive(zip, titles, objects, rows, outcomes) && i < j < |zip|
    ensures zip[i].name != zip[j].name
  {
    ArchiveIsTitled(zip, titles, objects, rows, outcomes);
    EntriesAreDistinct(rows, i, j);
  }

  // ---------- Names sort like the album ----------

  /** The row's UTC fields are those of its moment. */
  ghost predicate Dated(row: Photo) {
    ValidStamp(row.utc) && 0 <= row.utc.year <= 9999 && row.takenAt / 1_000_000 == LocalSeconds(row.utc)
  }

  lemma StampOrder(a: Stamp, b: Stamp)
    requires ValidStamp(a) && ValidStamp(b) && 0 <= a.year <= 9999 && 0 <= b.year <= 9999
    ensures TextLeq(DownloadFilename(a), DownloadFilename(b)) <==> LocalSeconds(a) <= LocalSeconds(b)
  {
    StampFields(a);
    StampFields(b);
    var tail := ".jpg";
    TextLeqTotal(tail, tail);
    var ra, rb := ClockTail(a), ClockTail(b);
    ClockOrder(a, b);
    TextLeqPrefix("-", ra, rb);
    PadOrder(a.day, b.day, "-" + ra, "-" + rb);
    var da, db := Pad(a.day, 2) + ("-" + ra), Pad(b.day, 2) + ("-" + rb);
    PadOrder(a.month, b.month, da, db);
    var ma, mb := Pad(a.month, 2) + da, Pad(b.month, 2) + db;
    FourDigitOrder(a.year, b.year, ma, mb);
    TextLeqPrefix("italy-", Pad(a.year, 4) + ma, Pad(b.year, 4) + mb);
    LocalOrder(a, b);
  }

  function ClockTail(t: Stamp): string {
    Pad(t.hour, 2) + (Pad(t.minute, 2) + (Pad(t.second, 2) + ".jpg"))
  }

  lemma ClockOrder(a: Stamp, b: Stamp)
    requires ValidStamp(a) && ValidStamp(b)
    ensures TextLeq(ClockTail(a), ClockTail(b)) <==> EarlierTime(a, b) || SameTime(a, b)
  {
    TextLeqTotal(".jpg", ".jpg");
    PadOrder(a.second, b.second, ".jpg", ".jpg");
    PadOrder(a.minute, b.minute, Pad(a.second, 2) + ".jpg", Pad(b.second, 2) + ".jpg");
    PadOrder(a.hour, b.hour, Pad(a.minute, 2) + (Pad(a.second, 2) + ".jpg"),
             Pad(b.minute, 2) + (Pad(b.second, 2) + ".jpg"));
  }

  lemma FourDigitOrder(m: nat, n: nat, r: string, q: string)
    requires m <= 9999 && n <= 9999
    ensures TextLeq(Pad(m, 4) + r, Pad(n, 4) + q) <==> m < n || (m == n && TextLeq(r, q))
  {
    assert Pow10(4) == 10000 by { assert Pow10(2) == 100; }
    PadLength(m, 4);
    PadLength(n, 4);
    ParsePad(m, 4);
    ParsePad(n, 4);
    FieldOrder(Pad(m, 4), Pad(n, 4), r, q);
    DigitsSortAsNumbers(Pad(m, 4), Pad(n, 4));
  }

  lemma StampFields(t: Stamp)
    requires t.year >= 0
    ensures DownloadFilename(t) ==
            "italy-" + (Pad(t.year, 4) + (Pad(t.month, 2) + (Pad(t.day, 2) + ("-" + ClockTail(t)))))
  {
    SevenParts("italy-", Pad(t.year, 4), Pad(t.month, 2), Pad(t.day, 2),
               "-", Pad(t.hour, 2), Pad(t.minute, 2), Pad(t.second, 2), ".jpg");
  }

  lemma SevenParts(i: string, y: string, m: string, d: string, s: string, h: string, n: string, c: string, e: string)
    ensures i + (y + m + d) + s + (h + n + c) + e == i + (y + (m + (d + (s + (h + (n + (c + e)))))))
  {
    assert (h + n + c) + e == h + (n + (c + e));
    assert (y + m + d) + (s + ((h + n + c) + e)) == y + (m + (d + (s + (h + (n + (c + e))))));
    assert i + (y + m + d) + s + (h + n + c) + e == i + ((y + m + d) + (s + ((h + n + c) + e)));
  }

  lemma NamePieces(y: string, m: string, d: string, h: string, n: string, s: string)
    requires |y| == 4 && |m| == 2 && |d| == 2 && |h| == 2 && |n| == 2 && |s| == 2
    ensures
      var name := "italy-" + (y + m + d) + "-" + (h + n + s) + ".jpg";
      && |name| == 25 && name[..6] == "italy-" && name[6..10] == y && name[10..12] == m && name[12..14] == d
      && name[14] == '-' && name[15..17] == h && name[17..19] == n && name[19..21] == s && name[21..] == ".jpg"
  {
    var name := "italy-" + (y + m + d) + "-" + (h + n + s) + ".jpg";
    assert name[..6] == "italy-" && name[6..10] == y && name[10..12] == m && name[12..14] == d;
    assert name[15..17] == h && name[17..19] == n && name[19..21] == s;
  }

  /** A file name tells when its photo was taken: date and time to the second, in their places. */
  lemma FileNameTellsTheTime(t: Stamp)
    requires ValidStamp(t) && 0 <= t.year <= 9999
    ensures
      var name := DownloadFilename(t);
      && |name| == 25 && name[..6] == "italy-" && name[14] == '-' && name[21..] == ".jpg"
      && Field(name[6..10]) == Some(t.year as nat) && Field(name[10..12]) == Some(t.month)
      && Field(name[12..14]) == Some(t.day) && Field(name[15..17]) == Some(t.hour)
      && Field(name[17..19]) == Some(t.minute) && Field(name[19..21]) == Some(t.second)
  {
    assert Pow10(4) == 10000 by { assert Pow10(2) == 100; }
    PadLength(t.year, 4);
    ParsePad(t.year, 4);
    TwoDigits(t.month);
    TwoDigits(t.day);
    TwoDigits(t.hour);
    TwoDigits(t.minute);
    TwoDigits(t.second);
    assert DownloadFilename(t) == "italy-" + (Pad(t.year, 4) + Pad(t.month, 2) + Pad(t.day, 2)) + "-"
                                  + (Pad(t.hour, 2) + Pad(t.minute, 2) + Pad(t.second, 2)) + ".jpg";
    NamePieces(Pad(t.year, 4), Pad(t.month, 2), Pad(t.day, 2), Pad(t.hour, 2), Pad(t.minute, 2), Pad(t.second, 2));
  }

  /** File names taken at different seconds sort as the photos were taken. */
  lemma FileNamesSortLikeTheAlbum(a: Photo, b: Photo)
    requires Dated(a) && Dated(b) && AlbumLeq(a, b)
    ensures TextLeq(DownloadFilename(a.utc), DownloadFilename(b.utc))
    ensures DownloadFilename(a.utc) == DownloadFilename(b.utc) <==> a.takenAt / 1_000_000 == b.takenAt / 1_000_000
  {
    StampOrder(a.utc, b.utc);
    StampOrder(b.utc, a.utc);
    if TextLeq(DownloadFilename(b.utc), DownloadFilename(a.utc)) {
      TextLeqAntisymmetric(DownloadFilename(a.utc), DownloadFilename(b.utc));
    }
  }
}
