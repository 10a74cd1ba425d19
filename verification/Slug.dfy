/**
 * Slugs: the streaming `slugify` of backend/internal/photos/download_all.go, the regular
 * expression form of scripts/init.py, and the words both of them keep.
 */
module Slug {
  import opened Options

  predicate IsAlnum(c: char) { 'a' <= c <= 'z' || '0' <= c <= '9' }

  /** Two characters outside ASCII lower to ASCII letters: the Kelvin sign, and I with a dot. */
  const KELVIN := '\U{212A}'
  const DOTTED_I := '\U{130}'

  /**
   * `unicode.ToLower`, as far as a slug can tell. The other characters outside ASCII lower to
   * characters outside ASCII, which are separators either way; here they stay as they are.
   */
  function LowerChar(c: char): char {
    if 'A' <= c <= 'Z' then (c as int + 32) as char
    else if c == KELVIN then 'k'
    else if c == DOTTED_I then 'i'
    else c
  }

  function Lower(s: string): (r: string)
    ensures |r| == |s| && forall i | 0 <= i < |s| :: r[i] == LowerChar(s[i])
  {
    seq(|s|, i requires 0 <= i < |s| => LowerChar(s[i]))
  }

  // ---------- What a slug is: the words of a text, joined by dashes ----------

  function DropSeparators(s: string): (r: string)
    ensures |r| <= |s| && (r == [] || IsAlnum(r[0]))
  {
    if s == [] || IsAlnum(s[0]) then s else DropSeparators(s[1..])
  }

  function TakeWord(s: string): (w: string)
    ensures w <= s && forall c | c in w :: IsAlnum(c)
    ensures |w| == |s| || !IsAlnum(s[|w|])
  {
    if s == [] || !IsAlnum(s[0]) then [] else [s[0]] + TakeWord(s[1..])
  }

  /** The maximal alphanumeric runs, in order. */
  function Words(s: string): seq<string>
    decreases |s|
  {
    var t := DropSeparators(s);
    if t == [] then [] else [TakeWord(t)] + Words(t[|TakeWord(t)|..])
  }

  function Join(words: seq<string>): string {
    if words == [] then []
    else if |words| == 1 then words[0]
    else words[0] + "-" + Join(words[1..])
  }

  predicate IsWord(w: string) {
    w != [] && forall c | c in w :: IsAlnum(c)
  }

  lemma {:induction false} WordsAreWords(s: string)
    ensures forall w | w in Words(s) :: IsWord(w)
    decreases |s|
  {
    var t := DropSeparators(s);
    if t != [] {
      WordsAreWords(t[|TakeWord(t)|..]);
    }
  }

  // ---------- The streaming form ----------

  /** What the loop still appends for the rest `s` when `lastWasDash` is `d`. */
  function Stream(s: string, d: bool): string {
    if s == [] then []
    else if IsAlnum(s[0]) then [s[0]] + Stream(s[1..], false)
    else if d then Stream(s[1..], true)
    else ['-'] + Stream(s[1..], true)
  }

  /** `strings.TrimSuffix(s, "-")`. */
  function TrimDash(s: string): string {
    if s != [] && s[|s| - 1] == '-' then s[..|s| - 1] else s
  }

  lemma {:induction false} StreamSkipsSeparators(s: string)
    ensures Stream(s, true) == Stream(DropSeparators(s), true)
  {
    if s != [] && !IsAlnum(s[0]) {
      StreamSkipsSeparators(s[1..]);
    }
  }

  lemma {:induction false} StreamCopiesAWord(s: string, d: bool)
    requires s != [] && IsAlnum(s[0])
    ensures Stream(s, d) == TakeWord(s) + Stream(s[|TakeWord(s)|..], false)
  {
    var rest := s[1..];
    if rest != [] && IsAlnum(rest[0]) {
      StreamCopiesAWord(rest, false);
      assert s[|TakeWord(s)|..] == rest[|TakeWord(rest)|..];
      assert [s[0]] + (TakeWord(rest) + Stream(rest[|TakeWord(rest)|..], false))
          == TakeWord(s) + Stream(s[|TakeWord(s)|..], false);
    } else {
      assert TakeWord(s) == [s[0]];
    }
  }

  lemma TrimAfterPrefix(p: string, s: string)
    requires s != []
    ensures TrimDash(p + s) == p + TrimDash(s)
  {
  }

  lemma TrimLeavesWords(w: string)
    requires IsWord(w)
    ensures TrimDash(w) == w && TrimDash(w + "-") == w
  {
    assert w[|w| - 1] in w;
  }

  /** The loop and its final trim keep exactly the words. */
  lemma {:induction false} StreamJoinsWords(s: string)
    ensures TrimDash(Stream(s, true)) == Join(Words(s))
    ensures Words(s) == [] <==> Stream(s, true) == []
    decreases |s|
  {
    StreamSkipsSeparators(s);
    var t := DropSeparators(s);
    if t != [] {
      var w := TakeWord(t);
      var u := t[|w|..];
      StreamCopiesAWord(t, true);
      TrimLeavesWords(w);
      StreamJoinsWords(u);
      if u == [] {
        assert w + [] == w;
      } else {
        var after := Stream(u, true);
        assert Stream(u, false) == ['-'] + after;
        assert w + (['-'] + after) == w + "-" + after;
        if after == [] {
          assert w + "-" + after == w + "-";
        } else {
          TrimAfterPrefix(w + "-", after);
        }
      }
    }
  }

  // ---------- Which characters are kept, and where the dashes go ----------

  /** What a slug keeps of a character: lower-case letters and digits as they are, capitals lowered. */
  function Kept(c: char): Option<char> {
    if 'a' <= c <= 'z' || '0' <= c <= '9' then Some(c)
    else if 'A' <= c <= 'Z' then Some((c as int + 32) as char)
    else if c == '\U{212A}' then Some('k')
    else if c == '\U{130}' then Some('i')
    else None
  }

  /** The kept characters, in order. */
  function KeptOf(s: string): string {
    if s == [] then [] else (if Kept(s[0]).Some? then [Kept(s[0]).value] else []) + KeptOf(s[1..])
  }

  /** The kept characters, with one dash wherever others lie between two of them. */
  function Spaced(s: string, started: bool, gap: bool): string {
    if s == [] then []
    else if Kept(s[0]).None? then Spaced(s[1..], started, true)
    else (if started && gap then "-" else "") + [Kept(s[0]).value] + Spaced(s[1..], true, false)
  }

  function WithoutDashes(s: string): string {
    if s == [] then [] else (if s[0] == '-' then [] else [s[0]]) + WithoutDashes(s[1..])
  }

  /** The stream after a word, and after a dash, against the dashes put in only when needed. */
  ghost predicate SpacedLike(s: string) {
    var text := Lower(s);
    var behind := Stream(text, true);
    && TrimDash(Stream(text, false)) == Spaced(s, true, false)
    && Spaced(s, true, true) == (if behind == [] then [] else "-" + TrimDash(behind))
    && Spaced(s, false, false) == TrimDash(behind) == Spaced(s, false, true)
    && (behind == [] <==> KeptOf(s) == [])
  }

  lemma LowerTail(s: string)
    requires s != []
    ensures Lower(s) == [LowerChar(s[0])] + Lower(s[1..]) && Lower(s)[1..] == Lower(s[1..])
  {
  }

  lemma SpacedWord(s: string)
    requires s != [] && Kept(s[0]).Some? && SpacedLike(s[1..])
    ensures SpacedLike(s)
  {
    LowerTail(s);
    var c, rest := Kept(s[0]).value, Stream(Lower(s[1..]), false);
    assert Stream(Lower(s), true) == [c] + rest && Stream(Lower(s), false) == [c] + rest;
    if rest != [] {
      TrimAfterPrefix([c], rest);
    }
    assert TrimDash([c] + rest) == [c] + Spaced(s[1..], true, false);
  }

  lemma SpacedGap(s: string)
    requires s != [] && Kept(s[0]).None? && SpacedLike(s[1..])
    ensures SpacedLike(s)
  {
    LowerTail(s);
    var behind := Stream(Lower(s[1..]), true);
    assert Stream(Lower(s), true) == behind && Stream(Lower(s), false) == "-" + behind;
    if behind != [] {
      TrimAfterPrefix("-", behind);
    }
  }

  lemma {:induction false} SpacedIsStream(s: string)
    ensures SpacedLike(s)
  {
    if s != [] {
      SpacedIsStream(s[1..]);
      if Kept(s[0]).Some? {
        SpacedWord(s);
      } else {
        SpacedGap(s);
      }
    }
  }

  lemma WithoutDashesOf(c: char, rest: string)
    ensures WithoutDashes([c] + rest) == (if c == '-' then [] else [c]) + WithoutDashes(rest)
  {
    assert ([c] + rest)[1..] == rest;
  }

  lemma {:induction false} SpacedKeeps(s: string, started: bool, gap: bool)
    ensures WithoutDashes(Spaced(s, started, gap)) == KeptOf(s)
  {
    if s != [] {
      if Kept(s[0]).None? {
        SpacedKeeps(s[1..], started, true);
      } else {
        SpacedKeeps(s[1..], true, false);
        var c, rest := Kept(s[0]).value, Spaced(s[1..], true, false);
        WithoutDashesOf(c, rest);
        if started && gap {
          WithoutDashesOf('-', [c] + rest);
          assert Spaced(s, started, gap) == ['-'] + ([c] + rest);
        } else {
          assert Spaced(s, started, gap) == [c] + rest;
        }
      }
    }
  }

  lemma {:induction false} SpacedCharacters(s: string, started: bool, gap: bool)
    ensures forall c | c in Spaced(s, started, gap) :: 'a' <= c <= 'z' || '0' <= c <= '9' || c == '-'
  {
    if s != [] {
      if Kept(s[0]).None? {
        SpacedCharacters(s[1..], started, true);
      } else {
        SpacedCharacters(s[1..], true, false);
      }
    }
  }

  /** A letter or digit of ASCII, or one of the two others that lower to one. */
  predicate IsKept(c: char) {
    || 'a' <= c <= 'z' || 'A' <= c <= 'Z' || '0' <= c <= '9' || c == '\U{212A}' || c == '\U{130}'
  }

  lemma {:induction false} KeptExactly(s: string)
    ensures KeptOf(s) == [] <==> forall c | c in s :: !IsKept(c)
  {
    if s != [] {
      KeptExactly(s[1..]);
      assert s[0] in s && forall c :: c in s <==> c == s[0] || c in s[1..];
    }
  }

  /**
   * The slug of a name with at least one letter or digit has exactly its letters and digits,
   * lowered and in order, with one dash between two of them if and only if something else stood
   * there; the slug of any other name is "photos".
   */
  lemma SlugKeepsLettersAndDigits(name: string)
    ensures KeptOf(name) == [] <==> forall c | c in name :: !IsKept(c)
    ensures KeptOf(name) == [] ==> SlugOf(name) == "photos"
    ensures KeptOf(name) != [] ==> SlugOf(name) == Spaced(name, false, false)
    ensures KeptOf(name) != [] ==> WithoutDashes(SlugOf(name)) == KeptOf(name)
    ensures forall c | c in SlugOf(name) :: 'a' <= c <= 'z' || '0' <= c <= '9' || c == '-'
  {
    KeptExactly(name);
    SpacedIsStream(name);
    SpacedKeeps(name, false, false);
    SpacedCharacters(name, false, false);
    StreamJoinsWords(Lower(name));
  }

  /** The loop of `slugify`: its result is the words of the lowered name, or "photos" without any. */
  method Slugify(name: string) returns (out: string)
    ensures out == SlugOf(name)
    ensures out == if KeptOf(name) == [] then "photos" else Spaced(name, false, false)
  {
    SlugKeepsLettersAndDigits(name);
    var text := Lower(name);
    var b: string := [];
    var lastWasDash := true;
    for i := 0 to |text|
      invariant Stream(text, true) == b + Stream(text[i..], lastWasDash)
    {
      var r := text[i];
      assert text[i..] == [r] + text[i + 1..];
      if IsAlnum(r) {
        assert b + ([r] + Stream(text[i + 1..], false)) == b + [r] + Stream(text[i + 1..], false);
        b := b + [r];
        lastWasDash := false;
      } else if !lastWasDash {
        assert b + (['-'] + Stream(text[i + 1..], true)) == b + ['-'] + Stream(text[i + 1..], true);
        b := b + ['-'];
        lastWasDash := true;
      }
    }
    assert text[|text|..] == [] && b + [] == b;
    StreamJoinsWords(text);
    out := TrimDash(b);
    WordsJoinToSomething(text);
    if out == "" {
      out := "photos";
    }
  }

  /** The slug of a name, by its words. */
  function SlugOf(name: string): string {
    var words := Words(Lower(name));
    if words == [] then "photos" else Join(words)
  }

  lemma WordsJoinToSomething(s: string)
    ensures Join(Words(s)) == [] <==> Words(s) == []
  {
    WordsAreWords(s);
    if Words(s) != [] {
      assert Words(s)[0] in Words(s);
    }
  }

  /** `zipFilename`. */
  method ZipFilename(eventName: string) returns (file: string)
    ensures file == SlugOf(eventName) + "-photos.zip"
  {
    var slug := Slugify(eventName);
    file := slug + "-photos.zip";
  }

  // ---------- The regular expression form ----------

  /** `re.sub(r"[^a-z0-9]+", "-", s)`. */
  function Collapse(s: string): string
    decreases |s|
  {
    if s == [] then []
    else if IsAlnum(s[0]) then [s[0]] + Collapse(s[1..])
    else
      assert |DropSeparators(s)| < |s|;
      ['-'] + Collapse(DropSeparators(s))
  }

  function StripLeft(s: string, drop: char -> bool): string {
    if s != [] && drop(s[0]) then StripLeft(s[1..], drop) else s
  }

  function StripRight(s: string, drop: char -> bool): string {
    if s != [] && drop(s[|s| - 1]) then StripRight(s[..|s| - 1], drop) else s
  }

  predicate IsDash(c: char) { c == '-' }

  /** What `str.strip` takes for white space. */
  predicate IsSpace(c: char) {
    || c == ' ' || '\t' <= c <= '\r' || '\U{1C}' <= c <= '\U{1F}' || c == '\U{85}' || c == '\U{A0}'
    || c == '\U{1680}' || '\U{2000}' <= c <= '\U{200A}' || c == '\U{2028}' || c == '\U{2029}'
    || c == '\U{202F}' || c == '\U{205F}' || c == '\U{3000}'
  }

  /** Python's `lower` of one character: the dotted I becomes an i and a combining dot. */
  function PyLowerChar(c: char): string {
    if c == DOTTED_I then ['i', '\U{307}'] else [LowerChar(c)]
  }

  /** `str.lower`. */
  function PyLower(s: string): string {
    if s == [] then [] else PyLowerChar(s[0]) + PyLower(s[1..])
  }

  /** `slugify` of scripts/init.py; `None` is its ValueError. */
  function SimpleSlug(name: string): Option<string> {
    var stripped := StripRight(StripLeft(name, IsSpace), IsSpace);
    var slug := StripRight(StripLeft(Collapse(PyLower(stripped)), IsDash), IsDash);
    if slug == [] then None else Some(slug)
  }

  lemma {:induction false} CollapseIsStream(s: string)
    ensures Collapse(s) == Stream(s, false)
    decreases |s|
  {
    if s != [] {
      if IsAlnum(s[0]) {
        CollapseIsStream(s[1..]);
      } else {
        var t := DropSeparators(s);
        CollapseIsStream(t);
        StreamSkipsSeparators(s[1..]);
      }
    }
  }

  /** After the last character the stream ends in a dash at most once, and never starts with one. */
  lemma {:induction false} StreamEnds(s: string, d: bool)
    ensures var r := Stream(s, d); |r| >= 2 && r[|r| - 1] == '-' ==> r[|r| - 2] != '-'
    ensures d ==> Stream(s, d) == [] || IsAlnum(Stream(s, d)[0])
  {
    if s != [] {
      StreamEnds(s[1..], !IsAlnum(s[0]));
      var tail := Stream(s[1..], !IsAlnum(s[0]));
      assert |tail| >= 2 ==> Stream(s, d)[|Stream(s, d)| - 2] == tail[|tail| - 2];
    }
  }

  lemma StripDashes(s: string)
    requires |s| >= 2 && s[|s| - 1] == '-' ==> s[|s| - 2] != '-'
    ensures StripRight(s, IsDash) == TrimDash(s)
  {
    if s != [] && s[|s| - 1] == '-' {
      var t := s[..|s| - 1];
      assert t != [] ==> t[|t| - 1] == s[|s| - 2];
    }
  }

  lemma CollapseStripped(s: string)
    ensures StripRight(StripLeft(Collapse(s), IsDash), IsDash) == Join(Words(s))
  {
    CollapseIsStream(s);
    StreamEnds(s, true);
    StripDashes(Stream(s, true));
    StreamJoinsWords(s);
    if s != [] && !IsAlnum(s[0]) {
      assert Collapse(s)[1..] == Stream(s, true);
    }
  }

  // White space at either end holds no word.

  lemma {:induction false} WordsIgnoreLeft(s: string)
    ensures Words(PyLower(StripLeft(s, IsSpace))) == Words(PyLower(s))
  {
    if s != [] && IsSpace(s[0]) {
      WordsIgnoreLeft(s[1..]);
      assert PyLower(s)[1..] == PyLower(s[1..]);
    }
  }

  lemma {:induction false} PyLowerSplits(a: string, b: string)
    ensures PyLower(a + b) == PyLower(a) + PyLower(b)
  {
    if a == [] {
      assert a + b == b;
    } else {
      PyLowerSplits(a[1..], b);
      assert (a + b)[1..] == a[1..] + b;
      assert PyLower(a + b) == PyLowerChar(a[0]) + (PyLower(a[1..]) + PyLower(b));
      Associate(PyLowerChar(a[0]), PyLower(a[1..]), PyLower(b));
    }
  }

  lemma Associate(x: string, y: string, z: string)
    ensures x + (y + z) == (x + y) + z
  {
  }

  lemma {:induction false} StreamSnoc(s: string, c: char, d: bool)
    requires !IsAlnum(c)
    ensures TrimDash(Stream(s + [c], d)) == TrimDash(Stream(s, d)) || (s == [] && !d)
    ensures s == [] ==> Stream(s + [c], d) == if d then [] else ['-']
    ensures d ==> (Stream(s + [c], d) == [] <==> Stream(s, d) == [])
  {
    if s == [] {
      assert s + [c] == [c] && [c][1..] == [];
    } else {
      var d' := !IsAlnum(s[0]);
      StreamSnoc(s[1..], c, d');
      assert (s + [c])[1..] == s[1..] + [c];
      var head: string := if IsAlnum(s[0]) then [s[0]] else if d then [] else ['-'];
      var short, long := Stream(s[1..], d'), Stream(s[1..] + [c], d');
      assert Stream(s, d) == head + short && Stream(s + [c], d) == head + long;
      TrimBehind(head, short, long, IsAlnum(s[0]));
    }
  }

  /** Two tails that trim to the same text still do behind a common head. */
  lemma TrimBehind(head: string, short: string, long: string, word: bool)
    requires TrimDash(short) == TrimDash(long) || (word && short == [] && long == ['-'])
    requires word ==> |head| == 1 && IsAlnum(head[0])
    requires !word ==> |head| <= 1 && (short == [] <==> long == [])
    ensures TrimDash(head + short) == TrimDash(head + long)
  {
  }

  lemma SpaceBehind(t: string, c: char)
    requires IsSpace(c)
    ensures Join(Words(PyLower(t + [c]))) == Join(Words(PyLower(t)))
  {
    PyLowerSplits(t, [c]);
    assert PyLower([c]) == [c];
    StreamSnoc(PyLower(t), c, true);
    StreamJoinsWords(PyLower(t));
    StreamJoinsWords(PyLower(t) + [c]);
  }

  lemma {:induction false} WordsIgnoreRight(s: string)
    ensures Join(Words(PyLower(StripRight(s, IsSpace)))) == Join(Words(PyLower(s)))
  {
    if s != [] && IsSpace(s[|s| - 1]) {
      var t, c := s[..|s| - 1], s[|s| - 1];
      WordsIgnoreRight(t);
      assert s == t + [c];
      SpaceBehind(t, c);
    }
  }

  // The two ways of lowering differ in the dot that Python leaves behind a dotted I.

  predicate StartsWord(s: string) { s != [] && IsAlnum(LowerChar(s[0])) }

  /** How often a dotted I has a letter or digit right behind it. */
  function Splits(s: string): nat {
    if s == [] then 0 else (if s[0] == DOTTED_I && StartsWord(s[1..]) then 1 else 0) + Splits(s[1..])
  }

  predicate SplitAt(s: string, i: nat) {
    i < |s| - 1 && s[i] == DOTTED_I && IsAlnum(LowerChar(s[i + 1]))
  }

  ghost predicate NoneSplit(s: string) {
    forall i: nat :: !SplitAt(s, i)
  }

  lemma SplitBehind(s: string)
    requires s != []
    ensures NoneSplit(s) <==> NoneSplit(s[1..]) && !SplitAt(s, 0)
  {
    forall i: nat ensures SplitAt(s[1..], i) <==> SplitAt(s, i + 1) {
    }
    if i: nat :| SplitAt(s, i) {
      assert i == 0 || SplitAt(s[1..], i - 1);
    }
    if i: nat :| SplitAt(s[1..], i) {
      assert SplitAt(s, i + 1);
    }
  }

  lemma {:induction false} SplitsCount(s: string)
    ensures Splits(s) == 0 <==> NoneSplit(s)
  {
    if s != [] {
      SplitsCount(s[1..]);
      SplitBehind(s);
    }
  }

  lemma TrimHead(head: string, x: string, y: string)
    requires TrimDash(x) == TrimDash(y) && (x == [] <==> y == [])
    ensures TrimDash(head + x) == TrimDash(head + y)
  {
    if x != [] {
      TrimAfterPrefix(head, x);
      TrimAfterPrefix(head, y);
    }
  }

  ghost predicate SameStream(s: string, d: bool) {
    var x, y := Stream(PyLower(s), d), Stream(Lower(s), d);
    TrimDash(x) == TrimDash(y) && (x == [] <==> y == [])
  }

  lemma DottedStream(s: string, d: bool)
    requires s != [] && s[0] == DOTTED_I
    ensures Stream(PyLower(s), d) == "i-" + Stream(PyLower(s[1..]), true)
    ensures Stream(Lower(s), d) == "i" + Stream(Lower(s[1..]), false)
  {
    var t := PyLower(s);
    assert t == ['i', '\U{307}'] + PyLower(s[1..]);
    assert t[1..] == ['\U{307}'] + PyLower(s[1..]) && t[1..][1..] == PyLower(s[1..]);
    assert Stream(t, d) == ['i'] + Stream(t[1..], false);
    assert Stream(t[1..], false) == ['-'] + Stream(PyLower(s[1..]), true);
    LowerTail(s);
    assert Lower(s)[1..] == Lower(s[1..]);
  }

  lemma PlainStream(s: string, d: bool)
    requires s != [] && s[0] != DOTTED_I
    ensures
      var word := IsAlnum(LowerChar(s[0]));
      var head: string := if word then [LowerChar(s[0])] else if d then [] else ['-'];
      && Stream(PyLower(s), d) == head + Stream(PyLower(s[1..]), !word)
      && Stream(Lower(s), d) == head + Stream(Lower(s[1..]), !word)
  {
    assert PyLower(s)[1..] == PyLower(s[1..]);
    LowerTail(s);
    assert Lower(s)[1..] == Lower(s[1..]);
  }

  lemma {:induction false} UnsplitStreams(s: string, d: bool)
    requires NoneSplit(s)
    ensures SameStream(s, d)
    decreases |s|
  {
    if s != [] {
      var rest := s[1..];
      SplitBehind(s);
      if s[0] != DOTTED_I {
        PlainStream(s, d);
        var word := IsAlnum(LowerChar(s[0]));
        UnsplitStreams(rest, !word);
        TrimHead(if word then [LowerChar(s[0])] else if d then [] else ['-'],
                 Stream(PyLower(rest), !word), Stream(Lower(rest), !word));
      } else {
        if rest != [] {
          SplitBehind(rest);
          UnsplitStreams(rest[1..], true);
        }
        UnsplitDot(s, d);
      }
    }
  }

  lemma UnsplitDot(s: string, d: bool)
    requires s != [] && s[0] == DOTTED_I && !SplitAt(s, 0)
    requires |s| > 1 ==> SameStream(s[1..][1..], true)
    ensures SameStream(s, d)
  {
    var rest := s[1..];
    DottedStream(s, d);
    if rest == [] {
      assert TrimDash("i-") == "i" == TrimDash("i");
    } else {
      DotThenSeparator(rest);
      var x, y := Stream(PyLower(rest[1..]), true), Stream(Lower(rest[1..]), true);
      assert "i" + (['-'] + y) == "i-" + y;
      TrimHead("i-", x, y);
    }
  }

  lemma DotThenSeparator(s: string)
    requires s != [] && !IsAlnum(LowerChar(s[0]))
    ensures Stream(PyLower(s), true) == Stream(PyLower(s[1..]), true)
    ensures Stream(Lower(s), false) == ['-'] + Stream(Lower(s[1..]), true)
  {
    PlainStream(s, true);
    PlainStream(s, false);
  }

  /** How many words begin; `d` is whether a separator stands before the text. */
  function Starts(s: string, d: bool): nat {
    if s == [] then 0 else (if d && IsAlnum(s[0]) then 1 else 0) + Starts(s[1..], !IsAlnum(s[0]))
  }

  lemma {:induction false} StartsSkip(s: string)
    ensures Starts(s, true) == Starts(DropSeparators(s), true)
  {
    if s != [] && !IsAlnum(s[0]) { StartsSkip(s[1..]); }
  }

  lemma {:induction false} StartsBehindWord(s: string)
    ensures Starts(s, false) == Starts(s[|TakeWord(s)|..], true)
  {
    if s != [] && IsAlnum(s[0]) {
      StartsBehindWord(s[1..]);
      assert s[|TakeWord(s)|..] == s[1..][|TakeWord(s[1..])|..];
    }
  }

  lemma {:induction false} StartsAreWords(s: string)
    ensures |Words(s)| == Starts(s, true)
    decreases |s|
  {
    StartsSkip(s);
    var t := DropSeparators(s);
    if t != [] {
      StartsBehindWord(t[1..]);
      assert t[|TakeWord(t)|..] == t[1..][|TakeWord(t[1..])|..];
      StartsAreWords(t[|TakeWord(t)|..]);
    }
  }

  lemma {:induction false} SplitsMakeWords(s: string, d: bool)
    ensures Starts(PyLower(s), d) == Starts(Lower(s), d) + Splits(s)
  {
    if s != [] {
      var rest := s[1..];
      LowerTail(s);
      assert Lower(s)[1..] == Lower(rest);
      if s[0] != DOTTED_I {
        assert PyLower(s)[1..] == PyLower(rest);
        SplitsMakeWords(rest, !IsAlnum(LowerChar(s[0])));
      } else {
        SplitsMakeWords(rest, false);
        DottedStarts(s, d);
      }
    }
  }

  lemma DottedStarts(s: string, d: bool)
    requires s != [] && s[0] == DOTTED_I
    ensures Starts(PyLower(s), d) ==
            (if d then 1 else 0) + (if StartsWord(s[1..]) then 1 else 0) + Starts(PyLower(s[1..]), false)
  {
    var t, rest := PyLower(s), PyLower(s[1..]);
    assert t == ['i', '\U{307}'] + rest;
    assert t[1..] == ['\U{307}'] + rest && t[1..][1..] == rest;
    assert Starts(t, d) == (if d then 1 else 0) + Starts(t[1..], false);
    assert Starts(t[1..], false) == Starts(rest, true);
    if s[1..] != [] {
      assert rest[0] == LowerChar(s[1..][0]);
    }
  }

  lemma {:induction false} LettersMakeWords(s: string, i: nat)
    requires i < |s| && IsAlnum(s[i])
    ensures Words(s) != []
  {
    if i > 0 && !IsAlnum(s[0]) {
      LettersMakeWords(s[1..], i - 1);
    }
  }

  /** `None`, a refusal, stands against the streaming form's "photos". */
  function OrPhotos(slug: Option<string>): string {
    match slug case Some(s) => s case None => "photos"
  }

  lemma SimpleSlugByWords(name: string)
    ensures SimpleSlug(name) ==
            if Words(PyLower(name)) == [] then None else Some(Join(Words(PyLower(name))))
  {
    var left := StripLeft(name, IsSpace);
    WordsIgnoreLeft(name);
    WordsIgnoreRight(left);
    CollapseStripped(PyLower(StripRight(left, IsSpace)));
    WordsJoinToSomething(PyLower(name));
  }

  lemma UnsplitAgree(name: string)
    requires NoneSplit(name)
    ensures OrPhotos(SimpleSlug(name)) == SlugOf(name)
  {
    SimpleSlugByWords(name);
    UnsplitStreams(name, true);
    StreamJoinsWords(PyLower(name));
    StreamJoinsWords(Lower(name));
  }

  lemma SplitDiffer(name: string)
    requires !NoneSplit(name)
    ensures OrPhotos(SimpleSlug(name)) != SlugOf(name)
  {
    SimpleSlugByWords(name);
    SplitsCount(name);
    SplitsMakeWords(name, true);
    StartsAreWords(PyLower(name));
    StartsAreWords(Lower(name));
    var i: nat :| SplitAt(name, i);
    LettersMakeWords(Lower(name), i);
    WordsAreWords(PyLower(name));
    WordsAreWords(Lower(name));
    JoinOfWordsReads(Words(PyLower(name)));
    JoinOfWordsReads(Words(Lower(name)));
  }

  /**
   * The two slugifiers agree, but for what a name without usable characters becomes, exactly if
   * no dotted I stands right before a letter or a digit: there Python leaves a combining dot,
   * which its slug turns into a dash.
   */
  lemma StreamingRefinesSimple(name: string)
    ensures SlugOf(name) == OrPhotos(SimpleSlug(name)) <==> NoneSplit(name)
  {
    if NoneSplit(name) {
      UnsplitAgree(name);
    } else {
      SplitDiffer(name);
    }
  }

  // ---------- The shape of a slug ----------

  /** The first word is read back, and then the rest. */
  lemma WordIsReadFirst(w: string, rest: string)
    requires IsWord(w) && (rest == [] || !IsAlnum(rest[0]))
    ensures Words(w + rest) == [w] + Words(rest)
  {
    WordThenRest(w, rest);
    assert w[0] in w;
    assert DropSeparators(w + rest) == w + rest;
    assert (w + rest)[|w|..] == rest;
  }

  lemma DashIsSkipped(s: string)
    ensures Words("-" + s) == Words(s)
  {
    assert ("-" + s)[1..] == s;
    assert DropSeparators("-" + s) == DropSeparators(s);
  }

  lemma {:induction false} JoinOfWordsReads(words: seq<string>)
    requires forall w | w in words :: IsWord(w)
    ensures Words(Join(words)) == words
  {
    if |words| == 1 {
      assert words == [words[0]] && words[0] in words;
      WordIsReadFirst(words[0], []);
      assert words[0] + [] == words[0];
    } else if words != [] {
      var rest := Join(words[1..]);
      assert words[0] in words;
      JoinOfWordsReads(words[1..]);
      DashIsSkipped(rest);
      WordIsReadFirst(words[0], "-" + rest);
      assert words[0] + "-" + rest == words[0] + ("-" + rest);
      assert words == [words[0]] + words[1..];
    }
  }

  lemma {:induction false} WordThenRest(w: string, rest: string)
    requires forall c | c in w :: IsAlnum(c)
    requires rest == [] || !IsAlnum(rest[0])
    ensures TakeWord(w + rest) == w
  {
    if w == [] {
      assert w + rest == rest;
    } else {
      assert w[0] in w;
      assert (w + rest)[1..] == w[1..] + rest;
      WordThenRest(w[1..], rest);
    }
  }

  lemma {:induction false} JoinOfWordsIsLowered(words: seq<string>)
    requires forall w | w in words :: IsWord(w)
    ensures Lower(Join(words)) == Join(words)
  {
    if words != [] {
      assert words[0] in words;
      if |words| == 1 {
        LowerKeepsWord(words[0]);
      } else {
        JoinOfWordsIsLowered(words[1..]);
        LowerKeepsWord(words[0]);
        LowerSplits(words[0], "-" + Join(words[1..]));
        LowerSplits("-", Join(words[1..]));
        assert words[0] + "-" + Join(words[1..]) == words[0] + ("-" + Join(words[1..]));
        assert Lower("-") == "-";
      }
    }
  }

  lemma LowerKeepsWord(w: string)
    requires IsWord(w)
    ensures Lower(w) == w
  {
    forall i | 0 <= i < |w| ensures Lower(w)[i] == w[i] {
      assert w[i] in w;
    }
  }

  lemma LowerSplits(a: string, b: string)
    ensures Lower(a + b) == Lower(a) + Lower(b)
  {
  }

  /** A slug is one or more words joined by single dashes: reading its words back and joining them gives it again. */
  lemma SlugShape(name: string)
    ensures
      var words := Words(SlugOf(name));
      && words != [] && (forall w | w in words :: IsWord(w))
      && SlugOf(name) == Join(words) && Lower(SlugOf(name)) == SlugOf(name)
  {
    var words := Words(Lower(name));
    if words == [] {
      assert Join(["photos"]) == "photos";
      JoinOfWordsReads(["photos"]);
      JoinOfWordsIsLowered(["photos"]);
    } else {
      WordsAreWords(Lower(name));
      JoinOfWordsReads(words);
      JoinOfWordsIsLowered(words);
    }
  }

  /** Slugifying a slug changes nothing. */
  lemma SlugIsIdempotent(name: string)
    ensures SlugOf(SlugOf(name)) == SlugOf(name)
  {
    SlugShape(name);
  }
}
