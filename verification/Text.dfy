/**
  Python string primitives used by the text pipeline: whitespace, stripping,
  searching, joining and splitting.  Every function follows the behaviour of
  the Python `str` method it is named after.
*/
module Text {

  // The characters for which Python's `str.isspace` holds; `str.strip` and its
  // one-sided variants remove exactly these.
  predicate IsSpace(c: char) {
    var n := c as int;
    || 9 <= n <= 13
    || 28 <= n <= 32
    || n == 0x85 || n == 0xA0 || n == 0x1680
    || 0x2000 <= n <= 0x200A
    || n == 0x2028 || n == 0x2029 || n == 0x202F || n == 0x205F || n == 0x3000
  }

  predicate AllSpace(s: string) {
    forall i | 0 <= i < |s| :: IsSpace(s[i])
  }

  // Trimmed at both ends and not empty: what `strip` leaves of visible text.
  predicate Trimmed(s: string) {
    s != "" && !IsSpace(s[0]) && !IsSpace(s[|s| - 1])
  }

  // The visible (non-whitespace) characters of a text, in order.
  function Ink(s: string): string {
    if s == "" then ""
    else if IsSpace(s[0]) then Ink(s[1..])
    else [s[0]] + Ink(s[1..])
  }

  // The first position from `i` on that is not whitespace.
  function SkipSpace(s: string, i: nat): (k: nat)
    requires i <= |s|
    ensures i <= k <= |s|
    ensures forall j | i <= j < k :: IsSpace(s[j])
    ensures k < |s| ==> !IsSpace(s[k])
    decreases |s| - i
  {
    if i < |s| && IsSpace(s[i]) then SkipSpace(s, i + 1) else i
  }

  // The end of the visible text below `i`.
  function DropSpace(s: string, i: nat): (k: nat)
    requires i <= |s|
    ensures k <= i
    ensures forall j | k <= j < i :: IsSpace(s[j])
    ensures k > 0 ==> !IsSpace(s[k - 1])
  {
    if i > 0 && IsSpace(s[i - 1]) then DropSpace(s, i - 1) else i
  }

  function LStrip(s: string): string {
    s[SkipSpace(s, 0)..]
  }

  function RStrip(s: string): string {
    s[..DropSpace(s, |s|)]
  }

  function Strip(s: string): string {
    RStrip(LStrip(s))
  }

  ghost predicate OccursAt(s: string, needle: string, i: int) {
    0 <= i && i + |needle| <= |s| && s[i..i + |needle|] == needle
  }

  /** `s.find(needle, start)`: the first occurrence at or after `start`, or -1. */
  function Find(s: string, needle: string, start: nat): (r: int)
    requires start <= |s| && needle != ""
    ensures r == -1 || (start <= r && r + |needle| <= |s|)
    decreases |s| - start
  {
    if start + |needle| > |s| then -1
    else if s[start..start + |needle|] == needle then start
    else Find(s, needle, start + 1)
  }

  lemma {:induction false} FindIsFirst(s: string, needle: string, start: nat)
    requires start <= |s| && needle != ""
    ensures var r := Find(s, needle, start);
            && (r != -1 ==> OccursAt(s, needle, r))
            && (forall i | start <= i && (r == -1 || i < r) :: !OccursAt(s, needle, i))
    decreases |s| - start
  {
    if start + |needle| <= |s| && s[start..start + |needle|] != needle {
      FindIsFirst(s, needle, start + 1);
    }
  }

  /** `s.rfind(needle, lo, hi)`: the last place where the whole needle fits below `hi`, or -1. */
  function RFind(s: string, needle: string, lo: nat, hi: nat): (r: int)
    requires lo <= hi <= |s| && needle != ""
    ensures r == -1 || (lo <= r && r + |needle| <= hi)
    decreases hi
  {
    if lo + |needle| > hi then -1
    else if s[hi - |needle|..hi] == needle then hi - |needle|
    else RFind(s, needle, lo, hi - 1)
  }

  lemma {:induction false} RFindIsLast(s: string, needle: string, lo: nat, hi: nat)
    requires lo <= hi <= |s| && needle != ""
    ensures var r := RFind(s, needle, lo, hi);
            && (r != -1 ==> OccursAt(s, needle, r))
            && (forall i | lo <= i && r < i && i + |needle| <= hi :: !OccursAt(s, needle, i))
    decreases hi
  {
    if lo + |needle| <= hi && s[hi - |needle|..hi] != needle {
      RFindIsLast(s, needle, lo, hi - 1);
    }
  }

  function Join(separator: string, parts: seq<string>): string {
    if parts == [] then ""
    else if |parts| == 1 then parts[0]
    else parts[0] + separator + Join(separator, parts[1..])
  }

  /** `s.replace(needle, replacement)`: leftmost, non-overlapping. */
  function Replace(s: string, needle: string, replacement: string): string
    requires needle != ""
    decreases |s|
  {
    if |s| < |needle| then s
    else if s[..|needle|] == needle then replacement + Replace(s[|needle|..], needle, replacement)
    else [s[0]] + Replace(s[1..], needle, replacement)
  }

  /** `s.split(separator)` for a one-character separator. */
  function Split(s: string, separator: char): (lines: seq<string>)
    ensures lines != []
    ensures forall i | 0 <= i < |lines| :: separator !in lines[i]
  {
    if s == "" then [""]
    else
      var rest := Split(s[1..], separator);
      if s[0] == separator then [""] + rest else [[s[0]] + rest[0]] + rest[1..]
  }

  // ---- Facts about stripping and visible characters ----

  lemma InkCons(c: char, s: string)
    ensures Ink([c] + s) == if IsSpace(c) then Ink(s) else [c] + Ink(s)
  {
    assert ([c] + s)[1..] == s;
  }

  lemma InkNothing()
    ensures Ink("") == ""
  {
  }

  lemma Associative<T>(a: seq<T>, b: seq<T>, c: seq<T>)
    ensures a + (b + c) == (a + b) + c
  {
  }

  lemma {:induction false} InkAppend(a: string, b: string)
    ensures Ink(a + b) == Ink(a) + Ink(b)
  {
    if a == "" {
      assert a + b == b;
    } else {
      hide Ink, IsSpace;
      var c, rest := a[0], a[1..];
      assert a == [c] + rest;
      Associative([c], rest, b);
      InkCons(c, rest);
      InkCons(c, rest + b);
      InkAppend(rest, b);
      Associative([c], Ink(rest), Ink(b));
    }
  }

  lemma {:induction false} InkOfSpace(s: string)
    ensures AllSpace(s) <==> Ink(s) == ""
  {
    if s != "" {
      InkOfSpace(s[1..]);
      assert AllSpace(s) <==> IsSpace(s[0]) && AllSpace(s[1..]) by {
        assert forall i | 1 <= i < |s| :: s[i] == s[1..][i - 1];
        if IsSpace(s[0]) && AllSpace(s[1..]) {
          forall i | 0 <= i < |s| ensures IsSpace(s[i]) {
            if i > 0 { assert s[i] == s[1..][i - 1]; }
          }
        }
        if AllSpace(s) {
          forall i | 0 <= i < |s| - 1 ensures IsSpace(s[1..][i]) { assert s[1..][i] == s[i + 1]; }
        }
      }
    }
  }

  lemma LStripInk(s: string)
    ensures Ink(LStrip(s)) == Ink(s)
  {
    var k := SkipSpace(s, 0);
    InkAppend(s[..k], s[k..]);
    InkOfSpace(s[..k]);
    assert s[..k] + s[k..] == s;
  }

  lemma RStripInk(s: string)
    ensures Ink(RStrip(s)) == Ink(s)
  {
    var k := DropSpace(s, |s|);
    InkAppend(s[..k], s[k..]);
    InkOfSpace(s[k..]);
    assert s[..k] + s[k..] == s;
  }

  // `strip` leaves nothing of blank text and a trimmed text otherwise.
  lemma StripTrims(s: string)
    ensures if AllSpace(s) then Strip(s) == "" else Trimmed(Strip(s))
    ensures Ink(Strip(s)) == Ink(s)
  {
    LStripInk(s);
    RStripInk(LStrip(s));
    var k := SkipSpace(s, 0);
    if !AllSpace(s) {
      var l := LStrip(s);
      assert l[0] == s[k];
    }
  }

  lemma SliceNotBlank(text: string, from: nat, to: nat, p: nat)
    requires from <= p < to <= |text| && !IsSpace(text[p])
    ensures !AllSpace(text[from..to])
  {
    hide IsSpace;
    assert text[from..to][p - from] == text[p];
  }

  lemma SkipSpaceIs(s: string, k: nat)
    requires k <= |s|
    requires forall j | 0 <= j < k :: IsSpace(s[j])
    requires k < |s| ==> !IsSpace(s[k])
    ensures SkipSpace(s, 0) == k
  {
  }

  lemma DropSpaceIs(s: string, k: nat)
    requires k <= |s|
    requires forall j | k <= j < |s| :: IsSpace(s[j])
    requires k > 0 ==> !IsSpace(s[k - 1])
    ensures DropSpace(s, |s|) == k
  {
  }

  // Leading whitespace in front of a text does not change what `lstrip` leaves.
  lemma LStripPrefix(blank: string, s: string)
    requires AllSpace(blank)
    ensures LStrip(blank + s) == LStrip(s)
  {
    var k := SkipSpace(s, 0);
    assert forall j | |blank| <= j < |blank| + |s| :: (blank + s)[j] == s[j - |blank|];
    SkipSpaceIs(blank + s, |blank| + k);
  }

  // `lstrip` looks only at the front: text after a visible character stays.
  lemma LStripAppend(a: string, b: string)
    requires !AllSpace(a)
    ensures LStrip(a + b) == LStrip(a) + b
    ensures LStrip(a) != "" && LStrip(a)[|LStrip(a)| - 1] == a[|a| - 1]
  {
    SkipSpaceIs(a + b, SkipSpace(a, 0));
  }

  lemma RStripVisibleEnd(s: string, blank: string)
    requires s == "" || !IsSpace(s[|s| - 1])
    requires AllSpace(blank)
    ensures RStrip(s + blank) == s
  {
    DropSpaceIs(s + blank, |s|);
  }

  // The visible characters of several texts, one after the other.
  function InkOfAll(parts: seq<string>): string {
    if parts == [] then "" else Ink(parts[0]) + InkOfAll(parts[1..])
  }

  lemma InkOfAllCons(first: string, rest: seq<string>)
    ensures InkOfAll([first] + rest) == Ink(first) + InkOfAll(rest)
  {
    assert ([first] + rest)[1..] == rest;
  }

  lemma {:induction false} InkOfAllAppend(a: seq<string>, b: seq<string>)
    ensures InkOfAll(a + b) == InkOfAll(a) + InkOfAll(b)
  {
    if a == [] {
      assert a + b == b;
    } else {
      hide InkOfAll, Ink;
      var first, rest := a[0], a[1..];
      assert a == [first] + rest;
      Associative([first], rest, b);
      InkOfAllCons(first, rest);
      InkOfAllCons(first, rest + b);
      InkOfAllAppend(rest, b);
      Associative(Ink(first), InkOfAll(rest), InkOfAll(b));
    }
  }

  lemma {:induction false} InkOfJoin(separator: string, parts: seq<string>)
    requires AllSpace(separator)
    ensures Ink(Join(separator, parts)) == InkOfAll(parts)
  {
    if |parts| > 1 {
      InkOfJoin(separator, parts[1..]);
      InkAppend(parts[0] + separator, Join(separator, parts[1..]));
      InkAppend(parts[0], separator);
      InkOfSpace(separator);
    } else if |parts| == 1 {
      assert InkOfAll(parts[1..]) == "";
    }
  }

  lemma JoinOne(separator: string, part: string)
    ensures Join(separator, [part]) == part
  {
  }

  lemma JoinCons(separator: string, first: string, rest: seq<string>)
    requires rest != []
    ensures Join(separator, [first] + rest) == first + (separator + Join(separator, rest))
  {
    assert ([first] + rest)[1..] == rest;
    var tail := Join(separator, rest);
    assert first + separator + tail == first + (separator + tail);
  }

  lemma {:induction false} JoinAppend(separator: string, a: seq<string>, b: seq<string>)
    requires a != [] && b != []
    ensures Join(separator, a + b) == Join(separator, a) + separator + Join(separator, b)
  {
    if |a| == 1 {
      assert (a + b)[1..] == b;
    } else {
      assert (a + b)[1..] == a[1..] + b;
      JoinAppend(separator, a[1..], b);
    }
  }

  lemma {:induction false} JoinOfSplit(s: string, separator: char)
    ensures Join([separator], Split(s, separator)) == s
  {
    if s != "" {
      var rest := Split(s[1..], separator);
      var lines := Split(s, separator);
      JoinOfSplit(s[1..], separator);
      if s[0] == separator {
        assert lines[1..] == rest;
      } else {
        assert lines[0][1..] == rest[0] && lines[1..] == rest[1..];
        assert rest == [lines[0][1..]] + lines[1..];
        JoinDropsChar(separator, lines, rest);
      }
    }
  }

  lemma {:induction false} SplitOfJoin(lines: seq<string>, separator: char)
    requires lines != []
    requires forall i | 0 <= i < |lines| :: separator !in lines[i]
    ensures Split(Join([separator], lines), separator) == lines
    decreases |lines|, |lines[0]|
  {
    var text := Join([separator], lines);
    if lines[0] == "" {
      if |lines| > 1 {
        SplitOfJoin(lines[1..], separator);
        assert text[1..] == Join([separator], lines[1..]);
      }
    } else {
      var shorter := [lines[0][1..]] + lines[1..];
      JoinDropsChar(separator, lines, shorter);
      SplitOfJoin(shorter, separator);
      assert text[0] == lines[0][0] != separator;
      assert text[1..] == Join([separator], shorter);
      assert lines[0] == [lines[0][0]] + shorter[0];
      assert lines == [lines[0]] + shorter[1..];
    }
  }

  lemma JoinDropsChar(separator: char, lines: seq<string>, shorter: seq<string>)
    requires lines != [] && lines[0] != "" && shorter == [lines[0][1..]] + lines[1..]
    ensures Join([separator], lines) == [lines[0][0]] + Join([separator], shorter)
  {
    assert lines[0] == [lines[0][0]] + shorter[0];
    assert shorter[1..] == lines[1..];
  }
}
