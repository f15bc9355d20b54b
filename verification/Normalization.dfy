/**
  `normalize_text`: uniform line endings, no trailing whitespace on a line, at most one
  blank line between paragraphs, nothing around the text.
*/
module Normalization {
  import opened Text

  const PARAGRAPH: string := "\n\n"

  function Lines(raw: string): (lines: seq<string>)
    ensures lines != []
  {
    Split(Replace(Replace(raw, "\r\n", "\n"), "\r", "\n"), '\n')
  }

  // What one more input line does to the lines kept so far.
  function Push(kept: seq<string>, line: string): seq<string> {
    var cleaned := RStrip(line);
    if cleaned != "" then kept + [cleaned]
    else if kept == [] || kept[|kept| - 1] == "" then kept
    else kept + [""]
  }

  function Collapse(kept: seq<string>, lines: seq<string>): seq<string>
    decreases |lines|
  {
    if lines == [] then kept else Collapse(Push(kept, lines[0]), lines[1..])
  }

  function Normalized(raw: string): string {
    Strip(Join("\n", Collapse([], Lines(raw))))
  }

  /** The line loop with its `previous_blank` flag. */
  method NormalizeText(raw: string) returns (text: string)
    ensures text == Normalized(raw)
  {
    var lines := Lines(raw);
    var normalizedLines: seq<string> := [];
    var previousBlank := false;
    ghost var all := Collapse([], lines);
    assert lines[0..] == lines;
    for i := 0 to |lines|
      invariant Collapse(normalizedLines, lines[i..]) == all
      invariant normalizedLines != [] ==> (previousBlank <==> normalizedLines[|normalizedLines| - 1] == "")
    {
      ghost var before := normalizedLines;
      var cleaned := RStrip(lines[i]);
      var isBlank := Strip(cleaned) == "";
      RStripBlank(lines[i]);
      if isBlank {
        if normalizedLines != [] && !previousBlank {
          normalizedLines := normalizedLines + [""];
        }
      } else {
        normalizedLines := normalizedLines + [cleaned];
      }
      previousBlank := isBlank;
      assert normalizedLines == Push(before, lines[i]);
      assert lines[i..][0] == lines[i] && lines[i..][1..] == lines[i + 1..];
    }
    assert lines[|lines|..] == [];
    text := Strip(Join("\n", normalizedLines));
  }

  lemma RStripBlank(line: string)
    ensures Strip(RStrip(line)) == "" <==> RStrip(line) == ""
  {
    StripTrims(RStrip(line));
  }

  // ---- Lines of a raw text, read from the front ----

  lemma LinesUnfold(s: string)
    ensures s == "" ==> Lines(s) == [""]
    ensures |s| >= 2 && s[0] == '\r' && s[1] == '\n' ==> Lines(s) == [""] + Lines(s[2..])
    ensures s != "" && s[0] == '\r' && (|s| == 1 || s[1] != '\n') ==> Lines(s) == [""] + Lines(s[1..])
    ensures s != "" && s[0] == '\n' ==> Lines(s) == [""] + Lines(s[1..])
    ensures s != "" && s[0] != '\n' && s[0] != '\r' ==>
              Lines(s) == [[s[0]] + Lines(s[1..])[0]] + Lines(s[1..])[1..]
  {
    var once := Replace(s, "\r\n", "\n");
    if |s| >= 2 && s[0] == '\r' && s[1] == '\n' {
      assert s[..2] == "\r\n";
      var rest := Replace(s[2..], "\r\n", "\n");
      assert once == "\n" + rest && once[1..] == rest;
      assert Replace(once, "\r", "\n") == ['\n'] + Replace(rest, "\r", "\n");
      assert (['\n'] + Replace(rest, "\r", "\n"))[1..] == Replace(rest, "\r", "\n");
    } else if s != "" {
      var rest := Replace(s[1..], "\r\n", "\n");
      assert once == [s[0]] + rest && once[1..] == rest by {
        if |s| == 1 { assert rest == ""; assert s == [s[0]]; }
      }
      var c := if s[0] == '\r' then '\n' else s[0];
      assert once[..1] == [s[0]];
      assert Replace(once, "\r", "\n") == [c] + Replace(rest, "\r", "\n");
      assert ([c] + Replace(rest, "\r", "\n"))[1..] == Replace(rest, "\r", "\n");
    }
  }

  lemma InkOfLongerFirst(c: char, lines: seq<string>)
    requires lines != []
    ensures InkOfAll([[c] + lines[0]] + lines[1..]) == if IsSpace(c) then InkOfAll(lines) else [c] + InkOfAll(lines)
  {
    hide IsSpace, Ink, InkOfAll;
    InkCons(c, lines[0]);
    InkOfAllCons([c] + lines[0], lines[1..]);
    InkOfAllCons(lines[0], lines[1..]);
    assert lines == [lines[0]] + lines[1..];
    Associative([c], Ink(lines[0]), InkOfAll(lines[1..]));
  }

  lemma {:induction false} InkOfLines(raw: string)
    ensures InkOfAll(Lines(raw)) == Ink(raw)
    decreases |raw|
  {
    LinesUnfold(raw);
    assert IsSpace('\r') && IsSpace('\n') && Ink("") == "" == InkOfAll([""]);
    hide Lines, IsSpace, Ink, InkOfAll;
    if raw != "" {
      var c := raw[0];
      var k := if |raw| >= 2 && c == '\r' && raw[1] == '\n' then 2 else 1;
      var rest := Lines(raw[k..]);
      InkOfLines(raw[k..]);
      InkCons(c, raw[1..]);
      assert raw == [c] + raw[1..];
      if k == 2 {
        InkCons('\n', raw[2..]);
        assert raw[1..] == ['\n'] + raw[2..];
      }
      if c == '\r' || c == '\n' {
        InkOfAllCons("", rest);
        assert "" + InkOfAll(rest) == InkOfAll(rest);
      } else {
        InkOfLongerFirst(c, rest);
      }
    }
  }

  // ---- Collapsing lines ----

  ghost predicate CleanLine(line: string) {
    '\n' !in line && '\r' !in line && (line != "" ==> !IsSpace(line[|line| - 1]))
  }

  // Lines as the loop leaves them.
  ghost predicate TidyLines(lines: seq<string>) {
    && (forall i | 0 <= i < |lines| :: CleanLine(lines[i]))
    && (lines != [] ==> lines[0] != "")
    && (forall i | 0 < i < |lines| && lines[i] == "" :: lines[i - 1] != "")
  }

  // A final blank line is removed again when the whole text is stripped.
  function Body(kept: seq<string>): seq<string> {
    if kept != [] && kept[|kept| - 1] == "" then kept[..|kept| - 1] else kept
  }

  // The normalised text before the whitespace in front of its first line is removed.
  function Tidy(raw: string): string {
    Join("\n", Body(Collapse([], Lines(raw))))
  }

  lemma {:induction false} CollapseAppend(kept: seq<string>, a: seq<string>, b: seq<string>)
    ensures Collapse(kept, a + b) == Collapse(Collapse(kept, a), b)
    decreases |a|
  {
    if a == [] {
      assert a + b == b;
    } else {
      assert (a + b)[1..] == a[1..] + b;
      CollapseAppend(Push(kept, a[0]), a[1..], b);
    }
  }

  // After a blank line the loop behaves as on a fresh text.
  lemma {:induction false} CollapseRestarts(kept: seq<string>, inner: seq<string>, lines: seq<string>)
    requires inner == [] ==> kept == [] || kept[|kept| - 1] == ""
    ensures Collapse(kept + inner, lines) == kept + Collapse(inner, lines)
    decreases |lines|
  {
    if lines != [] {
      var next := Push(inner, lines[0]);
      assert Push(kept + inner, lines[0]) == kept + next by {
        if inner == [] { assert kept + inner == kept; }
        assert RStrip(lines[0]) != "" ==> kept + inner + [RStrip(lines[0])] == kept + next;
      }
      CollapseRestarts(kept, next, lines[1..]);
    }
  }

  lemma RStripCleanLine(line: string)
    requires '\n' !in line && '\r' !in line
    ensures CleanLine(RStrip(line))
  {
    assert forall c | c in RStrip(line) :: c in line;
  }

  lemma {:induction false} CollapseIsTidy(kept: seq<string>, lines: seq<string>)
    requires TidyLines(kept)
    requires forall i | 0 <= i < |lines| :: '\n' !in lines[i] && '\r' !in lines[i]
    ensures TidyLines(Collapse(kept, lines))
    decreases |lines|
  {
    if lines != [] {
      RStripCleanLine(lines[0]);
      CollapseIsTidy(Push(kept, lines[0]), lines[1..]);
    }
  }

  lemma {:induction false} CollapseInk(kept: seq<string>, lines: seq<string>)
    ensures InkOfAll(Collapse(kept, lines)) == InkOfAll(kept) + InkOfAll(lines)
    decreases |lines|
  {
    if lines != [] {
      var next := Push(kept, lines[0]);
      RStripInk(lines[0]);
      InkOfAllAppend(kept, [RStrip(lines[0])]);
      assert InkOfAll([RStrip(lines[0])]) == Ink(lines[0]) by { assert [RStrip(lines[0])][1..] == []; }
      assert InkOfAll(next) == InkOfAll(kept) + Ink(lines[0]);
      CollapseInk(next, lines[1..]);
    }
  }

  lemma {:induction false} TidyIsKept(done: seq<string>, todo: seq<string>)
    requires TidyLines(done + todo)
    ensures Collapse(done, todo) == done + todo
    decreases |todo|
  {
    if todo == [] {
      assert done + todo == done;
    } else {
      var line := todo[0];
      assert (done + todo)[|done|] == line;
      assert RStrip(line) == line;
      if line == "" { assert (done + todo)[|done| - 1] == done[|done| - 1]; }
      assert done + [line] + todo[1..] == done + todo;
      TidyIsKept(done + [line], todo[1..]);
    }
  }

  lemma {:induction false} NoReturnKept(s: string)
    requires '\r' !in s
    ensures Replace(s, "\r\n", "\n") == s && Replace(s, "\r", "\n") == s
  {
    if s != "" {
      NoReturnKept(s[1..]);
      assert s == [s[0]] + s[1..];
      assert |s| >= 2 ==> s[..2] != "\r\n" by { if |s| >= 2 { assert s[..2][0] == s[0]; } }
      assert s[..1][0] == s[0];
    }
  }

  lemma {:induction false} NoReturnAfterReplace(s: string)
    ensures '\r' !in Replace(s, "\r", "\n")
  {
    if s != "" {
      NoReturnAfterReplace(s[1..]);
      assert s[..1] == [s[0]];
    }
  }

  lemma {:induction false} SplitWithin(s: string, separator: char, c: char)
    requires c !in s
    ensures forall i | 0 <= i < |Split(s, separator)| :: c !in Split(s, separator)[i]
  {
    if s != "" {
      SplitWithin(s[1..], separator, c);
    }
  }

  lemma LinesAreTidied(raw: string)
    ensures TidyLines(Collapse([], Lines(raw)))
  {
    var once := Replace(raw, "\r\n", "\n");
    NoReturnAfterReplace(once);
    SplitWithin(Replace(once, "\r", "\n"), '\n', '\r');
    CollapseIsTidy([], Lines(raw));
  }

  // ---- From lines to the text ----

  lemma {:induction false} JoinEnds(lines: seq<string>)
    requires lines != [] && lines[|lines| - 1] != ""
    ensures var text := Join("\n", lines); var last := lines[|lines| - 1];
            text != "" && text[|text| - 1] == last[|last| - 1]
  {
    if |lines| > 1 {
      JoinEnds(lines[1..]);
    }
  }

  lemma {:induction false} JoinStarts(lines: seq<string>)
    requires lines != [] && lines[0] != ""
    ensures Join("\n", lines) != "" && Join("\n", lines)[..|lines[0]|] == lines[0]
  {
  }

  lemma StripWithEnd(text: string)
    requires text != "" && !IsSpace(text[|text| - 1])
    ensures Strip(text) == LStrip(text) == Strip(text + "\n")
  {
    var front := LStrip(text);
    LStripAppend(text, "\n");
    RStripVisibleEnd(front, "");
    RStripVisibleEnd(front, "\n");
    assert front + "" == front;
  }

  lemma BodyEnds(kept: seq<string>)
    requires TidyLines(kept)
    ensures var text := Join("\n", Body(kept));
            && (text == "" <==> kept == [])
            && (text != "" ==> !IsSpace(text[|text| - 1]))
  {
    if kept != [] {
      var body := Body(kept);
      assert body != [] && body[|body| - 1] != "" && CleanLine(body[|body| - 1]);
      JoinEnds(body);
    }
  }

  lemma JoinOfBody(kept: seq<string>)
    requires Body(kept) != kept && |kept| > 1
    ensures Join("\n", kept) == Join("\n", Body(kept)) + "\n"
  {
    hide Join;
    var text := Join("\n", Body(kept));
    assert kept == Body(kept) + [""];
    JoinAppend("\n", Body(kept), [""]);
    JoinOne("\n", "");
    assert text + "\n" + "" == text + "\n";
  }

  lemma StripOfJoin(kept: seq<string>)
    requires TidyLines(kept)
    ensures Strip(Join("\n", kept)) == LStrip(Join("\n", Body(kept)))
  {
    if kept != [] {
      BodyEnds(kept);
      StripWithEnd(Join("\n", Body(kept)));
      if kept != Body(kept) {
        JoinOfBody(kept);
      }
    }
  }

  // The normalised text is the tidied one without the whitespace in front.
  lemma StripOnlyInFront(raw: string)
    ensures Normalized(raw) == LStrip(Tidy(raw))
    ensures Tidy(raw) == "" || !IsSpace(Tidy(raw)[|Tidy(raw)| - 1])
    ensures Tidy(raw) == "" <==> Collapse([], Lines(raw)) == []
  {
    LinesAreTidied(raw);
    BodyEnds(Collapse([], Lines(raw)));
    StripOfJoin(Collapse([], Lines(raw)));
  }

  lemma InkOfBody(kept: seq<string>)
    ensures Ink(Join("\n", Body(kept))) == InkOfAll(kept)
  {
    var body := Body(kept);
    InkOfJoin("\n", body);
    if kept != body {
      assert kept == body + [""];
      InkOfAllAppend(body, [""]);
      assert InkOfAll([""]) == "";
    }
  }

  lemma TidyInk(raw: string)
    ensures Ink(Tidy(raw)) == Ink(raw)
    ensures Tidy(raw) == "" <==> AllSpace(raw)
  {
    CollapseInk([], Lines(raw));
    InkOfLines(raw);
    InkOfBody(Collapse([], Lines(raw)));
    InkOfSpace(raw);
    InkOfSpace(Tidy(raw));
    StripOnlyInFront(raw);
  }

  /** No visible character is lost, added or moved. */
  lemma NormalizationKeepsInk(raw: string)
    ensures Ink(Normalized(raw)) == Ink(raw)
  {
    StripOnlyInFront(raw);
    TidyInk(raw);
    LStripInk(Tidy(raw));
  }

  // ---- Idempotence ----

  // Removing the whitespace in front of the text only touches its first line.
  function TrimFirst(lines: seq<string>): seq<string> {
    if lines == [] then [] else [LStrip(lines[0])] + lines[1..]
  }

  lemma LStripCleanLine(line: string)
    requires CleanLine(line) && line != ""
    ensures CleanLine(LStrip(line)) && LStrip(line) != "" && !IsSpace(LStrip(line)[0])
  {
    assert !IsSpace(line[|line| - 1]);
    LStripAppend(line, "");
    assert forall c | c in LStrip(line) :: c in line;
  }

  lemma TrimFirstTidy(lines: seq<string>)
    requires TidyLines(lines)
    ensures TidyLines(TrimFirst(lines))
    ensures lines != [] ==> !IsSpace(TrimFirst(lines)[0][0])
  {
    if lines != [] {
      LStripCleanLine(lines[0]);
      assert forall i | 0 < i < |lines| :: TrimFirst(lines)[i] == lines[i];
    }
  }

  lemma TrimFirstJoin(lines: seq<string>)
    requires lines != [] ==> !AllSpace(lines[0])
    ensures LStrip(Join("\n", lines)) == Join("\n", TrimFirst(lines))
  {
    if |lines| > 1 {
      var first, rest := lines[0], lines[1..];
      assert lines == [first] + rest;
      JoinCons("\n", first, rest);
      JoinCons("\n", LStrip(first), rest);
      LStripAppend(first, "\n" + Join("\n", rest));
    }
  }

  lemma BodyIsTidy(kept: seq<string>)
    requires TidyLines(kept)
    ensures TidyLines(Body(kept)) && Body(Body(kept)) == Body(kept)
    ensures Body(kept) != [] ==> !AllSpace(Body(kept)[0])
  {
    var body := Body(kept);
    if body != [] {
      assert CleanLine(kept[0]) && !IsSpace(kept[0][|kept[0]| - 1]);
    }
  }

  lemma TrimFirstBody(lines: seq<string>)
    requires lines != [] ==> LStrip(lines[0]) != ""
    requires Body(lines) == lines
    ensures Body(TrimFirst(lines)) == TrimFirst(lines)
  {
  }

  // The lines of a normalised text.
  function FinalLines(raw: string): seq<string> {
    TrimFirst(Body(Collapse([], Lines(raw))))
  }

  lemma FinalLinesAreNormalized(raw: string)
    ensures Normalized(raw) == Join("\n", FinalLines(raw))
    ensures TidyLines(FinalLines(raw)) && Body(FinalLines(raw)) == FinalLines(raw)
    ensures FinalLines(raw) != [] ==> !IsSpace(FinalLines(raw)[0][0])
  {
    var kept := Collapse([], Lines(raw));
    LinesAreTidied(raw);
    StripOnlyInFront(raw);
    BodyIsTidy(kept);
    TrimFirstJoin(Body(kept));
    TrimFirstTidy(Body(kept));
    TrimFirstBody(Body(kept));
  }

  lemma TidyTextIsFixed(lines: seq<string>)
    requires TidyLines(lines) && Body(lines) == lines
    requires lines != [] ==> !IsSpace(lines[0][0])
    ensures Normalized(Join("\n", lines)) == Join("\n", lines)
  {
    var text := Join("\n", lines);
    if lines == [] {
      assert Lines("") == [""] by { LinesUnfold(""); }
      assert Collapse([], [""]) == [] by { assert [""][1..] == []; }
    } else {
      JoinHasNoReturn(lines);
      NoReturnKept(text);
      SplitOfJoin(lines, '\n');
      assert Lines(text) == lines;
      assert [] + lines == lines;
      TidyIsKept([], lines);
      StripOnlyInFront(text);
      JoinStarts(lines);
      assert text[0] == text[..|lines[0]|][0];
    }
  }

  lemma {:induction false} JoinHasNoReturn(lines: seq<string>)
    requires forall i | 0 <= i < |lines| :: '\r' !in lines[i]
    ensures '\r' !in Join("\n", lines)
  {
    if |lines| > 1 {
      JoinHasNoReturn(lines[1..]);
    }
  }

  /** Normalising twice is normalising once. */
  lemma NormalizationIsIdempotent(raw: string)
    ensures Normalized(Normalized(raw)) == Normalized(raw)
  {
    FinalLinesAreNormalized(raw);
    TidyTextIsFixed(FinalLines(raw));
  }

  // ---- Layout of a normalised text ----

  // No carriage return, no whitespace before a line end, no two blank lines in a row.
  ghost predicate CleanLayout(text: string) {
    && '\r' !in text
    && (forall i | 0 < i < |text| && text[i] == '\n' :: text[i - 1] == '\n' || !IsSpace(text[i - 1]))
    && (forall i | 0 <= i < |text| - 2 && text[i] == '\n' && text[i + 1] == '\n' :: text[i + 2] != '\n')
  }

  // The text of some lines, the line break after the first one, and the text of the others.
  lemma JoinByFirst(lines: seq<string>)
    requires |lines| > 1
    ensures var text, rest, n := Join("\n", lines), Join("\n", lines[1..]), |lines[0]|;
            && |text| == n + 1 + |rest| && text[n] == '\n'
            && (forall i | 0 <= i < n :: text[i] == lines[0][i])
            && (forall i | 0 <= i < |rest| :: text[n + 1 + i] == rest[i])
            && (forall i | n < i < |text| :: text[i] == rest[i - n - 1])
  {
  }

  // Putting a clean line in front of a clean text.
  lemma CleanLayoutCons(line: string, rest: string)
    requires CleanLine(line) && CleanLayout(rest)
    requires line == "" ==> rest == "" || rest[0] != '\n'
    requires |rest| > 1 && rest[0] == '\n' ==> rest[1] != '\n'
    ensures CleanLayout(line + "\n" + rest)
  {
    var text, n := line + "\n" + rest, |line|;
    forall i | 0 < i < |text| && text[i] == '\n' ensures text[i - 1] == '\n' || !IsSpace(text[i - 1]) {
      if i > n + 1 {
        assert text[i] == rest[i - n - 1] && text[i - 1] == rest[i - n - 2];
      }
    }
    forall i | 0 <= i < |text| - 2 && text[i] == '\n' && text[i + 1] == '\n' ensures text[i + 2] != '\n' {
      if i > n {
        assert rest[i - n - 1] == '\n' && rest[i - n] == '\n';
      } else {
        assert i == n && rest[0] == '\n';
      }
    }
  }

  lemma {:induction false} TidyLinesLayout(lines: seq<string>)
    requires forall i | 0 <= i < |lines| :: CleanLine(lines[i])
    requires forall i | 0 < i < |lines| && lines[i] == "" :: lines[i - 1] != ""
    ensures var text := Join("\n", lines);
            && CleanLayout(text)
            && (lines != [] && lines[0] != "" ==> text != "" && text[0] != '\n')
            && (|text| > 1 && text[0] == '\n' ==> text[1] != '\n')
  {
    if |lines| == 1 {
      assert lines[0] != "" ==> lines[0][0] in lines[0];
      assert |lines[0]| > 1 ==> lines[0][1] in lines[0];
    } else if |lines| > 1 {
      TidyLinesLayout(lines[1..]);
      var rest := Join("\n", lines[1..]);
      assert lines[0] == "" ==> lines[1..][0] != "";
      CleanLayoutCons(lines[0], rest);
      assert lines[0] != "" ==> lines[0][0] in lines[0];
    }
  }

  lemma JoinStartsVisibly(lines: seq<string>)
    requires TidyLines(lines) && Body(lines) == lines
    requires lines != [] ==> !IsSpace(lines[0][0])
    ensures Join("\n", lines) == "" || Trimmed(Join("\n", lines))
  {
    if lines != [] {
      JoinStarts(lines);
      JoinEnds(lines);
      assert Join("\n", lines)[0] == Join("\n", lines)[..|lines[0]|][0];
    }
  }

  /** What a normalised text looks like. */
  lemma NormalizedLayout(raw: string)
    ensures CleanLayout(Normalized(raw))
    ensures Normalized(raw) == "" || Trimmed(Normalized(raw))
    ensures Normalized(raw) == "" <==> AllSpace(raw)
  {
    FinalLinesAreNormalized(raw);
    TidyLinesLayout(FinalLines(raw));
    JoinStartsVisibly(FinalLines(raw));
    StripOnlyInFront(raw);
    NormalizationKeepsInk(raw);
    InkOfSpace(raw);
    InkOfSpace(Normalized(raw));
  }

  lemma CleanLayoutParts(lines: seq<string>)
    requires |lines| > 1 && '\n' !in lines[0]
    requires CleanLayout(Join("\n", lines))
    ensures CleanLine(lines[0]) && CleanLayout(Join("\n", lines[1..]))
  {
    assert lines == [lines[0]] + lines[1..];
    JoinCons("\n", lines[0], lines[1..]);
    CleanLayoutSuffix(lines[0] + "\n", Join("\n", lines[1..]));
    var text, rest, n := Join("\n", lines), Join("\n", lines[1..]), |lines[0]|;
    assert lines[0] + "\n" + rest == lines[0] + ("\n" + rest);
    assert text[n] == '\n';
    assert forall i | 0 <= i < n :: text[i] == lines[0][i];
  }

  lemma CleanLayoutSuffix(front: string, rest: string)
    requires CleanLayout(front + rest)
    ensures CleanLayout(rest)
  {
    hide IsSpace;
    var text, n := front + rest, |front|;
    forall c | c in rest ensures c in text {
    }
    forall i | 0 < i < |rest| && rest[i] == '\n' ensures rest[i - 1] == '\n' || !IsSpace(rest[i - 1]) {
      assert text[n + i] == rest[i] && text[n + i - 1] == rest[i - 1];
    }
    forall i | 0 <= i < |rest| - 2 && rest[i] == '\n' && rest[i + 1] == '\n' ensures rest[i + 2] != '\n' {
      assert text[n + i] == rest[i] && text[n + i + 1] == rest[i + 1] && text[n + i + 2] == rest[i + 2];
    }
  }

  lemma BlankFirstLine(lines: seq<string>)
    requires |lines| > 1
    ensures lines[0] == "" ==> Join("\n", lines) == "\n" + Join("\n", lines[1..])
  {
  }

  // Two blank lines in a row after some first line would be three line breaks in a row.
  lemma CleanLayoutSpacing(lines: seq<string>)
    requires |lines| > 3 && CleanLayout(Join("\n", lines))
    ensures lines[1] != "" || lines[2] != ""
  {
    var text, n := Join("\n", lines), |lines[0]|;
    var rest, tail := Join("\n", lines[1..]), Join("\n", lines[2..]);
    JoinByFirst(lines);
    BlankFirstLine(lines[1..]);
    BlankFirstLine(lines[2..]);
    assert lines[1..][1..] == lines[2..];
    if lines[1] == "" {
      assert rest == "\n" + tail && text[n + 1] == rest[0] == '\n';
      assert tail != "" ==> text[n + 2] == rest[1] == tail[0];
    }
  }

  lemma {:induction false} LinesOfCleanLayout(lines: seq<string>)
    requires lines != [] && CleanLine(lines[|lines| - 1]) && lines[|lines| - 1] != ""
    requires forall i | 0 <= i < |lines| :: '\n' !in lines[i]
    requires CleanLayout(Join("\n", lines))
    ensures forall i | 0 <= i < |lines| :: CleanLine(lines[i])
    ensures forall i | 1 < i < |lines| && lines[i] == "" :: lines[i - 1] != ""
  {
    if |lines| > 1 {
      CleanLayoutParts(lines);
      LinesOfCleanLayout(lines[1..]);
      if |lines| > 3 { CleanLayoutSpacing(lines); }
      assert forall i | 0 < i < |lines| :: lines[i] == lines[1..][i - 1];
    }
  }

  /** The normalised texts are exactly the clean, trimmed ones; these are the fixed points. */
  lemma NormalizedExactlyWhenClean(text: string)
    ensures Normalized(text) == text <==> CleanLayout(text) && (text == "" || Trimmed(text))
  {
    if Normalized(text) == text {
      NormalizedLayout(text);
    }
    if CleanLayout(text) && Trimmed(text) {
      var lines := Split(text, '\n');
      JoinOfSplit(text, '\n');
      SplitEnds(text);
      SplitWithin(text, '\n', '\r');
      LinesOfCleanLayout(lines);
      TidyTextIsFixed(lines);
    } else if text == "" {
      TidyTextIsFixed([]);
    }
  }

  // The first and last line of a trimmed text are not blank.
  lemma {:induction false} SplitEnds(text: string)
    requires text != "" && !IsSpace(text[|text| - 1])
    ensures var lines := Split(text, '\n');
            && lines[|lines| - 1] != ""
            && lines[|lines| - 1][|lines[|lines| - 1]| - 1] == text[|text| - 1]
            && (!IsSpace(text[0]) ==> lines[0] != "" && lines[0][0] == text[0])
  {
    if |text| > 1 {
      SplitEnds(text[1..]);
    } else {
      assert Split(text[1..], '\n') == [""];
    }
  }

  // ---- Distribution over a blank-line join ----

  // Where two texts meet: the blank line between them is one more line, except that a final
  // carriage return swallows the first of the two line feeds.
  ghost predicate Seam(a: seq<string>, b: seq<string>, whole: seq<string>) {
    || whole == a + [""] + b
    || (whole == a + b && |a| >= 2 && a[|a| - 1] == "")
  }

  lemma SeamAfterLine(a: seq<string>, b: seq<string>, whole: seq<string>)
    requires a != [] && Seam(a, b, whole)
    ensures Seam([""] + a, b, [""] + whole)
  {
    assert [""] + (a + [""] + b) == [""] + a + [""] + b;
    assert [""] + (a + b) == [""] + a + b;
  }

  lemma SeamAfterChar(c: char, a: seq<string>, b: seq<string>, whole: seq<string>)
    requires a != [] && Seam(a, b, whole)
    ensures whole != [] && Seam([[c] + a[0]] + a[1..], b, [[c] + whole[0]] + whole[1..])
  {
    var longer := [[c] + a[0]] + a[1..];
    if whole == a + [""] + b {
      assert whole[1..] == a[1..] + [""] + b;
      assert [[c] + whole[0]] + whole[1..] == longer + [""] + b;
    } else {
      assert whole[1..] == a[1..] + b;
      assert [[c] + whole[0]] + whole[1..] == longer + b;
    }
  }

  lemma LinesSeamAtEnd(a: string, b: string)
    requires a == "" || a == "\r"
    ensures Seam(Lines(a), Lines(b), Lines(a + PARAGRAPH + b))
  {
    LinesUnfold(a);
    LinesUnfold("");
    LinesUnfold("\n" + b);
    LinesUnfold(a + PARAGRAPH + b);
    hide Lines;
    assert ("\n" + b)[1..] == b;
    assert (a + PARAGRAPH + b)[|a| + 1..] == "\n" + b;
    assert [""] + ([""] + Lines(b)) == [""] + [""] + Lines(b);
    assert a == "\r" ==> a[1..] == "";
  }

  lemma {:induction false} LinesSeam(a: string, b: string)
    ensures Seam(Lines(a), Lines(b), Lines(a + PARAGRAPH + b))
    decreases |a|
  {
    hide Lines, Seam;
    if a == "" || a == "\r" {
      LinesSeamAtEnd(a, b);
    } else {
      var k := if a[0] == '\r' && a[1] == '\n' then 2 else 1;
      var whole := a + PARAGRAPH + b;
      LinesUnfold(a);
      LinesUnfold(whole);
      assert whole[k..] == a[k..] + PARAGRAPH + b;
      LinesSeam(a[k..], b);
      if a[0] == '\r' || a[0] == '\n' {
        SeamAfterLine(Lines(a[k..]), Lines(b), Lines(whole[k..]));
      } else {
        SeamAfterChar(a[0], Lines(a[k..]), Lines(b), Lines(whole[k..]));
      }
    }
  }

  lemma PushBlank(kept: seq<string>)
    ensures var gap := Push(kept, "");
      && (gap == [] || gap[|gap| - 1] == "")
      && Push(gap, "") == gap
      && Collapse(kept, [""]) == gap
  {
    assert [""][1..] == [];
  }

  lemma CollapseSeam(a: seq<string>, b: seq<string>, whole: seq<string>)
    requires Seam(a, b, whole)
    ensures Collapse([], whole) == Push(Collapse([], a), "") + Collapse([], b)
  {
    var gap := Push(Collapse([], a), "");
    PushBlank(Collapse([], a));
    hide Collapse, Push;
    CollapseRestarts(gap, [], b);
    assert gap + [] == gap;
    if whole == a + [""] + b {
      CollapseAppend([], a + [""], b);
      CollapseAppend([], a, [""]);
    } else {
      var front := a[..|a| - 1];
      assert a == front + [""];
      CollapseAppend([], a, b);
      CollapseAppend([], front, [""]);
      PushBlank(Collapse([], front));
    }
  }

  // A blank line between two runs of lines is a paragraph break in the text.
  lemma JoinParagraph(a: seq<string>, b: seq<string>)
    requires a != [] && b != []
    ensures Join("\n", a + ([""] + b)) == Join("\n", a) + PARAGRAPH + Join("\n", b)
  {
    hide Join;
    var left, right := Join("\n", a), Join("\n", b);
    JoinAppend("\n", a, [""] + b);
    JoinCons("\n", "", b);
    assert left + "\n" + ("" + ("\n" + right)) == left + PARAGRAPH + right;
  }

  lemma BodySeam(left: seq<string>, right: seq<string>)
    requires left != [] ==> left[0] != ""
    requires right != [] ==> right[0] != ""
    ensures var a, b := Join("\n", Body(left)), Join("\n", Body(right));
            Join("\n", Body(Push(left, "") + right)) ==
            if left == [] then b else if right == [] then a else a + PARAGRAPH + b
  {
    hide Join;
    var gap := Push(left, "");
    if left == [] {
      assert gap + right == right;
    } else {
      assert gap == Body(left) + [""];
      if right == [] {
        assert gap + right == gap;
      } else {
        assert Body(gap + right) == Body(left) + ([""] + Body(right));
        JoinParagraph(Body(left), Body(right));
      }
    }
  }

  lemma TidySeam(a: string, b: string)
    ensures Tidy(a + PARAGRAPH + b) ==
            if Tidy(a) == "" then Tidy(b)
            else if Tidy(b) == "" then Tidy(a)
            else Tidy(a) + PARAGRAPH + Tidy(b)
  {
    LinesSeam(a, b);
    CollapseSeam(Lines(a), Lines(b), Lines(a + PARAGRAPH + b));
    LinesAreTidied(a);
    LinesAreTidied(b);
    StripOnlyInFront(a);
    StripOnlyInFront(b);
    BodySeam(Collapse([], Lines(a)), Collapse([], Lines(b)));
  }

  // The tidied texts of the parts that are not blank.
  function TidyParts(parts: seq<string>): seq<string> {
    if parts == [] then []
    else if Tidy(parts[0]) == "" then TidyParts(parts[1..])
    else [Tidy(parts[0])] + TidyParts(parts[1..])
  }

  /** Tidying distributes over a blank-line join of arbitrary parts; blank parts vanish. */
  lemma {:induction false} TidyOfJoin(parts: seq<string>)
    ensures Tidy(Join(PARAGRAPH, parts)) == Join(PARAGRAPH, TidyParts(parts))
    ensures TidyParts(parts) != [] ==> Join(PARAGRAPH, TidyParts(parts)) != ""
  {
    if parts == [] {
      TidyInk("");
    } else if |parts| == 1 {
      assert TidyParts(parts[1..]) == [];
    } else {
      TidyOfJoin(parts[1..]);
      TidySeam(parts[0], Join(PARAGRAPH, parts[1..]));
      var rest := TidyParts(parts[1..]);
      if Tidy(parts[0]) != "" {
        assert TidyParts(parts)[1..] == rest;
      }
    }
  }

  lemma {:induction false} CollapseKeepsFirst(kept: seq<string>, lines: seq<string>)
    requires kept != []
    ensures Collapse(kept, lines) != [] && Collapse(kept, lines)[0] == kept[0]
    decreases |lines|
  {
    if lines != [] {
      CollapseKeepsFirst(Push(kept, lines[0]), lines[1..]);
    }
  }

  lemma RStripKeepsStart(s: string)
    requires s != "" && !IsSpace(s[0])
    ensures RStrip(s) != "" && RStrip(s)[0] == s[0]
  {
  }

  // A text that starts visibly has nothing to strip in front once tidied.
  lemma VisibleStartIsKept(raw: string)
    requires raw != "" && !IsSpace(raw[0])
    ensures Normalized(raw) == Tidy(raw) != ""
  {
    LinesUnfold(raw);
    var lines := Lines(raw);
    var kept := Collapse([], lines);
    RStripKeepsStart(lines[0]);
    CollapseKeepsFirst([RStrip(lines[0])], lines[1..]);
    assert [] + [RStrip(lines[0])] == [RStrip(lines[0])];
    assert kept[0][0] == raw[0];
    LinesAreTidied(raw);
    JoinStarts(Body(kept));
    assert Tidy(raw)[0] == Tidy(raw)[..|kept[0]|][0];
    StripOnlyInFront(raw);
  }

  function NormalizedParts(parts: seq<string>): seq<string> {
    if parts == [] then [] else [Normalized(parts[0])] + NormalizedParts(parts[1..])
  }

  /** For trimmed parts the join of the normalised parts is already normalised. */
  lemma {:induction false} NormalizationDistributes(parts: seq<string>)
    requires forall i | 0 <= i < |parts| :: Trimmed(parts[i])
    ensures Normalized(Join(PARAGRAPH, parts)) == Join(PARAGRAPH, NormalizedParts(parts))
  {
    TidyOfJoin(parts);
    TrimmedParts(parts);
    StripOnlyInFront(Join(PARAGRAPH, parts));
    if parts != [] {
      VisibleStartIsKept(parts[0]);
      var text := Join(PARAGRAPH, parts);
      assert text != "" && text[0] == parts[0][0];
      VisibleStartIsKept(text);
    }
  }

  lemma {:induction false} TrimmedParts(parts: seq<string>)
    requires forall i | 0 <= i < |parts| :: Trimmed(parts[i])
    ensures TidyParts(parts) == NormalizedParts(parts)
  {
    if parts != [] {
      VisibleStartIsKept(parts[0]);
      TrimmedParts(parts[1..]);
    }
  }
}
