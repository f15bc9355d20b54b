/**
  The Markdown parser: lines are collected into blocks that end at headings, and every block carries the heading it
  stands under. A chunk of the parsed text lists the nearest heading of each of its visible characters.
*/
module Markdown {
  import opened Chunking
  import opened Normalization
  import opened Provenance
  import opened Text
  import opened Wrappers

  import Ingestion

  // The heading pattern: the captured title of a heading line.
  type HeadingPattern = string -> Option<string>

  function Title(pattern: HeadingPattern, line: string): Option<string> {
    match pattern(line)
    case None => None
    case Some(captured) => Some(Strip(captured))
  }

  datatype Parsed = Parsed(segments: seq<SourceSegment>, sections: seq<string>)

  // ---- Blocks and their segments ----

  // The lines cut in front of each heading; the first block has none and may be empty.
  function Blocks(pattern: HeadingPattern, lines: seq<string>): (blocks: seq<seq<string>>)
    ensures blocks != []
  {
    if lines == [] then [[]] else Extended(pattern, Blocks(pattern, lines[..|lines| - 1]), lines[|lines| - 1])
  }

  // The blocks with one more line: a heading opens a new one.
  function Extended(pattern: HeadingPattern, blocks: seq<seq<string>>, line: string): (longer: seq<seq<string>>)
    requires blocks != []
    ensures longer != []
  {
    var n := |blocks| - 1;
    if Title(pattern, line).Some? then blocks + [[line]] else blocks[..n] + [blocks[n] + [line]]
  }

  function HeadingOf(pattern: HeadingPattern, block: seq<string>): Option<string> {
    if block == [] then None else Title(pattern, block[0])
  }

  // What one block leaves: its stripped text, unless that is empty.
  function BlockSegment(block: seq<string>, heading: Option<string>): seq<SourceSegment> {
    var text := Strip(Join("\n", block));
    if text == "" then [] else [SourceSegment(text, SegmentMetadata(None, heading))]
  }

  function SegmentsOf(pattern: HeadingPattern, blocks: seq<seq<string>>): seq<SourceSegment> {
    if blocks == [] then []
    else
      var last := blocks[|blocks| - 1];
      SegmentsOf(pattern, blocks[..|blocks| - 1]) + BlockSegment(last, HeadingOf(pattern, last))
  }

  function Headings(pattern: HeadingPattern, lines: seq<string>): seq<string> {
    if lines == [] then []
    else
      Headings(pattern, lines[..|lines| - 1])
      + match Title(pattern, lines[|lines| - 1]) case None => [] case Some(title) => [title]
  }

  function Concat(blocks: seq<seq<string>>): seq<string> {
    if blocks == [] then [] else Concat(blocks[..|blocks| - 1]) + blocks[|blocks| - 1]
  }

  // A block is a maximal run: it goes on to the next heading line, and all but the first start with one.
  ghost predicate MaximalRuns(pattern: HeadingPattern, blocks: seq<seq<string>>) {
    && blocks != [] && HeadingOf(pattern, blocks[0]).None?
    && (forall i | 0 < i < |blocks| :: HeadingOf(pattern, blocks[i]).Some?)
    && forall i, j | 0 <= i < |blocks| && 0 < j < |blocks[i]| :: Title(pattern, blocks[i][j]).None?
  }

  lemma ConcatAppend(blocks: seq<seq<string>>, block: seq<string>)
    ensures Concat(blocks + [block]) == Concat(blocks) + block
  {
    assert (blocks + [block])[..|blocks|] == blocks;
  }

  lemma ConcatExtended(pattern: HeadingPattern, blocks: seq<seq<string>>, line: string)
    requires blocks != []
    ensures Concat(Extended(pattern, blocks, line)) == Concat(blocks) + [line]
  {
    hide Title, Concat;
    var n := |blocks| - 1;
    ConcatAppend(blocks, [line]);
    ConcatAppend(blocks[..n], blocks[n] + [line]);
    ConcatAppend(blocks[..n], blocks[n]);
    assert blocks == blocks[..n] + [blocks[n]];
    Associative(Concat(blocks[..n]), blocks[n], [line]);
  }

  /** The blocks are the lines, cut into maximal runs between headings. */
  lemma {:induction false} BlocksAreMaximalRuns(pattern: HeadingPattern, lines: seq<string>)
    ensures Concat(Blocks(pattern, lines)) == lines && MaximalRuns(pattern, Blocks(pattern, lines))
  {
    if lines == [] {
      assert Blocks(pattern, lines)[..0] == [];
    } else {
      hide Title, MaximalRuns, Extended, Concat;
      var init, last := lines[..|lines| - 1], lines[|lines| - 1];
      BlocksAreMaximalRuns(pattern, init);
      assert lines == init + [last];
      ConcatExtended(pattern, Blocks(pattern, init), last);
      RunsExtended(pattern, Blocks(pattern, init), last);
    }
  }

  lemma RunsExtended(pattern: HeadingPattern, blocks: seq<seq<string>>, line: string)
    requires MaximalRuns(pattern, blocks)
    ensures MaximalRuns(pattern, Extended(pattern, blocks, line))
  {
    hide Title;
    if Title(pattern, line).Some? {
      RunsWithHeading(pattern, blocks, line);
    } else {
      RunsWithLine(pattern, blocks, line);
    }
  }

  lemma RunsWithHeading(pattern: HeadingPattern, before: seq<seq<string>>, last: string)
    requires MaximalRuns(pattern, before) && Title(pattern, last).Some?
    ensures MaximalRuns(pattern, before + [[last]])
  {
    hide Title;
  }

  lemma RunsWithLine(pattern: HeadingPattern, before: seq<seq<string>>, last: string)
    requires MaximalRuns(pattern, before) && Title(pattern, last).None?
    ensures MaximalRuns(pattern, before[..|before| - 1] + [before[|before| - 1] + [last]])
  {
    hide Title;
    var n := |before| - 1;
    var after := before[..n] + [before[n] + [last]];
    forall i | 0 <= i < |after| ensures HeadingOf(pattern, after[i]) == HeadingOf(pattern, before[i]) {
    }
    forall i, j | 0 <= i < |after| && 0 < j < |after[i]| ensures Title(pattern, after[i][j]).None? {
      if i < n {
        assert after[i] == before[i];
      } else if j < |before[n]| {
        assert after[i][j] == before[n][j];
      }
    }
  }

  // The blocks without their last line: the inverse of extending.
  function Shortened(blocks: seq<seq<string>>): seq<seq<string>>
    requires blocks != [] && blocks[|blocks| - 1] != []
  {
    var n := |blocks| - 1;
    var m := |blocks[n]| - 1;
    if n > 0 && m == 0 then blocks[..n] else blocks[..n] + [blocks[n][..m]]
  }

  lemma ExtendedShortened(pattern: HeadingPattern, blocks: seq<seq<string>>)
    requires MaximalRuns(pattern, blocks) && blocks[|blocks| - 1] != []
    ensures Shortened(blocks) != []
    ensures var block := blocks[|blocks| - 1];
      Extended(pattern, Shortened(blocks), block[|block| - 1]) == blocks
  {
    hide Title;
    var n := |blocks| - 1;
    var m := |blocks[n]| - 1;
    LastLine(pattern, blocks);
    hide MaximalRuns;
    if n > 0 && m == 0 {
      assert blocks[n] == [blocks[n][0]];
    } else {
      assert blocks[n] == blocks[n][..m] + [blocks[n][m]];
    }
    assert blocks == blocks[..n] + [blocks[n]];
  }

  // The last line is a heading exactly when it is a later run of its own.
  lemma LastLine(pattern: HeadingPattern, blocks: seq<seq<string>>)
    requires MaximalRuns(pattern, blocks) && blocks[|blocks| - 1] != []
    ensures var n := |blocks| - 1;
      var m := |blocks[n]| - 1;
      Title(pattern, blocks[n][m]).Some? <==> n > 0 && m == 0
  {
    hide Title;
    var n := |blocks| - 1;
    assert HeadingOf(pattern, blocks[n]) == Title(pattern, blocks[n][0]);
  }

  lemma ShortenedRuns(pattern: HeadingPattern, blocks: seq<seq<string>>)
    requires MaximalRuns(pattern, blocks) && blocks[|blocks| - 1] != []
    ensures MaximalRuns(pattern, Shortened(blocks))
  {
    hide Title;
    var shorter := Shortened(blocks);
    forall i | 0 <= i < |shorter| && shorter[i] != [] ensures HeadingOf(pattern, shorter[i]) == HeadingOf(pattern, blocks[i]) {
    }
    forall i, j | 0 <= i < |shorter| && 0 < j < |shorter[i]| ensures Title(pattern, shorter[i][j]).None? {
      assert shorter[i][j] == blocks[i][j];
    }
  }

  lemma EveryRunButTheFirst(pattern: HeadingPattern, blocks: seq<seq<string>>, i: nat)
    requires MaximalRuns(pattern, blocks) && i < |blocks|
    ensures blocks[i] == [] ==> i == 0
  {
    hide Title;
    assert i == 0 || HeadingOf(pattern, blocks[i]).Some?;
  }

  /** Nothing else cuts the lines into maximal runs. */
  lemma {:induction false} MaximalRunsAreUnique(pattern: HeadingPattern, blocks: seq<seq<string>>)
    requires MaximalRuns(pattern, blocks)
    ensures blocks == Blocks(pattern, Concat(blocks))
    decreases |Concat(blocks)|
  {
    var n := |blocks| - 1;
    if blocks[n] == [] {
      EveryRunButTheFirst(pattern, blocks, n);
      assert blocks == [[]] && blocks[..0] == [];
    } else {
      ShortenedRuns(pattern, blocks);
      ExtendedShortened(pattern, blocks);
      var last := blocks[n][|blocks[n]| - 1];
      hide MaximalRuns, Shortened, Extended, Title, Concat;
      ConcatExtended(pattern, Shortened(blocks), last);
      MaximalRunsAreUnique(pattern, Shortened(blocks));
      assert Concat(blocks)[..|Concat(blocks)| - 1] == Concat(Shortened(blocks));
    }
  }

  // What one more line does to the open block and to the closed ones.
  lemma ExtendedBlock(pattern: HeadingPattern, blocks: seq<seq<string>>, line: string)
    requires blocks != []
    ensures var longer := Extended(pattern, blocks, line);
      var n, m := |blocks| - 1, |longer| - 1;
      if Title(pattern, line).Some? then
        longer[m] == [line] && longer[..m] == blocks && HeadingOf(pattern, longer[m]) == Title(pattern, line)
      else
        && longer[m] == blocks[n] + [line] && longer[..m] == blocks[..n]
        && HeadingOf(pattern, longer[m]) == HeadingOf(pattern, blocks[n])
  {
    hide Title;
  }

  lemma LastSegment(pattern: HeadingPattern, blocks: seq<seq<string>>)
    requires blocks != []
    ensures var n := |blocks| - 1;
      SegmentsOf(pattern, blocks) == SegmentsOf(pattern, blocks[..n]) + BlockSegment(blocks[n], HeadingOf(pattern, blocks[n]))
  {
    hide BlockSegment, HeadingOf;
  }

  lemma NoSegments(pattern: HeadingPattern)
    ensures SegmentsOf(pattern, []) == []
  {
  }

  // ---- The parser ----

  class MarkdownDocumentParser {
    const pattern: HeadingPattern
    var block: seq<string>
    var segments: seq<SourceSegment>
    var sections: seq<string>
    var currentHeading: Option<string>

    constructor (pattern: HeadingPattern)
      ensures this.pattern == pattern && block == [] && segments == [] && sections == [] && currentHeading == None
    {
      this.pattern := pattern;
      block, segments, sections, currentHeading := [], [], [], None;
    }

    // Ends the current block; a blank block leaves no segment.
    method Flush()
      modifies this`block, this`segments
      ensures block == [] && segments == old(segments) + BlockSegment(old(block), currentHeading)
    {
      hide Strip;
      var text := Strip(Join("\n", block));
      if text != "" {
        segments := segments + [SourceSegment(text, SegmentMetadata(None, currentHeading))];
      }
      block := [];
    }

    /** The line loop and the closing flush: one segment per block that is not blank, and the headings in order. */
    method Parse(lines: seq<string>) returns (parsed: Parsed)
      requires block == [] && segments == [] && sections == [] && currentHeading == None
      modifies this
      ensures parsed == Parsed(SegmentsOf(pattern, Blocks(pattern, lines)), Headings(pattern, lines))
    {
      hide Strip, BlockSegment, SegmentsOf, Extended;
      NoSegments(pattern);
      for k := 0 to |lines|
        invariant sections == Headings(pattern, lines[..k])
        invariant OnLastBlock(Blocks(pattern, lines[..k]))
      {
        var line := lines[k];
        assert lines[..k + 1][..k] == lines[..k] && lines[..k + 1][k] == line;
        ghost var before := Blocks(pattern, lines[..k]);
        ExtendedBlock(pattern, before, line);
        LastSegment(pattern, before);
        var captured := pattern(line);
        if captured.Some? {
          Flush();
          currentHeading := Some(Strip(captured.value));
          sections := sections + [currentHeading.value];
          block := block + [line];
        } else {
          block := block + [line];
        }
      }
      assert lines[..|lines|] == lines;
      LastSegment(pattern, Blocks(pattern, lines));
      Flush();
      return Parsed(segments, sections);
    }

    // All blocks but the last are segments already; the last one is open under its heading.
    predicate OnLastBlock(blocks: seq<seq<string>>)
      reads this
    {
      && blocks != [] && block == blocks[|blocks| - 1] && currentHeading == HeadingOf(pattern, block)
      && segments == SegmentsOf(pattern, blocks[..|blocks| - 1])
    }
  }

  // ---- Every visible character keeps its place and its heading ----

  // The nearest heading at or above the end of the lines.
  function LastHeading(pattern: HeadingPattern, lines: seq<string>): Option<string> {
    if lines == [] then None
    else
      var title := Title(pattern, lines[|lines| - 1]);
      if title.Some? then title else LastHeading(pattern, lines[..|lines| - 1])
  }

  // Every character of `s` under one heading.
  function Under(s: string, heading: Option<string>): seq<(char, Option<string>)> {
    seq(|s|, i requires 0 <= i < |s| => (s[i], heading))
  }

  // The visible characters of the lines, each with its heading.
  function TaggedLines(pattern: HeadingPattern, lines: seq<string>): seq<(char, Option<string>)> {
    if lines == [] then []
    else
      TaggedLines(pattern, lines[..|lines| - 1]) + Under(Ink(lines[|lines| - 1]), LastHeading(pattern, lines))
  }

  // The visible characters of the segments, each with its segment's heading.
  function TaggedSegments(segments: seq<SourceSegment>): seq<(char, Option<string>)> {
    if segments == [] then []
    else
      Under(Ink(segments[0].text), segments[0].metadata.section) + TaggedSegments(segments[1..])
  }

  lemma UnderAppend(a: string, b: string, heading: Option<string>)
    ensures Under(a + b, heading) == Under(a, heading) + Under(b, heading)
  {
  }

  lemma UnderNothing(heading: Option<string>)
    ensures Under("", heading) == []
  {
  }

  lemma {:induction false} TaggedAppend(a: seq<SourceSegment>, b: seq<SourceSegment>)
    ensures TaggedSegments(a + b) == TaggedSegments(a) + TaggedSegments(b)
  {
    hide Ink, Under;
    if a == [] {
      assert a + b == b;
    } else {
      assert (a + b)[1..] == a[1..] + b;
      TaggedAppend(a[1..], b);
      Associative(Under(Ink(a[0].text), a[0].metadata.section), TaggedSegments(a[1..]), TaggedSegments(b));
    }
  }

  // A block's segment has the block's visible characters.
  lemma BlockTags(block: seq<string>, heading: Option<string>)
    ensures TaggedSegments(BlockSegment(block, heading)) == Under(InkOfAll(block), heading)
  {
    hide Strip, Under;
    var joined := Join("\n", block);
    StripTrims(joined);
    InkOfJoin("\n", block);
    InkNothing();
    UnderNothing(heading);
    if Strip(joined) != "" {
      assert BlockSegment(block, heading)[1..] == [];
    }
  }

  lemma {:induction false} OpenBlockIsUnderLastHeading(pattern: HeadingPattern, lines: seq<string>)
    ensures var blocks := Blocks(pattern, lines);
      HeadingOf(pattern, blocks[|blocks| - 1]) == LastHeading(pattern, lines)
  {
    hide Title;
    if lines != [] {
      OpenBlockIsUnderLastHeading(pattern, lines[..|lines| - 1]);
    }
  }

  lemma InkOfOne(line: string)
    ensures InkOfAll([line]) == Ink(line)
  {
    InkOfAllCons(line, []);
    assert [line] + [] == [line];
  }

  // The open block and the segments before it hold the tagged characters of the lines so far.
  lemma {:induction false} OpenTags(pattern: HeadingPattern, lines: seq<string>)
    ensures var blocks := Blocks(pattern, lines);
      var n := |blocks| - 1;
      TaggedSegments(SegmentsOf(pattern, blocks[..n])) + Under(InkOfAll(blocks[n]), HeadingOf(pattern, blocks[n]))
      == TaggedLines(pattern, lines)
  {
    hide Title, Ink, Under, BlockSegment;
    if lines == [] {
      InkNothing();
      UnderNothing(None);
      assert Blocks(pattern, lines)[..0] == [];
      NoSegments(pattern);
    } else {
      var init, last := lines[..|lines| - 1], lines[|lines| - 1];
      OpenTags(pattern, init);
      OpenBlockIsUnderLastHeading(pattern, lines);
      OpenBlockIsUnderLastHeading(pattern, init);
      var before := Blocks(pattern, init);
      hide Extended, SegmentsOf, HeadingOf, InkOfAll;
      ExtendedBlock(pattern, before, last);
      InkOfOne(last);
      if Title(pattern, last).Some? {
        ClosedTags(pattern, before);
      } else {
        LineTags(pattern, before, last, HeadingOf(pattern, before[|before| - 1]));
      }
    }
  }

  lemma ClosedTags(pattern: HeadingPattern, blocks: seq<seq<string>>)
    requires blocks != []
    ensures var n := |blocks| - 1;
      TaggedSegments(SegmentsOf(pattern, blocks)) ==
      TaggedSegments(SegmentsOf(pattern, blocks[..n])) + Under(InkOfAll(blocks[n]), HeadingOf(pattern, blocks[n]))
  {
    hide Title, Ink, Under, BlockSegment;
    var n := |blocks| - 1;
    var heading := HeadingOf(pattern, blocks[n]);
    TaggedAppend(SegmentsOf(pattern, blocks[..n]), BlockSegment(blocks[n], heading));
    BlockTags(blocks[n], heading);
  }

  lemma LineTags(pattern: HeadingPattern, before: seq<seq<string>>, last: string, heading: Option<string>)
    requires before != []
    ensures var n := |before| - 1;
      var closed := TaggedSegments(SegmentsOf(pattern, before[..n]));
      closed + Under(InkOfAll(before[n] + [last]), heading) == closed + Under(InkOfAll(before[n]), heading) + Under(Ink(last), heading)
  {
    hide Ink, Under, BlockSegment, Title;
    var n := |before| - 1;
    InkOfAllAppend(before[n], [last]);
    InkOfOne(last);
    UnderAppend(InkOfAll(before[n]), Ink(last), heading);
    Associative(TaggedSegments(SegmentsOf(pattern, before[..n])), Under(InkOfAll(before[n]), heading), Under(Ink(last), heading));
  }

  /** The segments' visible characters are the lines', in order, each under the nearest heading at or above its line. */
  lemma EveryCharacterKeepsItsHeading(pattern: HeadingPattern, lines: seq<string>)
    ensures TaggedSegments(SegmentsOf(pattern, Blocks(pattern, lines))) == TaggedLines(pattern, lines)
  {
    hide Ink, Under, BlockSegment, Title;
    OpenTags(pattern, lines);
    ClosedTags(pattern, Blocks(pattern, lines));
  }

  function Untagged(tags: seq<(char, Option<string>)>): string {
    seq(|tags|, i requires 0 <= i < |tags| => tags[i].0)
  }

  lemma UntaggedNothing()
    ensures Untagged([]) == ""
  {
  }

  lemma UntaggedUnder(a: seq<(char, Option<string>)>, s: string, heading: Option<string>)
    ensures Untagged(a + Under(s, heading)) == Untagged(a) + s
    ensures Untagged(Under(s, heading) + a) == s + Untagged(a)
  {
  }

  lemma {:induction false} UntaggedLines(pattern: HeadingPattern, lines: seq<string>)
    ensures Untagged(TaggedLines(pattern, lines)) == InkOfAll(lines)
  {
    hide Ink, Under, Untagged;
    if lines == [] {
      UntaggedNothing();
    } else {
      var init, last := lines[..|lines| - 1], lines[|lines| - 1];
      UntaggedLines(pattern, init);
      UntaggedUnder(TaggedLines(pattern, init), Ink(last), LastHeading(pattern, lines));
      InkOfAllAppend(init, [last]);
      InkOfOne(last);
      assert init + [last] == lines;
    }
  }

  lemma {:induction false} UntaggedSegments(segments: seq<SourceSegment>)
    ensures Untagged(TaggedSegments(segments)) == InkOfAll(Texts(segments))
  {
    hide Ink, Under, Untagged;
    if segments == [] {
      UntaggedNothing();
    } else {
      UntaggedSegments(segments[1..]);
      UntaggedUnder(TaggedSegments(segments[1..]), Ink(segments[0].text), segments[0].metadata.section);
      InkOfAllCons(segments[0].text, Texts(segments[1..]));
    }
  }

  /** The parsed text, the segments joined by blank lines, has exactly the visible characters of the lines. */
  lemma NothingVisibleIsLost(pattern: HeadingPattern, lines: seq<string>)
    ensures Ink(Join(PARAGRAPH, Texts(SegmentsOf(pattern, Blocks(pattern, lines))))) == InkOfAll(lines)
  {
    hide Ink, Under, Untagged, SegmentsOf, Blocks;
    var segments := SegmentsOf(pattern, Blocks(pattern, lines));
    EveryCharacterKeepsItsHeading(pattern, lines);
    UntaggedLines(pattern, lines);
    UntaggedSegments(segments);
    ParagraphIsSpace();
    InkOfJoin(PARAGRAPH, Texts(segments));
  }

  /** No segment is blank, and none has whitespace at its ends. */
  lemma {:induction false} SegmentsAreTrimmed(pattern: HeadingPattern, blocks: seq<seq<string>>)
    ensures forall segment | segment in SegmentsOf(pattern, blocks) :: segment.text != "" && Trimmed(segment.text)
  {
    hide Strip, Trimmed, Title;
    if blocks != [] {
      SegmentsAreTrimmed(pattern, blocks[..|blocks| - 1]);
      var joined := Join("\n", blocks[|blocks| - 1]);
      StripTrims(joined);
    }
  }

  // ---- From lines to chunks ----

  lemma {:induction false} InkRank(s: string, k: nat)
    requires k < |s| && !IsSpace(s[k])
    ensures |Ink(s[..k])| < |Ink(s)| && Ink(s)[|Ink(s[..k])|] == s[k]
  {
    hide IsSpace;
    assert s == s[..k] + s[k..] && s[k..] == [s[k]] + s[k + 1..];
    InkAppend(s[..k], s[k..]);
    InkCons(s[k], s[k + 1..]);
  }

  lemma UnderAt(s: string, heading: Option<string>, k: nat)
    requires k < |s|
    ensures |Under(s, heading)| == |s| && Under(s, heading)[k] == (s[k], heading)
  {
  }

  // The visible characters between two positions, counted over a position in between.
  lemma RankSplits(text: string, from: nat, mid: nat, to: nat)
    requires from <= mid <= to <= |text|
    ensures |Ink(text[from..to])| == |Ink(text[from..mid])| + |Ink(text[mid..to])|
  {
    assert text[from..to] == text[from..mid] + text[mid..to];
    InkAppend(text[from..mid], text[mid..to]);
  }

  // A visible position of placed segments lies in a span with the heading its rank has among the tags.
  lemma {:induction false} PlacedTag(normalized: string, cursor: nat, segments: seq<SourceSegment>, spans: seq<Span>, p: nat)
    returns (i: nat)
    requires Placed(normalized, cursor, segments, spans) && cursor <= p < |normalized| && !IsSpace(normalized[p])
    ensures i < |spans| && spans[i].start <= p < spans[i].end
    ensures var rank := |Ink(normalized[cursor..p])|;
      rank < |TaggedSegments(segments)| && TaggedSegments(segments)[rank] == (normalized[p], spans[i].metadata.section)
    decreases |segments|
  {
    hide Normalized, IsSpace, AllSpace, Ink, Under;
    if segments == [] {
      assert normalized[cursor..|normalized|] == normalized[cursor..];
      SliceNotBlank(normalized, cursor, |normalized|, p);
      assert false;
    } else {
      var text, heading := segments[0].text, segments[0].metadata.section;
      NormalizationKeepsInk(text);
      UnderLength(Ink(text), heading);
      if Normalized(text) == "" {
        InkNothing();
        i := PlacedTag(normalized, cursor, segments[1..], spans, p);
      } else {
        var start, end := spans[0].start, spans[0].end;
        InkOfSpace(normalized[cursor..start]);
        if p < start {
          SliceNotBlank(normalized, cursor, start, p);
          assert false;
        }
        RankSplits(normalized, cursor, start, p);
        if p < end {
          i := 0;
          assert normalized[start..end][..p - start] == normalized[start..p];
          InkRank(normalized[start..end], p - start);
          UnderAt(Ink(text), heading, |Ink(normalized[start..p])|);
        } else {
          var j := PlacedTag(normalized, end, segments[1..], spans[1..], p);
          i := j + 1;
          RankSplits(normalized, start, end, p);
        }
      }
    }
  }

  lemma UnderLength(s: string, heading: Option<string>)
    ensures |Under(s, heading)| == |s|
  {
  }

  // The text of a parsed file as it is stored.
  function StoredText(pattern: HeadingPattern, lines: seq<string>): string {
    Normalized(Join(PARAGRAPH, Texts(SegmentsOf(pattern, Blocks(pattern, lines)))))
  }

  /**
    Whatever the chunk size and overlap, a chunk of a Markdown file lists the nearest heading of each of its visible
    characters: the character with the same rank among the visible characters of the lines.
  */
  lemma ChunksListTheNearestHeading(pattern: HeadingPattern, lines: seq<string>, chunkSize: int, overlap: int,
                                    chunk: TextChunk, p: nat)
    requires 0 <= overlap < chunkSize && p < |StoredText(pattern, lines)| && !IsSpace(StoredText(pattern, lines)[p])
    requires Chunks(StoredText(pattern, lines), chunkSize, overlap).Ok?
    requires chunk in Chunks(StoredText(pattern, lines), chunkSize, overlap).value
    requires chunk.startOffset <= p < chunk.endOffset
    ensures var text, segments := StoredText(pattern, lines), SegmentsOf(pattern, Blocks(pattern, lines));
      var rank, tags := |Ink(text[..p])|, TaggedLines(pattern, lines);
      && rank < |tags| && tags[rank].0 == text[p]
      && (tags[rank].1.Some? && tags[rank].1.value != "" ==>
            tags[rank].1.value in Attribute(chunk.startOffset, chunk.endOffset, Spans(text, segments, 0)).sourceSections)
  {
    hide Normalized, Chunks, Spans, Placed, IsSpace, Ink, Under, Attribute, Title, BlockSegment, Shares, Blocks, SegmentsOf;
    var segments := SegmentsOf(pattern, Blocks(pattern, lines));
    var text := StoredText(pattern, lines);
    var spans := Spans(text, segments, 0);
    SegmentsAreFoundExactly(segments);
    EveryCharacterKeepsItsHeading(pattern, lines);
    var i := PlacedTag(text, 0, segments, spans, p);
    assert text[0..p] == text[..p];
    Ingestion.SpanFacts(text, segments, spans);
    Ingestion.SharesAt(chunk.startOffset, chunk.endOffset, spans[i], p);
    if spans[i].metadata.section.Some? {
      SectionsOfChunk(chunk.startOffset, chunk.endOffset, spans, spans[i].metadata.section.value);
    }
  }

  // ---- The texts themselves ----

  // The text is what is left of `whole` without the whitespace at its ends.
  ghost predicate CutFrom(text: string, whole: string) {
    if AllSpace(whole) then text == ""
    else exists i, j | 0 <= i < j <= |whole| ::
      text == whole[i..j] && AllSpace(whole[..i]) && AllSpace(whole[j..]) && !IsSpace(whole[i]) && !IsSpace(whole[j - 1])
  }

  lemma StripCuts(s: string)
    ensures CutFrom(Strip(s), s)
  {
    StripTrims(s);
    if !AllSpace(s) {
      var i := SkipSpace(s, 0);
      var rest := LStrip(s);
      var k := DropSpace(rest, |rest|);
      assert rest == s[i..] && Strip(s) == rest[..k] == s[i..i + k];
      assert Trimmed(Strip(s));
      assert s[i] == Strip(s)[0] && s[i + k - 1] == Strip(s)[k - 1];
      assert s[i + k..] == rest[k..];
    }
  }

  // The lines as they are, one after the other with a line break between them.
  ghost predicate MadeOfLines(whole: string, lines: seq<string>) {
    if lines == [] then whole == "" else Split(whole, '\n') == lines
  }

  /** The text of a block's segment is its lines, line breaks and all, without the whitespace around them. */
  lemma BlockKeepsItsLines(block: seq<string>, heading: Option<string>)
    requires forall i | 0 <= i < |block| :: '\n' !in block[i]
    ensures exists whole ::
      && MadeOfLines(whole, block)
      && if AllSpace(whole) then BlockSegment(block, heading) == []
         else
           && |BlockSegment(block, heading)| == 1 && CutFrom(BlockSegment(block, heading)[0].text, whole)
           && BlockSegment(block, heading)[0].metadata == SegmentMetadata(None, heading)
  {
    hide Strip, CutFrom, AllSpace, Split;
    var whole := Join("\n", block);
    if block != [] {
      SplitOfJoin(block, '\n');
    }
    StripCuts(whole);
    StripTrims(whole);
    assert MadeOfLines(whole, block);
  }

  /** The sections are the captured titles without the whitespace around them, one for each heading line in order. */
  lemma SectionsAreTheTitles(pattern: HeadingPattern, lines: seq<string>, k: nat)
    requires k < |lines|
    ensures match pattern(lines[k])
      case None => Headings(pattern, lines[..k + 1]) == Headings(pattern, lines[..k])
      case Some(captured) =>
        && |Headings(pattern, lines[..k + 1])| == |Headings(pattern, lines[..k])| + 1
        && Headings(pattern, lines[..k]) <= Headings(pattern, lines[..k + 1])
        && CutFrom(Headings(pattern, lines[..k + 1])[|Headings(pattern, lines[..k])|], captured)
  {
    hide Strip, CutFrom;
    assert lines[..k + 1][..k] == lines[..k];
    if pattern(lines[k]).Some? {
      StripCuts(pattern(lines[k]).value);
    }
  }
}
