/**
  Source attribution: parser segments are located in the normalised document, and every chunk
  is given the pages and sections of the segments it overlaps.
*/
module Provenance {
  import opened Collections
  import opened Normalization
  import opened Text
  import opened Wrappers

  // The two metadata entries the attribution reads.
  datatype SegmentMetadata = SegmentMetadata(page: Option<int>, section: Option<string>)

  datatype SourceSegment = SourceSegment(text: string, metadata: SegmentMetadata)

  datatype Span = Span(start: nat, end: nat, metadata: SegmentMetadata)

  datatype ChunkProvenance = ChunkProvenance(
    sourcePages: seq<int>, pageRange: Option<(int, int)>, sourceSections: seq<string>)

  // ---- Locating segments ----

  function Spans(normalized: string, segments: seq<SourceSegment>, cursor: nat): seq<Span>
    requires cursor <= |normalized|
    decreases |segments|
  {
    if segments == [] then []
    else
      var segmentText := Normalized(segments[0].text);
      if segmentText == "" then Spans(normalized, segments[1..], cursor)
      else
        var start := Find(normalized, segmentText, cursor);
        if start < 0 then Spans(normalized, segments[1..], cursor)
        else
          var end := start + |segmentText|;
          [Span(start, end, segments[0].metadata)] + Spans(normalized, segments[1..], end)
  }

  /** The greedy search loop. */
  method BuildProvenanceSpans(normalized: string, segments: seq<SourceSegment>) returns (spans: seq<Span>)
    ensures spans == Spans(normalized, segments, 0)
  {
    hide Normalized;
    spans := [];
    var cursor: nat := 0;
    ghost var all := Spans(normalized, segments, 0);
    assert segments[0..] == segments;
    for i := 0 to |segments|
      invariant cursor <= |normalized|
      invariant spans + Spans(normalized, segments[i..], cursor) == all
    {
      assert segments[i..][0] == segments[i] && segments[i..][1..] == segments[i + 1..];
      var segmentText := NormalizeText(segments[i].text);
      if segmentText == "" {
        continue;
      }
      var start := Find(normalized, segmentText, cursor);
      if start < 0 {
        continue;
      }
      var end := start + |segmentText|;
      var span := Span(start, end, segments[i].metadata);
      Associative(spans, [span], Spans(normalized, segments[i + 1..], end));
      spans := spans + [span];
      cursor := end;
    }
    assert segments[|segments|..] == [] && spans + [] == spans;
  }

  // ---- Attributing chunks ----

  function Overlapping(chunkStart: int, chunkEnd: int, spans: seq<Span>): seq<SegmentMetadata> {
    if spans == [] then []
    else
      var rest := Overlapping(chunkStart, chunkEnd, spans[1..]);
      if chunkStart < spans[0].end && chunkEnd > spans[0].start then [spans[0].metadata] + rest else rest
  }

  function InsertPage(page: int, pages: seq<int>): seq<int> {
    if pages == [] || page < pages[0] then [page] + pages
    else if page == pages[0] then pages
    else [pages[0]] + InsertPage(page, pages[1..])
  }

  // `sorted` over the set of page numbers.
  function Pages(metadata: seq<SegmentMetadata>): seq<int> {
    if metadata == [] then []
    else match metadata[0].page
      case None => Pages(metadata[1..])
      case Some(page) => InsertPage(page, Pages(metadata[1..]))
  }

  // `dict.fromkeys` over the non-empty headings: the first occurrence of each, in order.
  function Sections(metadata: seq<SegmentMetadata>): seq<string> {
    if metadata == [] then []
    else
      var last := metadata[|metadata| - 1].section;
      var rest := Sections(metadata[..|metadata| - 1]);
      if last.None? || last.value == "" || last.value in rest then rest else rest + [last.value]
  }

  function Attribute(chunkStart: int, chunkEnd: int, spans: seq<Span>): ChunkProvenance {
    var overlapping := Overlapping(chunkStart, chunkEnd, spans);
    var pages := Pages(overlapping);
    ChunkProvenance(pages, if pages == [] then None else Some((pages[0], pages[|pages| - 1])), Sections(overlapping))
  }

  // ---- Where a segment really lies ----

  // The span holds exactly the text, and only whitespace lies between the cursor and it.
  ghost predicate Lies(normalized: string, cursor: nat, segmentText: string, span: Span) {
    && cursor <= span.start && span.end == span.start + |segmentText| <= |normalized|
    && AllSpace(normalized[cursor..span.start])
    && normalized[span.start..span.end] == segmentText
  }

  // The segments lie in the text from `cursor` on, in order, with only whitespace around them;
  // blank segments take no room.
  ghost predicate Placed(normalized: string, cursor: nat, segments: seq<SourceSegment>, spans: seq<Span>)
    decreases |segments|
  {
    && cursor <= |normalized|
    && if segments == [] then spans == [] && AllSpace(normalized[cursor..])
       else
         var segmentText := Normalized(segments[0].text);
         if segmentText == "" then Placed(normalized, cursor, segments[1..], spans)
         else
           && spans != []
           && Lies(normalized, cursor, segmentText, spans[0])
           && spans[0].metadata == segments[0].metadata
           && Placed(normalized, spans[0].end, segments[1..], spans[1..])
  }

  lemma LiesUniquely(normalized: string, cursor: nat, segmentText: string, a: Span, b: Span)
    requires segmentText != "" && !IsSpace(segmentText[0])
    requires Lies(normalized, cursor, segmentText, a) && Lies(normalized, cursor, segmentText, b)
    ensures a.start == b.start && a.end == b.end
  {
    hide IsSpace, AllSpace;
    FirstInkAt(normalized, cursor, a.start, segmentText);
    FirstInkAt(normalized, cursor, b.start, segmentText);
  }

  /** There is only one way for the segments to lie in the text. */
  lemma {:induction false} PlacementIsUnique(
      normalized: string, cursor: nat, segments: seq<SourceSegment>, a: seq<Span>, b: seq<Span>)
    requires Placed(normalized, cursor, segments, a) && Placed(normalized, cursor, segments, b)
    ensures a == b
    decreases |segments|
  {
    hide Normalized, Lies, IsSpace;
    if segments != [] {
      var segmentText := Normalized(segments[0].text);
      if segmentText == "" {
        PlacementIsUnique(normalized, cursor, segments[1..], a, b);
      } else {
        NormalizedLayout(segments[0].text);
        LiesUniquely(normalized, cursor, segmentText, a[0], b[0]);
        PlacementIsUnique(normalized, a[0].end, segments[1..], a[1..], b[1..]);
        assert a == [a[0]] + a[1..] && b == [b[0]] + b[1..];
      }
    }
  }

  // A visible start after whitespace is where the whitespace ends.
  lemma FirstInkAt(s: string, cursor: nat, start: nat, needle: string)
    requires cursor <= start && start + |needle| <= |s|
    requires needle != "" && !IsSpace(needle[0])
    requires AllSpace(s[cursor..start]) && s[start..start + |needle|] == needle
    ensures start == SkipSpace(s, cursor)
  {
    var k := SkipSpace(s, cursor);
    hide IsSpace, SkipSpace;
    assert s[start] == s[start..start + |needle|][0];
    assert forall j | cursor <= j < start :: IsSpace(s[j]) by {
      forall j | cursor <= j < start ensures IsSpace(s[j]) {
        assert s[cursor..start][j - cursor] == s[j];
      }
    }
  }

  // The greedy search stops exactly there.
  lemma FindSkipsSpace(s: string, cursor: nat, start: nat, needle: string)
    requires cursor <= start && start + |needle| <= |s|
    requires needle != "" && !IsSpace(needle[0])
    requires AllSpace(s[cursor..start]) && s[start..start + |needle|] == needle
    ensures Find(s, needle, cursor) == start
  {
    FindIsFirst(s, needle, cursor);
    hide IsSpace, Find;
    assert OccursAt(s, needle, start);
    forall i | cursor <= i < start ensures !OccursAt(s, needle, i) {
      assert IsSpace(s[cursor..start][i - cursor]);
      NotAtSpace(s, needle, i);
    }
  }

  lemma NotAtSpace(s: string, needle: string, i: nat)
    requires i < |s| && IsSpace(s[i]) && needle != "" && !IsSpace(needle[0])
    ensures !OccursAt(s, needle, i)
  {
  }

  // ---- The greedy search is exact on joined segments ----

  function Texts(segments: seq<SourceSegment>): seq<string> {
    if segments == [] then [] else [segments[0].text] + Texts(segments[1..])
  }

  // The text of the segments still to be placed, without the whitespace in front of it.
  function Remaining(segments: seq<SourceSegment>): string {
    LStrip(Join(PARAGRAPH, TidyParts(Texts(segments))))
  }

  lemma TidyOfVisible(raw: string)
    ensures Tidy(raw) == "" <==> Normalized(raw) == ""
    ensures Normalized(raw) != "" ==> !AllSpace(Tidy(raw)) && LStrip(Tidy(raw)) == Normalized(raw)
  {
    NormalizedLayout(raw);
    TidyInk(raw);
    InkOfSpace(raw);
    InkOfSpace(Tidy(raw));
    StripOnlyInFront(raw);
  }

  // What is left once the first visible segment has been read: that segment, then the rest behind
  // some whitespace.
  lemma RemainingUnfolds(segments: seq<SourceSegment>) returns (behind: string)
    requires segments != []
    ensures var segmentText := Normalized(segments[0].text);
      if segmentText == "" then Remaining(segments) == Remaining(segments[1..])
      else Remaining(segments) == segmentText + behind && LStrip(behind) == Remaining(segments[1..])
  {
    var raw := segments[0].text;
    var rest := TidyParts(Texts(segments[1..]));
    TidyOfVisible(raw);
    hide Normalized, Tidy, LStrip, AllSpace;
    behind := "";
    if Normalized(raw) != "" {
      var tail := Join(PARAGRAPH, rest);
      assert TidyParts(Texts(segments)) == [Tidy(raw)] + rest;
      if rest != [] {
        behind := PARAGRAPH + tail;
        JoinCons(PARAGRAPH, Tidy(raw), rest);
        ParagraphIsSpace();
        LStripPrefix(PARAGRAPH, tail);
      } else {
        assert Tidy(raw) + "" == Tidy(raw);
      }
      LStripAppend(Tidy(raw), behind);
    }
  }

  lemma ParagraphIsSpace()
    ensures AllSpace(PARAGRAPH)
  {
  }

  // The first visible segment is found where the remaining text begins.
  lemma NextSegmentFound(normalized: string, cursor: nat, segmentText: string, behind: string)
    requires cursor <= |normalized|
    requires segmentText != "" && !IsSpace(segmentText[0])
    requires LStrip(normalized[cursor..]) == segmentText + behind
    ensures var start := Find(normalized, segmentText, cursor);
      && start >= 0
      && Lies(normalized, cursor, segmentText, Span(start, start + |segmentText|, SegmentMetadata(None, None)))
      && normalized[start + |segmentText|..] == behind
  {
    var rest := normalized[cursor..];
    var k := SkipSpace(rest, 0);
    var start := cursor + k;
    assert rest[k..] == segmentText + behind;
    assert normalized[start..] == rest[k..];
    hide IsSpace, SkipSpace;
    assert normalized[cursor..start] == rest[..k];
    assert AllSpace(rest[..k]);
    assert normalized[start..start + |segmentText|] == (segmentText + behind)[..|segmentText|] == segmentText;
    assert normalized[start + |segmentText|..] == (segmentText + behind)[|segmentText|..] == behind;
    FindSkipsSpace(normalized, cursor, start, segmentText);
  }

  lemma {:induction false} GreedyIsExact(normalized: string, segments: seq<SourceSegment>, cursor: nat)
    requires cursor <= |normalized|
    requires LStrip(normalized[cursor..]) == Remaining(segments)
    ensures Placed(normalized, cursor, segments, Spans(normalized, segments, cursor))
    decreases |segments|
  {
    hide Normalized, Remaining, LStrip, IsSpace, Lies, Find, AllSpace;
    if segments == [] {
      RemainingNothing(normalized[cursor..]);
    } else {
      var segmentText := Normalized(segments[0].text);
      var behind := RemainingUnfolds(segments);
      if segmentText == "" {
        GreedyIsExact(normalized, segments[1..], cursor);
      } else {
        NormalizedLayout(segments[0].text);
        NextSegmentFound(normalized, cursor, segmentText, behind);
        var start := Find(normalized, segmentText, cursor);
        var span := Span(start, start + |segmentText|, segments[0].metadata);
        LiesAnyMetadata(normalized, cursor, segmentText, span);
        GreedyIsExact(normalized, segments[1..], span.end);
      }
    }
  }

  lemma LiesAnyMetadata(normalized: string, cursor: nat, segmentText: string, span: Span)
    requires Lies(normalized, cursor, segmentText, span.(metadata := SegmentMetadata(None, None)))
    ensures Lies(normalized, cursor, segmentText, span)
  {
  }

  lemma RemainingNothing(rest: string)
    requires LStrip(rest) == Remaining([])
    ensures AllSpace(rest)
  {
    assert LStrip("") == "";
    assert SkipSpace(rest, 0) == |rest|;
  }

  /** For a document made of its segments, every segment is found exactly where it lies. */
  lemma SegmentsAreFoundExactly(segments: seq<SourceSegment>)
    ensures var normalized := Normalized(Join(PARAGRAPH, Texts(segments)));
            Placed(normalized, 0, segments, Spans(normalized, segments, 0))
  {
    var text := Join(PARAGRAPH, Texts(segments));
    TidyOfJoin(Texts(segments));
    StripOnlyInFront(text);
    StripTwice(Tidy(text));
    var normalized := Normalized(text);
    hide Normalized, Tidy, LStrip;
    assert normalized[0..] == normalized;
    GreedyIsExact(normalized, segments, 0);
  }

  lemma StripTwice(s: string)
    ensures LStrip(LStrip(s)) == LStrip(s)
  {
    var k := SkipSpace(s, 0);
    SkipSpaceIs(LStrip(s), 0);
  }

  // ---- What an exact placement means position by position ----

  function VisibleSegments(segments: seq<SourceSegment>): seq<SourceSegment> {
    if segments == [] then []
    else if Normalized(segments[0].text) == "" then VisibleSegments(segments[1..])
    else [segments[0]] + VisibleSegments(segments[1..])
  }

  // Span and segment belong together.
  ghost predicate SpanOf(normalized: string, segment: SourceSegment, span: Span) {
    && span.start < span.end <= |normalized|
    && normalized[span.start..span.end] == Normalized(segment.text)
    && span.metadata == segment.metadata
  }

  /** One span per visible segment, in order and disjoint. */
  lemma {:induction false} PlacedSpans(normalized: string, cursor: nat, segments: seq<SourceSegment>, spans: seq<Span>)
    requires Placed(normalized, cursor, segments, spans)
    ensures var visible := VisibleSegments(segments);
      && |spans| == |visible|
      && (forall i | 0 <= i < |spans| :: cursor <= spans[i].start && SpanOf(normalized, visible[i], spans[i]))
      && (forall i, j | 0 <= i < j < |spans| :: spans[i].end <= spans[j].start)
    decreases |segments|
  {
    hide Normalized, AllSpace, IsSpace;
    if segments != [] {
      var visible := VisibleSegments(segments);
      if Normalized(segments[0].text) == "" {
        PlacedSpans(normalized, cursor, segments[1..], spans);
      } else {
        var rest := spans[1..];
        PlacedSpans(normalized, spans[0].end, segments[1..], rest);
        assert SpanOf(normalized, segments[0], spans[0]);
        assert forall i | 0 < i < |spans| :: spans[i] == rest[i - 1];
        forall i | 0 <= i < |spans| ensures cursor <= spans[i].start && SpanOf(normalized, visible[i], spans[i]) {
          if i > 0 { assert visible[i] == VisibleSegments(segments[1..])[i - 1]; }
        }
      }
    }
  }

  /** Between and around the spans there is only whitespace. */
  lemma {:induction false} InkIsInSpans(normalized: string, cursor: nat, segments: seq<SourceSegment>, spans: seq<Span>, p: nat)
    requires Placed(normalized, cursor, segments, spans)
    requires cursor <= p < |normalized| && !IsSpace(normalized[p])
    ensures exists i | 0 <= i < |spans| :: spans[i].start <= p < spans[i].end
    decreases |segments|
  {
    hide Normalized, IsSpace, AllSpace;
    if segments == [] {
      assert normalized[cursor..|normalized|] == normalized[cursor..];
      SliceNotBlank(normalized, cursor, |normalized|, p);
      assert false;
    } else if Normalized(segments[0].text) == "" {
      InkIsInSpans(normalized, cursor, segments[1..], spans, p);
    } else if p >= spans[0].end {
      InkIsInSpans(normalized, spans[0].end, segments[1..], spans[1..], p);
      var i :| 0 <= i < |spans[1..]| && spans[1..][i].start <= p < spans[1..][i].end;
      assert spans[i + 1] == spans[1..][i];
    } else if p < spans[0].start {
      SliceNotBlank(normalized, cursor, spans[0].start, p);
      assert false;
    }
  }

  // ---- Attribution says exactly which segments a chunk shares characters with ----

  predicate Inside(from: int, to: int, p: int) {
    from <= p < to
  }

  ghost predicate Shares(chunkStart: int, chunkEnd: int, span: Span) {
    exists p :: Inside(chunkStart, chunkEnd, p) && Inside(span.start, span.end, p)
  }

  lemma OverlapIsSharing(chunkStart: int, chunkEnd: int, span: Span)
    requires chunkStart < chunkEnd && span.start < span.end
    ensures chunkStart < span.end && chunkEnd > span.start <==> Shares(chunkStart, chunkEnd, span)
  {
    var p := Max(chunkStart, span.start);
    if chunkStart < span.end && chunkEnd > span.start {
      assert Inside(chunkStart, chunkEnd, p) && Inside(span.start, span.end, p);
    }
  }

  lemma {:induction false} OverlappingExactly(chunkStart: int, chunkEnd: int, spans: seq<Span>, m: SegmentMetadata)
    requires chunkStart < chunkEnd && forall i | 0 <= i < |spans| :: spans[i].start < spans[i].end
    ensures m in Overlapping(chunkStart, chunkEnd, spans) <==>
            exists i | 0 <= i < |spans| :: spans[i].metadata == m && Shares(chunkStart, chunkEnd, spans[i])
  {
    hide Shares;
    if spans != [] {
      var rest := spans[1..];
      OverlappingExactly(chunkStart, chunkEnd, rest, m);
      OverlapIsSharing(chunkStart, chunkEnd, spans[0]);
      if i :| 0 <= i < |rest| && rest[i].metadata == m && Shares(chunkStart, chunkEnd, rest[i]) {
        assert spans[i + 1] == rest[i];
      }
      if i :| 0 < i < |spans| && spans[i].metadata == m && Shares(chunkStart, chunkEnd, spans[i]) {
        assert rest[i - 1] == spans[i];
      }
    }
  }

  ghost predicate Increasing(pages: seq<int>) {
    forall i, j | 0 <= i < j < |pages| :: pages[i] < pages[j]
  }

  lemma {:induction false} InsertPageMembers(page: int, pages: seq<int>, q: int)
    ensures q in InsertPage(page, pages) <==> q == page || q in pages
  {
    if pages != [] && page > pages[0] {
      InsertPageMembers(page, pages[1..], q);
      assert q in pages <==> q == pages[0] || q in pages[1..];
    }
  }

  lemma IncreasingCons(first: int, rest: seq<int>)
    requires Increasing(rest) && forall q | q in rest :: first < q
    ensures Increasing([first] + rest)
  {
    var pages := [first] + rest;
    forall i, j | 0 <= i < j < |pages| ensures pages[i] < pages[j] {
      assert pages[j] == rest[j - 1] && rest[j - 1] in rest;
      assert i > 0 ==> pages[i] == rest[i - 1];
    }
  }

  lemma {:induction false} InsertPageIncreasing(page: int, pages: seq<int>)
    requires Increasing(pages)
    ensures Increasing(InsertPage(page, pages))
  {
    if pages == [] || page < pages[0] {
      IncreasingCons(page, pages);
    } else if page > pages[0] {
      var rest := InsertPage(page, pages[1..]);
      assert forall i | 0 <= i < |pages| - 1 :: pages[1..][i] == pages[i + 1];
      InsertPageIncreasing(page, pages[1..]);
      forall q | q in rest ensures pages[0] < q {
        InsertPageMembers(page, pages[1..], q);
      }
      IncreasingCons(pages[0], rest);
    }
  }

  lemma {:induction false} PagesExactly(metadata: seq<SegmentMetadata>)
    ensures Increasing(Pages(metadata))
    ensures forall q :: q in Pages(metadata) <==> exists m | m in metadata :: m.page == Some(q)
  {
    if metadata != [] {
      var rest := metadata[1..];
      PagesExactly(rest);
      assert forall m :: m in metadata <==> m == metadata[0] || m in rest;
      if metadata[0].page.Some? {
        var page := metadata[0].page.value;
        InsertPageIncreasing(page, Pages(rest));
        forall q ensures q in Pages(metadata) <==> q == page || q in Pages(rest) {
          InsertPageMembers(page, Pages(rest), q);
        }
      }
      forall q | exists m | m in metadata :: m.page == Some(q) ensures q in Pages(metadata) {
        var m :| m in metadata && m.page == Some(q);
        assert m == metadata[0] || m in rest;
      }
      forall q | q in Pages(metadata) ensures exists m | m in metadata :: m.page == Some(q) {
        if q in Pages(rest) {
          var m :| m in rest && m.page == Some(q);
          assert m in metadata;
        } else {
          assert metadata[0] in metadata;
        }
      }
    }
  }

  lemma {:induction false} SectionsExactly(metadata: seq<SegmentMetadata>)
    ensures forall i, j | 0 <= i < j < |Sections(metadata)| :: Sections(metadata)[i] != Sections(metadata)[j]
    ensures forall h :: h in Sections(metadata) <==> h != "" && exists m | m in metadata :: m.section == Some(h)
  {
    if metadata != [] {
      var n := |metadata| - 1;
      var rest, last := metadata[..n], metadata[n];
      SectionsExactly(rest);
      assert metadata == rest + [last];
      assert forall m :: m in metadata <==> m in rest || m == last;
      forall h | h != "" && exists m | m in metadata :: m.section == Some(h) ensures h in Sections(metadata) {
        var m :| m in metadata && m.section == Some(h);
        assert m in rest || m == last;
      }
      forall h | h in Sections(metadata) ensures h != "" && exists m | m in metadata :: m.section == Some(h) {
        if h in Sections(rest) {
          var m :| m in rest && m.section == Some(h);
          assert m in metadata;
        } else {
          assert last in metadata;
        }
      }
    }
  }

  /** A page is listed exactly when one of its spans shares a character with the chunk. */
  lemma PagesOfChunk(chunkStart: int, chunkEnd: int, spans: seq<Span>, page: int)
    requires chunkStart < chunkEnd && forall i | 0 <= i < |spans| :: spans[i].start < spans[i].end
    ensures page in Attribute(chunkStart, chunkEnd, spans).sourcePages <==>
            exists i | 0 <= i < |spans| :: spans[i].metadata.page == Some(page) && Shares(chunkStart, chunkEnd, spans[i])
  {
    hide Shares;
    var overlapping := Overlapping(chunkStart, chunkEnd, spans);
    PagesExactly(overlapping);
    if page in Pages(overlapping) {
      var m :| m in overlapping && m.page == Some(page);
      OverlappingExactly(chunkStart, chunkEnd, spans, m);
    }
    if i :| 0 <= i < |spans| && spans[i].metadata.page == Some(page) && Shares(chunkStart, chunkEnd, spans[i]) {
      OverlappingExactly(chunkStart, chunkEnd, spans, spans[i].metadata);
    }
  }

  /** A heading is listed exactly when it is not empty and one of its spans shares a character with the chunk. */
  lemma SectionsOfChunk(chunkStart: int, chunkEnd: int, spans: seq<Span>, heading: string)
    requires chunkStart < chunkEnd && forall i | 0 <= i < |spans| :: spans[i].start < spans[i].end
    ensures heading in Attribute(chunkStart, chunkEnd, spans).sourceSections <==>
            heading != "" && exists i | 0 <= i < |spans| ::
              spans[i].metadata.section == Some(heading) && Shares(chunkStart, chunkEnd, spans[i])
  {
    hide Shares;
    var overlapping := Overlapping(chunkStart, chunkEnd, spans);
    SectionsExactly(overlapping);
    if heading in Sections(overlapping) {
      var m :| m in overlapping && m.section == Some(heading);
      OverlappingExactly(chunkStart, chunkEnd, spans, m);
    }
    if i :| 0 <= i < |spans| && spans[i].metadata.section == Some(heading) && Shares(chunkStart, chunkEnd, spans[i]) {
      OverlappingExactly(chunkStart, chunkEnd, spans, spans[i].metadata);
    }
  }

  // The range is that of the listed pages.
  ghost predicate RangeOfPages(provenance: ChunkProvenance) {
    match provenance.pageRange
    case None => provenance.sourcePages == []
    case Some(bounds) =>
      && bounds.0 in provenance.sourcePages && bounds.1 in provenance.sourcePages
      && forall page | page in provenance.sourcePages :: bounds.0 <= page <= bounds.1
  }

  /** The pages are listed in order, the range is that of the smallest to the largest. */
  lemma RangeOfChunk(chunkStart: int, chunkEnd: int, spans: seq<Span>)
    ensures var provenance := Attribute(chunkStart, chunkEnd, spans);
      RangeOfPages(provenance) && Increasing(provenance.sourcePages)
  {
    PagesExactly(Overlapping(chunkStart, chunkEnd, spans));
    hide Overlapping, Pages, Sections;
  }

  // ---- The search for any segments, in the document or not ----

  function Cursor(from: nat, spans: seq<Span>): nat {
    if spans == [] then from else spans[|spans| - 1].end
  }

  lemma {:induction false} SpansAppend(normalized: string, segments: seq<SourceSegment>, segment: SourceSegment, from: nat)
    requires from <= |normalized|
    ensures var spans := Spans(normalized, segments, from);
      && Cursor(from, spans) <= |normalized|
      && Spans(normalized, segments + [segment], from) == spans + Spans(normalized, [segment], Cursor(from, spans))
    decreases |segments|
  {
    hide Normalized, Find;
    if segments == [] {
      assert [] + [segment] == [segment];
    } else {
      var rest, segmentText := segments[1..], Normalized(segments[0].text);
      assert (segments + [segment])[1..] == rest + [segment];
      var start := if segmentText == "" then -1 else Find(normalized, segmentText, from);
      SpansAppend(normalized, rest, segment, if start < 0 then from else start + |segmentText|);
    }
  }

  /**
    One more segment leaves the spans as they are; it gets one of its own at its first occurrence behind them, if there
    is one.
  */
  lemma OneMoreSegment(normalized: string, segments: seq<SourceSegment>, segment: SourceSegment)
    ensures var spans, more := Spans(normalized, segments, 0), Spans(normalized, segments + [segment], 0);
      var segmentText, cursor := Normalized(segment.text), Cursor(0, spans);
      if segmentText == "" || forall i | cursor <= i :: !OccursAt(normalized, segmentText, i) then more == spans
      else
        && |more| == |spans| + 1 && more[..|spans|] == spans
        && var last := more[|spans|];
           && last.metadata == segment.metadata && cursor <= last.start && last.end == last.start + |segmentText|
           && OccursAt(normalized, segmentText, last.start)
           && forall i | cursor <= i < last.start :: !OccursAt(normalized, segmentText, i)
  {
    hide Normalized, Find, OccursAt;
    SpansAppend(normalized, segments, segment, 0);
    var cursor, segmentText := Cursor(0, Spans(normalized, segments, 0)), Normalized(segment.text);
    assert Spans(normalized, [], cursor) == [];
    if segmentText != "" {
      FindIsFirst(normalized, segmentText, cursor);
    }
  }

  /** Of two listed headings the first is the one that occurs first. */
  lemma {:induction false} HeadingsInOrder(metadata: seq<SegmentMetadata>, i: nat, j: nat)
    requires i < j < |Sections(metadata)|
    ensures exists k: nat | k < |metadata| ::
      && metadata[k].section == Some(Sections(metadata)[i])
      && forall l: nat | l <= k :: metadata[l].section != Some(Sections(metadata)[j])
  {
    var n := |metadata| - 1;
    var rest := metadata[..n];
    SectionsExactly(rest);
    if j < |Sections(rest)| {
      HeadingsInOrder(rest, i, j);
      var k: nat :| k < |rest| && rest[k].section == Some(Sections(rest)[i])
                    && forall l: nat | l <= k :: rest[l].section != Some(Sections(rest)[j]);
      assert forall l: nat | l <= k :: metadata[l] == rest[l];
    } else {
      var earlier := Sections(rest)[i];
      assert earlier in Sections(rest);
      var m :| m in rest && m.section == Some(earlier);
      var k: nat :| k < |rest| && rest[k] == m;
      assert metadata[k] == m;
      forall l: nat | l <= k ensures metadata[l].section != Some(Sections(metadata)[j]) {
        assert metadata[l] == rest[l] && rest[l] in rest;
      }
    }
  }
}
