/**
  `chunk_text`: overlapping windows over the normalised text, each cut at a natural boundary
  and trimmed to the visible text inside it.
*/
module Chunking {
  import opened Collections
  import opened Normalization
  import opened Text
  import opened Wrappers

  datatype TextChunk = TextChunk(index: nat, content: string, startOffset: nat, endOffset: nat)

  datatype ChunkingError = NonPositiveChunkSize | OverlapOutOfRange

  datatype Window = Window(start: nat, end: nat)

  // Where a window that does not reach the end of the text may be cut: at its last blank line,
  // else its last line break, else its last space at or above `lo`; -1 when there is none.
  function Boundary(text: string, lo: nat, hi: nat): int
    requires lo <= hi <= |text|
  {
    var paragraph := RFind(text, "\n\n", lo, hi);
    if paragraph >= 0 then paragraph
    else
      var line := RFind(text, "\n", lo, hi);
      if line >= 0 then line else RFind(text, " ", lo, hi)
  }

  function HardEnd(text: string, start: nat, chunkSize: nat): nat {
    Min(start + chunkSize, |text|)
  }

  function WindowEnd(text: string, start: nat, chunkSize: nat): (end: nat)
    requires start < |text| && chunkSize > 0
    ensures start <= end <= HardEnd(text, start, chunkSize)
    ensures end < |text| ==> start + chunkSize / 2 <= end && start + chunkSize < |text|
  {
    var hard := HardEnd(text, start, chunkSize);
    if hard < |text| then
      var lo := Min(start + chunkSize / 2, hard);
      var boundary := Boundary(text, lo, hard);
      if boundary >= lo then boundary else hard
    else hard
  }

  // The boundary rule without `rfind`: a token is cut at its last place in the range, and only
  // when no token of higher rank occurs there at all.
  ghost predicate LastIn(text: string, token: string, lo: nat, hi: nat, at: int) {
    && lo <= at && at + |token| <= hi && OccursAt(text, token, at)
    && forall i | at < i && i + |token| <= hi :: !OccursAt(text, token, i)
  }

  ghost predicate NoneIn(text: string, token: string, lo: nat, hi: nat) {
    forall i | lo <= i && i + |token| <= hi :: !OccursAt(text, token, i)
  }

  /** Which cut the three searches choose. */
  lemma BoundaryRule(text: string, lo: nat, hi: nat)
    requires lo <= hi <= |text|
    ensures var b := Boundary(text, lo, hi);
      if !NoneIn(text, "\n\n", lo, hi) then LastIn(text, "\n\n", lo, hi, b)
      else if !NoneIn(text, "\n", lo, hi) then LastIn(text, "\n", lo, hi, b)
      else if !NoneIn(text, " ", lo, hi) then LastIn(text, " ", lo, hi, b)
      else b == -1
  {
    RFindIsLast(text, "\n\n", lo, hi);
    RFindIsLast(text, "\n", lo, hi);
    RFindIsLast(text, " ", lo, hi);
  }

  lemma BoundaryIsBlank(text: string, lo: nat, hi: nat)
    requires lo <= hi <= |text|
    ensures var b := Boundary(text, lo, hi); b == -1 || (lo <= b < hi && IsSpace(text[b]))
  {
    hide Boundary, OccursAt;
    var b := Boundary(text, lo, hi);
    BoundaryRule(text, lo, hi);
    if b != -1 {
      OccursFrom(text, "\n\n", b);
      OccursFrom(text, "\n", b);
      OccursFrom(text, " ", b);
    }
  }

  lemma OccursFrom(text: string, token: string, at: int)
    requires token != ""
    ensures OccursAt(text, token, at) ==> 0 <= at < |text| && text[at] == token[0]
  {
    if OccursAt(text, token, at) {
      assert text[at..at + |token|][0] == text[at];
    }
  }

  function NextStart(window: Window, overlap: nat): nat {
    Max(window.end - overlap, window.start + 1)
  }

  // The windows of the loop from `start` on.
  function Windows(text: string, chunkSize: nat, overlap: nat, start: nat): seq<Window>
    requires overlap < chunkSize
    decreases |text| - start
  {
    if start >= |text| then []
    else
      var window := Window(start, WindowEnd(text, start, chunkSize));
      if window.end >= |text| then [window]
      else [window] + Windows(text, chunkSize, overlap, NextStart(window, overlap))
  }

  // The visible part of a window; `text[from:to]` in Python, which is empty when `to < from`.
  function Slice(text: string, from: nat, to: nat): string
    requires to <= |text|
  {
    if from <= to then text[from..to] else ""
  }

  function ContentStart(text: string, window: Window): nat
    requires window.start <= window.end <= |text|
  {
    var candidate := text[window.start..window.end];
    window.start + (|candidate| - |LStrip(candidate)|)
  }

  function ContentEnd(text: string, window: Window): nat
    requires window.start <= window.end <= |text|
  {
    var candidate := text[window.start..window.end];
    window.end - (|candidate| - |RStrip(candidate)|)
  }

  // The chunk a window contributes, if it holds any visible text.
  function ChunkOf(text: string, window: Window, index: nat): seq<TextChunk>
    requires window.start <= window.end <= |text|
  {
    var from, to := ContentStart(text, window), ContentEnd(text, window);
    var content := Slice(text, from, to);
    if content == "" then [] else [TextChunk(index, content, from, to)]
  }

  function ChunksFrom(text: string, chunkSize: nat, overlap: nat, start: nat, index: nat): seq<TextChunk>
    requires overlap < chunkSize
    decreases |text| - start
  {
    if start >= |text| then []
    else
      var window := Window(start, WindowEnd(text, start, chunkSize));
      var chunk := ChunkOf(text, window, index);
      if window.end >= |text| then chunk
      else chunk + ChunksFrom(text, chunkSize, overlap, NextStart(window, overlap), index + |chunk|)
  }

  function Chunks(text: string, chunkSize: int, overlap: int): Result<seq<TextChunk>, ChunkingError> {
    if chunkSize <= 0 then Err(NonPositiveChunkSize)
    else if overlap < 0 || overlap >= chunkSize then Err(OverlapOutOfRange)
    else Ok(ChunksFrom(Normalized(text), chunkSize, overlap, 0, 0))
  }

  // The end of one window, searched tier by tier.
  method CutWindow(normalized: string, start: nat, chunkSize: nat) returns (end: nat)
    requires start < |normalized| && chunkSize > 0
    ensures end == WindowEnd(normalized, start, chunkSize)
  {
    hide RFind;
    var minimumBoundary := chunkSize / 2;
    end := Min(start + chunkSize, |normalized|);
    if end < |normalized| {
      var searchStart := Min(start + minimumBoundary, end);
      var boundary := RFind(normalized, "\n\n", searchStart, end);
      if boundary < 0 {
        boundary := RFind(normalized, "\n", searchStart, end);
      }
      if boundary < 0 {
        boundary := RFind(normalized, " ", searchStart, end);
      }
      if boundary >= searchStart {
        end := boundary;
      }
    }
  }

  // The visible part of one window, with its offsets.
  method TrimWindow(normalized: string, start: nat, end: nat, index: nat) returns (chunk: seq<TextChunk>)
    requires start <= end <= |normalized|
    ensures chunk == ChunkOf(normalized, Window(start, end), index)
  {
    hide SkipSpace, DropSpace, IsSpace;
    var candidate := normalized[start..end];
    var leadingCharacters := |candidate| - |LStrip(candidate)|;
    var trailingCharacters := |candidate| - |RStrip(candidate)|;
    var contentStart := start + leadingCharacters;
    var contentEnd := end - trailingCharacters;
    var content := Slice(normalized, contentStart, contentEnd);
    chunk := if content != "" then [TextChunk(index, content, contentStart, contentEnd)] else [];
  }

  /** The window loop. */
  method CollectChunks(normalized: string, chunkSize: nat, overlap: nat) returns (chunks: seq<TextChunk>)
    requires overlap < chunkSize
    ensures chunks == ChunksFrom(normalized, chunkSize, overlap, 0, 0)
  {
    hide ChunkOf, WindowEnd;
    chunks := [];
    var start := 0;
    ghost var all := ChunksFrom(normalized, chunkSize, overlap, 0, 0);
    while start < |normalized|
      invariant chunks + ChunksFrom(normalized, chunkSize, overlap, start, |chunks|) == all
    {
      var end := CutWindow(normalized, start, chunkSize);
      var chunk := TrimWindow(normalized, start, end, |chunks|);
      if end >= |normalized| {
        chunks := chunks + chunk;
        return;
      }
      var nextStart := Max(end - overlap, start + 1);
      ghost var rest := ChunksFrom(normalized, chunkSize, overlap, nextStart, |chunks| + |chunk|);
      Associative(chunks, chunk, rest);
      chunks := chunks + chunk;
      start := nextStart;
    }
    assert chunks + [] == chunks;
  }

  method ChunkText(text: string, chunkSize: int, overlap: int)
    returns (result: Result<seq<TextChunk>, ChunkingError>)
    ensures result == Chunks(text, chunkSize, overlap)
  {
    if chunkSize <= 0 {
      return Err(NonPositiveChunkSize);
    }
    if overlap < 0 || overlap >= chunkSize {
      return Err(OverlapOutOfRange);
    }
    var normalized := NormalizeText(text);
    if normalized == "" {
      return Ok([]);
    }
    var chunks := CollectChunks(normalized, chunkSize, overlap);
    result := Ok(chunks);
  }

  // ---- Windows never move backwards ----

  // A blank line starts with a line break.
  lemma ParagraphIsLine(text: string, at: int)
    requires OccursAt(text, "\n\n", at)
    ensures OccursAt(text, "\n", at)
  {
    assert text[at..at + 1] == text[at..at + 2][..1];
  }

  // A boundary found from a later start lies at or after the earlier window's end.
  lemma BoundaryAdvances(text: string, lo: nat, hi: nat, lo': nat, hi': nat)
    requires lo <= hi <= |text| && lo' <= hi' <= |text|
    requires lo <= lo' && hi <= hi'
    requires Boundary(text, lo', hi') >= 0
    ensures Boundary(text, lo', hi') >= if Boundary(text, lo, hi) >= 0 then Boundary(text, lo, hi) else hi
  {
    BoundaryRule(text, lo, hi);
    BoundaryRule(text, lo', hi');
    var p := Boundary(text, lo', hi');
    if OccursAt(text, "\n\n", p) {
      ParagraphIsLine(text, p);
    }
  }

  /** Starting later never ends earlier, whatever boundaries are chosen. */
  lemma WindowEndMonotone(text: string, chunkSize: nat, start: nat, later: nat)
    requires 0 < chunkSize && start <= later < |text|
    ensures WindowEnd(text, start, chunkSize) <= WindowEnd(text, later, chunkSize)
  {
    var hi, hi' := HardEnd(text, start, chunkSize), HardEnd(text, later, chunkSize);
    if hi' < |text| {
      var lo, lo' := Min(start + chunkSize / 2, hi), Min(later + chunkSize / 2, hi');
      if Boundary(text, lo', hi') >= 0 {
        BoundaryAdvances(text, lo, hi, lo', hi');
      }
    }
  }

  // What the loop keeps from one window to the next.
  ghost predicate Follows(earlier: Window, later: Window, overlap: nat) {
    && earlier.start < later.start
    && earlier.end <= later.end
    && later.start == NextStart(earlier, overlap)
  }

  /** Starts strictly increase, ends never retreat, and the windows reach the end of the text. */
  lemma {:induction false} WindowsAdvance(text: string, chunkSize: nat, overlap: nat, start: nat)
    requires overlap < chunkSize && start < |text|
    ensures var windows := Windows(text, chunkSize, overlap, start);
      && windows != [] && windows[0] == Window(start, WindowEnd(text, start, chunkSize))
      && windows[|windows| - 1].end == |text|
      && (forall i | 0 <= i < |windows| :: windows[i].start <= windows[i].end <= windows[i].start + chunkSize)
      && (forall i | 0 <= i < |windows| - 1 :: Follows(windows[i], windows[i + 1], overlap))
    decreases |text| - start
  {
    hide Boundary;
    var window := Window(start, WindowEnd(text, start, chunkSize));
    if window.end < |text| {
      var next := NextStart(window, overlap);
      var rest := Windows(text, chunkSize, overlap, next);
      WindowsAdvance(text, chunkSize, overlap, next);
      WindowEndMonotone(text, chunkSize, start, next);
      var windows := Windows(text, chunkSize, overlap, start);
      assert windows == [window] + rest;
      forall i | 0 <= i < |windows| - 1 ensures Follows(windows[i], windows[i + 1], overlap) {
        if i > 0 { assert windows[i] == rest[i - 1] && windows[i + 1] == rest[i]; }
      }
    }
  }

  // A character at which a window of size one is cut down to nothing.
  predicate Skipped(text: string, chunkSize: nat, p: nat) {
    chunkSize == 1 && p + 1 < |text| && (text[p] == '\n' || text[p] == ' ')
  }

  /** A window is empty exactly at a line break or space that a chunk size of one cannot pass. */
  lemma EmptyWindowExactlyWhen(text: string, start: nat, chunkSize: nat)
    requires start < |text| && 0 < chunkSize
    ensures WindowEnd(text, start, chunkSize) == start <==> Skipped(text, chunkSize, start)
  {
    var hard := HardEnd(text, start, chunkSize);
    var lo := Min(start + chunkSize / 2, hard);
    if chunkSize == 1 && hard < |text| {
      assert text[start..start + 1] == [text[start]];
      hide Boundary;
      BoundaryRule(text, lo, hard);
    }
  }

  // The next window starts after this one's end, leaving a gap, exactly when this one is empty.
  lemma GapExactlyAfterEmpty(window: Window, overlap: nat)
    requires window.start <= window.end
    ensures NextStart(window, overlap) <= window.end <==> window.start < window.end
    ensures window.start == window.end ==> NextStart(window, overlap) == window.end + 1
  {
  }

  lemma {:induction false} WindowsStartAt(text: string, chunkSize: nat, overlap: nat, start: nat)
    requires overlap < chunkSize
    ensures forall window | window in Windows(text, chunkSize, overlap, start) :: start <= window.start
    decreases |text| - start
  {
    hide WindowEnd, NextStart;
    if start < |text| {
      var window := Window(start, WindowEnd(text, start, chunkSize));
      if window.end < |text| {
        NextIsLater(window, overlap);
        WindowsStartAt(text, chunkSize, overlap, NextStart(window, overlap));
      }
    }
  }

  lemma NextIsLater(window: Window, overlap: nat)
    ensures window.start < NextStart(window, overlap)
  {
  }

  /** The windows reach every position but the skipped ones, which no window holds; those are blank. */
  lemma {:induction false} CoveredExactlyUnlessSkipped(text: string, chunkSize: nat, overlap: nat, start: nat, p: nat)
    requires overlap < chunkSize && start <= p < |text|
    ensures (exists window | window in Windows(text, chunkSize, overlap, start) :: window.start <= p < window.end)
            <==> !Skipped(text, chunkSize, p)
    ensures Skipped(text, chunkSize, p) ==> IsSpace(text[p])
    decreases |text| - start
  {
    hide Boundary;
    var window := Window(start, WindowEnd(text, start, chunkSize));
    EmptyWindowExactlyWhen(text, start, chunkSize);
    WindowEndBounds(text, start, chunkSize);
    hide WindowEnd, Skipped;
    var windows := Windows(text, chunkSize, overlap, start);
    assert window in windows by { assert windows[0] == window; }
    if window.end < |text| {
      var next := NextStart(window, overlap);
      var rest := Windows(text, chunkSize, overlap, next);
      assert windows == [window] + rest;
      WindowsStartAt(text, chunkSize, overlap, next);
      GapExactlyAfterEmpty(window, overlap);
      NextIsLater(window, overlap);
      if next <= p {
        CoveredExactlyUnlessSkipped(text, chunkSize, overlap, next, p);
      }
    }
    SkippedFacts(text, chunkSize, p);
  }

  lemma WindowEndBounds(text: string, start: nat, chunkSize: nat)
    requires start < |text| && 0 < chunkSize
    ensures start <= WindowEnd(text, start, chunkSize) <= start + chunkSize
    ensures WindowEnd(text, start, chunkSize) <= |text|
  {
  }

  lemma SkippedFacts(text: string, chunkSize: nat, p: nat)
    requires p < |text|
    ensures Skipped(text, chunkSize, p) ==> chunkSize == 1 && IsSpace(text[p])
  {
  }

  lemma FirstWindow(text: string, chunkSize: nat, overlap: nat, window: Window)
    requires overlap < chunkSize && window.start < |text| && window.end == WindowEnd(text, window.start, chunkSize)
    ensures Windows(text, chunkSize, overlap, window.start) ==
      [window] + if window.end >= |text| then [] else Windows(text, chunkSize, overlap, NextStart(window, overlap))
  {
    hide WindowEnd, NextStart;
  }

  lemma SizeOneWindows(text: string)
    requires |text| == 3 && Skipped(text, 1, 1) && !Skipped(text, 1, 0)
    ensures Windows(text, 1, 0, 0) == [Window(0, 1), Window(1, 1), Window(2, 3)]
  {
    hide WindowEnd, Windows;
    EmptyWindowExactlyWhen(text, 0, 1);
    EmptyWindowExactlyWhen(text, 1, 1);
    EmptyWindowExactlyWhen(text, 2, 1);
    WindowEndBounds(text, 0, 1);
    WindowEndBounds(text, 1, 1);
    WindowEndBounds(text, 2, 1);
    FirstWindow(text, 1, 0, Window(2, 3));
    FirstWindow(text, 1, 0, Window(1, 1));
    FirstWindow(text, 1, 0, Window(0, 1));
  }

  /**
    Such a gap exists: size one skips the space between two letters. The function accepts that size; the service's
    settings do not, they start at 200.
  */
  lemma SizeOneSkipsASpace()
    ensures Windows("a b", 1, 0, 0) == [Window(0, 1), Window(1, 1), Window(2, 3)]
    ensures Skipped("a b", 1, 1)
  {
    hide WindowEnd, Windows;
    SizeOneWindows("a b");
  }

  // Every window but the last moves the start at least this far.
  function Stride(chunkSize: nat, overlap: nat): nat {
    Max(1, chunkSize / 2 - overlap)
  }

  lemma {:induction false} WindowCount(text: string, chunkSize: nat, overlap: nat, start: nat)
    requires overlap < chunkSize && start < |text|
    ensures start + (|Windows(text, chunkSize, overlap, start)| - 1) * Stride(chunkSize, overlap) < |text|
    decreases |text| - start
  {
    hide Boundary;
    var window := Window(start, WindowEnd(text, start, chunkSize));
    if window.end < |text| {
      var next := NextStart(window, overlap);
      WindowCount(text, chunkSize, overlap, next);
      var k, stride := |Windows(text, chunkSize, overlap, next)| - 1, Stride(chunkSize, overlap);
      assert (k + 1) * stride == k * stride + stride;
    }
  }

  // ---- What one window contributes ----

  // `chunk` is exactly the visible part of `window`.
  ghost predicate VisiblePart(text: string, window: Window, chunk: TextChunk) {
    && window.start <= chunk.startOffset < chunk.endOffset <= window.end <= |text|
    && chunk.content == text[chunk.startOffset..chunk.endOffset]
    && Trimmed(chunk.content)
    && (forall p | window.start <= p < chunk.startOffset :: IsSpace(text[p]))
    && (forall p | chunk.endOffset <= p < window.end :: IsSpace(text[p]))
  }

  lemma StripBounds(candidate: string)
    ensures var lead, end := |candidate| - |LStrip(candidate)|, |RStrip(candidate)|;
      && (forall p | 0 <= p < lead :: IsSpace(candidate[p]))
      && (forall p | end <= p < |candidate| :: IsSpace(candidate[p]))
      && if AllSpace(candidate) then lead == |candidate| && end == 0
         else lead < end <= |candidate| && !IsSpace(candidate[lead]) && !IsSpace(candidate[end - 1])
  {
    if AllSpace(candidate) {
      SkipSpaceIs(candidate, |candidate|);
      DropSpaceIs(candidate, 0);
    } else {
      var v :| 0 <= v < |candidate| && !IsSpace(candidate[v]);
      assert SkipSpace(candidate, 0) <= v < DropSpace(candidate, |candidate|);
    }
  }

  // The same bounds as positions of the whole text.
  lemma ContentBounds(text: string, window: Window)
    requires window.start <= window.end <= |text|
    ensures var from, to := ContentStart(text, window), ContentEnd(text, window);
      && (forall p | window.start <= p < from <= window.end :: IsSpace(text[p]))
      && (forall p | window.start <= to <= p < window.end :: IsSpace(text[p]))
      && if AllSpace(text[window.start..window.end]) then from == window.end && to == window.start
         else window.start <= from < to <= window.end && !IsSpace(text[from]) && !IsSpace(text[to - 1])
  {
    var candidate := text[window.start..window.end];
    StripBounds(candidate);
    hide LStrip, RStrip, IsSpace, AllSpace;
    var from, to := ContentStart(text, window), ContentEnd(text, window);
    forall p | window.start <= p < from <= window.end ensures IsSpace(text[p]) {
      assert candidate[p - window.start] == text[p];
    }
    forall p | window.start <= to <= p < window.end ensures IsSpace(text[p]) {
      assert candidate[p - window.start] == text[p];
    }
  }

  lemma ChunkOfWindow(text: string, window: Window, index: nat)
    requires window.start <= window.end <= |text|
    ensures var chunk := ChunkOf(text, window, index);
      if AllSpace(text[window.start..window.end]) then chunk == []
      else |chunk| == 1 && chunk[0].index == index && VisiblePart(text, window, chunk[0])
  {
    ContentBounds(text, window);
    hide ContentStart, ContentEnd, IsSpace, AllSpace;
    assert ContentStart(text, window) < ContentEnd(text, window) ==>
        ChunkOf(text, window, index)[0].content[0] == text[ContentStart(text, window)];
  }

  // ---- The chunks of a text ----

  // An exact, non-empty, trimmed slice of at most `chunkSize` characters.
  ghost predicate IsSlice(text: string, chunkSize: nat, chunk: TextChunk) {
    && chunk.startOffset < chunk.endOffset <= |text|
    && chunk.endOffset - chunk.startOffset <= chunkSize
    && chunk.content == text[chunk.startOffset..chunk.endOffset]
    && Trimmed(chunk.content)
  }

  // Chunks never move backwards and a later one starts at most `overlap` before an earlier one ends.
  ghost predicate InOrder(earlier: TextChunk, later: TextChunk, overlap: nat) {
    && earlier.startOffset <= later.startOffset
    && earlier.endOffset <= later.endOffset
    && earlier.endOffset <= later.startOffset + overlap
  }

  // Seen from a window that starts at `start`, a chunk leaves nothing visible behind it.
  ghost predicate LeavesNothing(text: string, chunkSize: nat, start: nat, chunk: TextChunk)
    requires 0 < chunkSize && start < |text|
  {
    && start <= chunk.startOffset
    && forall p | chunk.endOffset <= p < WindowEnd(text, start, chunkSize) :: IsSpace(text[p])
  }

  lemma VisiblePartIsSlice(text: string, chunkSize: nat, window: Window, chunk: TextChunk)
    requires 0 < chunkSize && window.start < |text| && window.end == WindowEnd(text, window.start, chunkSize)
    requires VisiblePart(text, window, chunk)
    ensures IsSlice(text, chunkSize, chunk) && LeavesNothing(text, chunkSize, window.start, chunk)
  {
  }

  lemma LeavesNothingEarlier(text: string, chunkSize: nat, start: nat, later: nat, chunk: TextChunk)
    requires 0 < chunkSize && start <= later < |text|
    requires LeavesNothing(text, chunkSize, later, chunk)
    ensures LeavesNothing(text, chunkSize, start, chunk)
  {
    WindowEndMonotone(text, chunkSize, start, later);
  }

  lemma NextChunkInOrder(text: string, chunkSize: nat, overlap: nat, window: Window, first: TextChunk, later: TextChunk)
    requires overlap < chunkSize && window.start < |text| && window.end == WindowEnd(text, window.start, chunkSize)
    requires VisiblePart(text, window, first) && IsSlice(text, chunkSize, later)
    requires NextStart(window, overlap) < |text|
    requires LeavesNothing(text, chunkSize, NextStart(window, overlap), later)
    ensures InOrder(first, later, overlap)
  {
    var next := NextStart(window, overlap);
    WindowEndMonotone(text, chunkSize, window.start, next);
    hide WindowEnd, IsSpace;
    assert later.content[0] == text[later.startOffset];
    assert first.content[|first.content| - 1] == text[first.endOffset - 1];
  }

  lemma AtMostOneChunk(text: string, window: Window, index: nat)
    requires window.start <= window.end <= |text|
    ensures |ChunkOf(text, window, index)| <= 1
  {
    hide ContentStart, ContentEnd;
  }

  // One round of the loop.
  lemma ChunksFromStep(text: string, chunkSize: nat, overlap: nat, start: nat, index: nat)
    requires overlap < chunkSize && start < |text|
    ensures var window := Window(start, WindowEnd(text, start, chunkSize));
      var first, next := ChunkOf(text, window, index), NextStart(window, overlap);
      && |first| <= 1
      && (window.end < |text| ==> start < next < |text|)
      && ChunksFrom(text, chunkSize, overlap, start, index) ==
           if window.end >= |text| then first
           else first + ChunksFrom(text, chunkSize, overlap, next, index + |first|)
  {
    hide WindowEnd, ChunkOf;
    AtMostOneChunk(text, Window(start, WindowEnd(text, start, chunkSize)), index);
  }

  lemma FirstChunk(text: string, chunkSize: nat, start: nat, index: nat)
    requires 0 < chunkSize && start < |text|
    ensures var window := Window(start, WindowEnd(text, start, chunkSize));
      forall chunk | chunk in ChunkOf(text, window, index) ::
        && chunk.index == index && VisiblePart(text, window, chunk)
        && IsSlice(text, chunkSize, chunk) && LeavesNothing(text, chunkSize, start, chunk)
  {
    var window := Window(start, WindowEnd(text, start, chunkSize));
    ChunkOfWindow(text, window, index);
    hide WindowEnd, ChunkOf, IsSlice, LeavesNothing, VisiblePart, AllSpace;
    forall chunk | chunk in ChunkOf(text, window, index)
      ensures chunk.index == index && VisiblePart(text, window, chunk)
      ensures IsSlice(text, chunkSize, chunk) && LeavesNothing(text, chunkSize, start, chunk)
    {
      VisiblePartIsSlice(text, chunkSize, window, chunk);
    }
  }

  /** Every chunk is a trimmed slice, indexed in order. */
  lemma {:induction false} ChunksFromAreSound(text: string, chunkSize: nat, overlap: nat, start: nat, index: nat)
    requires overlap < chunkSize && start < |text|
    ensures var chunks := ChunksFrom(text, chunkSize, overlap, start, index);
      forall i | 0 <= i < |chunks| ::
        chunks[i].index == index + i && IsSlice(text, chunkSize, chunks[i])
        && LeavesNothing(text, chunkSize, start, chunks[i])
    decreases |text| - start
  {
    hide WindowEnd, ChunkOf, ChunksFrom, IsSlice, LeavesNothing, VisiblePart, NextStart;
    var window := Window(start, WindowEnd(text, start, chunkSize));
    var first := ChunkOf(text, window, index);
    var chunks := ChunksFrom(text, chunkSize, overlap, start, index);
    ChunksFromStep(text, chunkSize, overlap, start, index);
    FirstChunk(text, chunkSize, start, index);
    if window.end < |text| {
      var next := NextStart(window, overlap);
      var rest := ChunksFrom(text, chunkSize, overlap, next, index + |first|);
      ChunksFromAreSound(text, chunkSize, overlap, next, index + |first|);
      forall i | 0 <= i < |chunks|
        ensures chunks[i].index == index + i && IsSlice(text, chunkSize, chunks[i])
                && LeavesNothing(text, chunkSize, start, chunks[i])
      {
        if i >= |first| {
          assert chunks[i] == rest[i - |first|];
          LeavesNothingEarlier(text, chunkSize, start, next, chunks[i]);
        }
      }
    }
  }

  /** The chunks never move backwards. */
  lemma {:induction false} ChunksFromAreOrdered(text: string, chunkSize: nat, overlap: nat, start: nat, index: nat)
    requires overlap < chunkSize && start < |text|
    ensures var chunks := ChunksFrom(text, chunkSize, overlap, start, index);
      forall i, j | 0 <= i < j < |chunks| :: InOrder(chunks[i], chunks[j], overlap)
    decreases |text| - start
  {
    hide WindowEnd, ChunkOf, ChunksFrom, IsSlice, LeavesNothing, InOrder, VisiblePart, NextStart;
    var window := Window(start, WindowEnd(text, start, chunkSize));
    var first := ChunkOf(text, window, index);
    var chunks := ChunksFrom(text, chunkSize, overlap, start, index);
    ChunksFromStep(text, chunkSize, overlap, start, index);
    FirstChunk(text, chunkSize, start, index);
    if window.end < |text| {
      var next := NextStart(window, overlap);
      var rest := ChunksFrom(text, chunkSize, overlap, next, index + |first|);
      ChunksFromAreSound(text, chunkSize, overlap, next, index + |first|);
      ChunksFromAreOrdered(text, chunkSize, overlap, next, index + |first|);
      forall i, j | 0 <= i < j < |chunks| ensures InOrder(chunks[i], chunks[j], overlap) {
        assert chunks[j] == rest[j - |first|];
        if i < |first| {
          assert chunks[i] == first[0];
          NextChunkInOrder(text, chunkSize, overlap, window, first[0], chunks[j]);
        } else {
          assert chunks[i] == rest[i - |first|];
        }
      }
    }
  }

  // The visible characters of a window are in its chunk.
  lemma WindowCovered(text: string, window: Window, index: nat, p: nat)
    requires window.start <= p < window.end <= |text| && !IsSpace(text[p])
    ensures var first := ChunkOf(text, window, index);
      |first| == 1 && first[0].startOffset <= p < first[0].endOffset
  {
    SliceNotBlank(text, window.start, window.end, p);
    ChunkOfWindow(text, window, index);
    hide ChunkOf, IsSpace, AllSpace;
  }

  /** Every visible character at or after the start of the loop ends up in a chunk. */
  lemma {:induction false} ChunksFromCover(text: string, chunkSize: nat, overlap: nat, start: nat, index: nat, p: nat)
    requires overlap < chunkSize && start <= p < |text| && !IsSpace(text[p])
    ensures var chunks := ChunksFrom(text, chunkSize, overlap, start, index);
      exists i | 0 <= i < |chunks| :: chunks[i].startOffset <= p < chunks[i].endOffset
    decreases |text| - start
  {
    hide WindowEnd, ChunkOf, ChunksFrom, IsSpace;
    var window := Window(start, WindowEnd(text, start, chunkSize));
    var first := ChunkOf(text, window, index);
    var chunks := ChunksFrom(text, chunkSize, overlap, start, index);
    ChunksFromStep(text, chunkSize, overlap, start, index);
    if p < window.end {
      WindowCovered(text, window, index, p);
      assert chunks[0] == first[0];
    } else {
      WindowNotStuck(text, start, chunkSize);
      var next := NextStart(window, overlap);
      ChunksFromCover(text, chunkSize, overlap, next, index + |first|, p);
      var rest := ChunksFrom(text, chunkSize, overlap, next, index + |first|);
      var i :| 0 <= i < |rest| && rest[i].startOffset <= p < rest[i].endOffset;
      assert chunks[|first| + i] == rest[i];
    }
  }

  // An empty window (possible for a chunk size of one) skips a whitespace character only.
  lemma WindowNotStuck(text: string, start: nat, chunkSize: nat)
    requires start < |text| && 0 < chunkSize
    ensures WindowEnd(text, start, chunkSize) == start ==> IsSpace(text[start])
  {
    var hard := HardEnd(text, start, chunkSize);
    BoundaryIsBlank(text, Min(start + chunkSize / 2, hard), hard);
  }

  lemma {:induction false} AtMostOneChunkPerWindow(text: string, chunkSize: nat, overlap: nat, start: nat, index: nat)
    requires overlap < chunkSize
    ensures |ChunksFrom(text, chunkSize, overlap, start, index)| <= |Windows(text, chunkSize, overlap, start)|
    decreases |text| - start
  {
    hide WindowEnd, ContentStart, ContentEnd;
    if start < |text| {
      var window := Window(start, WindowEnd(text, start, chunkSize));
      if window.end < |text| {
        AtMostOneChunkPerWindow(text, chunkSize, overlap, NextStart(window, overlap),
                                index + |ChunkOf(text, window, index)|);
      }
    }
  }

  lemma NoTextNoChunks(chunkSize: nat, overlap: nat)
    requires overlap < chunkSize
    ensures ChunksFrom("", chunkSize, overlap, 0, 0) == []
  {
  }

  lemma ChunksDefined(text: string, chunkSize: int, overlap: int)
    ensures Chunks(text, chunkSize, overlap).Ok? <==> 0 <= overlap < chunkSize
  {
  }

  /** The chunks of any text, for any legal chunk size and overlap. */
  lemma ChunksAreSound(text: string, chunkSize: int, overlap: int)
    requires 0 <= overlap < chunkSize
    ensures Chunks(text, chunkSize, overlap).Ok?
    ensures var normalized, chunks := Normalized(text), Chunks(text, chunkSize, overlap).value;
      && (forall i | 0 <= i < |chunks| :: chunks[i].index == i && IsSlice(normalized, chunkSize, chunks[i]))
      && (forall i, j | 0 <= i < j < |chunks| :: InOrder(chunks[i], chunks[j], overlap))
  {
    hide Normalized, ChunksFrom, IsSlice, InOrder, LeavesNothing;
    if Normalized(text) == "" {
      NoTextNoChunks(chunkSize, overlap);
    } else {
      ChunksFromAreSound(Normalized(text), chunkSize, overlap, 0, 0);
      ChunksFromAreOrdered(Normalized(text), chunkSize, overlap, 0, 0);
      assert Chunks(text, chunkSize, overlap).value == ChunksFrom(Normalized(text), chunkSize, overlap, 0, 0);
    }
  }

  /** Nothing visible is lost by chunking. */
  lemma ChunksCoverInk(text: string, chunkSize: int, overlap: int, p: nat)
    requires 0 <= overlap < chunkSize && p < |Normalized(text)| && !IsSpace(Normalized(text)[p])
    ensures var chunks := Chunks(text, chunkSize, overlap).value;
      exists i | 0 <= i < |chunks| :: chunks[i].startOffset <= p < chunks[i].endOffset
  {
    hide Normalized, ChunksFrom, IsSpace;
    ChunksFromCover(Normalized(text), chunkSize, overlap, 0, 0, p);
    assert Chunks(text, chunkSize, overlap).value == ChunksFrom(Normalized(text), chunkSize, overlap, 0, 0);
  }

  /** How many chunks a text can give. */
  lemma ChunkCount(text: string, chunkSize: int, overlap: int)
    requires 0 <= overlap < chunkSize
    ensures var normalized, chunks := Normalized(text), Chunks(text, chunkSize, overlap).value;
      chunks != [] ==> (|chunks| - 1) * Stride(chunkSize, overlap) < |normalized|
  {
    hide Normalized, Windows, ChunksFrom, Stride;
    var normalized, chunks := Normalized(text), Chunks(text, chunkSize, overlap).value;
    if normalized == "" {
      NoTextNoChunks(chunkSize, overlap);
    } else {
      AtMostOneChunkPerWindow(normalized, chunkSize, overlap, 0, 0);
      WindowCount(normalized, chunkSize, overlap, 0);
      ProductMonotone(|chunks| - 1, |Windows(normalized, chunkSize, overlap, 0)| - 1, Stride(chunkSize, overlap));
    }
  }

  lemma ProductMonotone(a: int, b: int, c: nat)
    requires a <= b
    ensures a * c <= b * c
  {
  }

  // ---- The windows, stated on positions ----

  // A window's end: the text's end when it is in reach; else the last blank line, line break or space, in this order,
  // between the middle of the window and its full size; else the full size.
  ghost predicate CutAtBoundary(text: string, chunkSize: nat, window: Window) {
    var lo, hi := window.start + chunkSize / 2, window.start + chunkSize;
    if hi >= |text| then window.end == |text|
    else if !NoneIn(text, "\n\n", lo, hi) then LastIn(text, "\n\n", lo, hi, window.end)
    else if !NoneIn(text, "\n", lo, hi) then LastIn(text, "\n", lo, hi, window.end)
    else if !NoneIn(text, " ", lo, hi) then LastIn(text, " ", lo, hi, window.end)
    else window.end == hi
  }

  // The later window starts `overlap` before the end of the earlier one, or one further than it when that gets nowhere.
  ghost predicate StepsBack(earlier: Window, later: Window, overlap: nat) {
    later.start == if earlier.end - overlap > earlier.start then earlier.end - overlap else earlier.start + 1
  }

  ghost predicate SlideOver(text: string, chunkSize: nat, overlap: nat, start: nat, windows: seq<Window>) {
    && windows != [] && windows[0].start == start && windows[|windows| - 1].end == |text|
    && (forall i | 0 <= i < |windows| :: CutAtBoundary(text, chunkSize, windows[i]))
    && (forall i | 0 <= i < |windows| - 1 :: windows[i].end < |text| && StepsBack(windows[i], windows[i + 1], overlap))
  }

  lemma LastIsUnique(text: string, token: string, lo: nat, hi: nat)
    ensures forall a, b | LastIn(text, token, lo, hi, a) && LastIn(text, token, lo, hi, b) :: a == b
    ensures forall a | LastIn(text, token, lo, hi, a) :: !NoneIn(text, token, lo, hi) && lo <= a
  {
    hide OccursAt;
    forall a, b | LastIn(text, token, lo, hi, a) && LastIn(text, token, lo, hi, b) ensures a == b {
    }
  }

  lemma BoundaryIsTheCut(text: string, lo: nat, hi: nat, at: nat)
    requires lo <= hi <= |text|
    ensures (if !NoneIn(text, "\n\n", lo, hi) then LastIn(text, "\n\n", lo, hi, at)
             else if !NoneIn(text, "\n", lo, hi) then LastIn(text, "\n", lo, hi, at)
             else if !NoneIn(text, " ", lo, hi) then LastIn(text, " ", lo, hi, at)
             else at == hi)
            <==> at == if Boundary(text, lo, hi) >= lo then Boundary(text, lo, hi) else hi
  {
    hide Boundary, LastIn, NoneIn;
    BoundaryRule(text, lo, hi);
    LastIsUnique(text, "\n\n", lo, hi);
    LastIsUnique(text, "\n", lo, hi);
    LastIsUnique(text, " ", lo, hi);
  }

  lemma WindowEndIsTheCut(text: string, chunkSize: nat, window: Window)
    requires window.start < |text| && 0 < chunkSize
    ensures CutAtBoundary(text, chunkSize, window) <==> window.end == WindowEnd(text, window.start, chunkSize)
  {
    hide Boundary, LastIn, NoneIn;
    if window.start + chunkSize < |text| {
      BoundaryIsTheCut(text, window.start + chunkSize / 2, window.start + chunkSize, window.end);
    }
  }

  lemma NextStepsBack(earlier: Window, overlap: nat, later: Window)
    ensures StepsBack(earlier, later, overlap) <==> later.start == NextStart(earlier, overlap)
  {
  }

  /** The windows are the one sequence cut and overlapped that way. */
  lemma {:induction false} WindowsAreExactly(text: string, chunkSize: nat, overlap: nat, start: nat, windows: seq<Window>)
    requires overlap < chunkSize && start < |text|
    ensures SlideOver(text, chunkSize, overlap, start, windows) <==> windows == Windows(text, chunkSize, overlap, start)
    decreases |text| - start
  {
    hide WindowEnd, CutAtBoundary, NextStart, StepsBack, SlideOver;
    var window := Window(start, WindowEnd(text, start, chunkSize));
    WindowEndIsTheCut(text, chunkSize, window);
    if windows == [] || windows[0] != window {
      WrongStart(text, chunkSize, overlap, window, windows);
    } else if window.end >= |text| {
      LastSlides(text, chunkSize, overlap, window, windows);
    } else {
      var next := NextStart(window, overlap);
      NextIsLater(window, overlap);
      ChunksFromStep(text, chunkSize, overlap, start, 0);
      WindowsAreExactly(text, chunkSize, overlap, next, windows[1..]);
      RestSlides(text, chunkSize, overlap, window, windows);
    }
  }

  lemma WrongStart(text: string, chunkSize: nat, overlap: nat, window: Window, windows: seq<Window>)
    requires overlap < chunkSize && window.start < |text| && CutAtBoundary(text, chunkSize, window)
    requires windows == [] || windows[0] != window
    ensures !SlideOver(text, chunkSize, overlap, window.start, windows)
    ensures windows != Windows(text, chunkSize, overlap, window.start)
  {
    hide WindowEnd, CutAtBoundary, NextStart, StepsBack;
    WindowEndIsTheCut(text, chunkSize, window);
    if windows != [] && windows[0].start == window.start {
      WindowEndIsTheCut(text, chunkSize, windows[0]);
    }
  }

  lemma LastSlides(text: string, chunkSize: nat, overlap: nat, window: Window, windows: seq<Window>)
    requires windows != [] && windows[0] == window && window.end == |text| && CutAtBoundary(text, chunkSize, window)
    ensures SlideOver(text, chunkSize, overlap, window.start, windows) <==> windows == [window]
  {
    hide CutAtBoundary, StepsBack;
  }

  lemma RestSlides(text: string, chunkSize: nat, overlap: nat, window: Window, windows: seq<Window>)
    requires windows != [] && windows[0] == window && window.end < |text| && CutAtBoundary(text, chunkSize, window)
    ensures SlideOver(text, chunkSize, overlap, window.start, windows) <==>
      SlideOver(text, chunkSize, overlap, NextStart(window, overlap), windows[1..])
  {
    hide CutAtBoundary;
    if |windows| > 1 {
      NextStepsBack(window, overlap, windows[1]);
    }
    hide StepsBack, NextStart;
    var rest := windows[1..];
    forall i | 0 < i < |windows| ensures windows[i] == rest[i - 1] {
    }
    if SlideOver(text, chunkSize, overlap, NextStart(window, overlap), rest) {
      forall i | 0 <= i < |windows| ensures CutAtBoundary(text, chunkSize, windows[i]) {
        assert i > 0 ==> windows[i] == rest[i - 1];
      }
      forall i | 0 <= i < |windows| - 1 ensures windows[i].end < |text| && StepsBack(windows[i], windows[i + 1], overlap) {
        assert i > 0 ==> windows[i] == rest[i - 1];
      }
    }
  }

  predicate InText(text: string, windows: seq<Window>) {
    forall i | 0 <= i < |windows| :: windows[i].start <= windows[i].end <= |text|
  }

  // The visible parts of the windows, numbered in order.
  function VisibleParts(text: string, windows: seq<Window>, index: nat): seq<TextChunk>
    requires InText(text, windows)
  {
    if windows == [] then []
    else
      var first := ChunkOf(text, windows[0], index);
      first + VisibleParts(text, windows[1..], index + |first|)
  }

  /** The chunks are the visible parts of the windows. */
  lemma {:induction false} ChunksAreVisibleParts(text: string, chunkSize: nat, overlap: nat, start: nat, index: nat)
    requires overlap < chunkSize
    ensures var windows := Windows(text, chunkSize, overlap, start);
      InText(text, windows) && ChunksFrom(text, chunkSize, overlap, start, index) == VisibleParts(text, windows, index)
    decreases |text| - start
  {
    hide WindowEnd, ChunkOf, NextStart;
    if start < |text| {
      ChunksFromStep(text, chunkSize, overlap, start, index);
      var window := Window(start, WindowEnd(text, start, chunkSize));
      var first := ChunkOf(text, window, index);
      if window.end >= |text| {
        assert VisibleParts(text, [window], index) == first + [];
      } else {
        var next := NextStart(window, overlap);
        ChunksAreVisibleParts(text, chunkSize, overlap, next, index + |first|);
        var windows := Windows(text, chunkSize, overlap, start);
        assert windows[1..] == Windows(text, chunkSize, overlap, next);
      }
    }
  }

  ghost predicate InTwo(chunks: seq<TextChunk>, p: nat) {
    exists a, b | 0 <= a < b < |chunks| ::
      && chunks[a].startOffset <= p < chunks[a].endOffset
      && chunks[b].startOffset <= p < chunks[b].endOffset
  }

  /** What is visible among a window's last `overlap` positions is in its chunk and in a later one again. */
  lemma {:induction false} OverlapIsRepeated(text: string, chunkSize: nat, overlap: nat, start: nat, index: nat, i: nat, p: nat)
    requires overlap < chunkSize && i < |Windows(text, chunkSize, overlap, start)|
    requires var window := Windows(text, chunkSize, overlap, start)[i];
      window.end < |text| && window.start < p < window.end && window.end - overlap <= p && !IsSpace(text[p])
    ensures InTwo(ChunksFrom(text, chunkSize, overlap, start, index), p)
    decreases |text| - start
  {
    hide WindowEnd, ChunkOf, ChunksFrom, IsSpace, InTwo;
    var window := Window(start, WindowEnd(text, start, chunkSize));
    var first, next := ChunkOf(text, window, index), NextStart(window, overlap);
    var chunks, rest := ChunksFrom(text, chunkSize, overlap, start, index), ChunksFrom(text, chunkSize, overlap, next, index + |first|);
    ChunksFromStep(text, chunkSize, overlap, start, index);
    if i == 0 {
      hide Windows;
      WindowCovered(text, window, index, p);
      ChunksFromCover(text, chunkSize, overlap, next, index + |first|, p);
      var j :| 0 <= j < |rest| && rest[j].startOffset <= p < rest[j].endOffset;
      InTwoHere(chunks, p, 0, 1 + j);
    } else {
      OverlapIsRepeated(text, chunkSize, overlap, next, index + |first|, i - 1, p);
      InTwoLater(first, rest, p);
    }
  }

  lemma InTwoHere(chunks: seq<TextChunk>, p: nat, a: nat, b: nat)
    requires a < b < |chunks|
    requires chunks[a].startOffset <= p < chunks[a].endOffset && chunks[b].startOffset <= p < chunks[b].endOffset
    ensures InTwo(chunks, p)
  {
  }

  lemma InTwoLater(first: seq<TextChunk>, rest: seq<TextChunk>, p: nat)
    requires InTwo(rest, p)
    ensures InTwo(first + rest, p)
  {
    var a, b :| 0 <= a < b < |rest| && rest[a].startOffset <= p < rest[a].endOffset
                && rest[b].startOffset <= p < rest[b].endOffset;
    InTwoHere(first + rest, p, |first| + a, |first| + b);
  }

  /** The whole algorithm on positions: any windows cut and overlapped that way give the chunks, overlaps repeated. */
  lemma ChunksOfSlidingWindows(text: string, chunkSize: int, overlap: int, windows: seq<Window>)
    requires 0 <= overlap < chunkSize && Normalized(text) != ""
    requires SlideOver(Normalized(text), chunkSize, overlap, 0, windows)
    ensures var normalized, chunks := Normalized(text), Chunks(text, chunkSize, overlap).value;
      && InText(normalized, windows) && chunks == VisibleParts(normalized, windows, 0)
      && forall i, p: nat | 0 <= i < |windows| - 1 && windows[i].start < p < windows[i].end
                          && windows[i].end - overlap <= p && !IsSpace(normalized[p]) :: InTwo(chunks, p)
  {
    hide Normalized, Windows, ChunksFrom, VisibleParts, IsSpace, CutAtBoundary, StepsBack, InTwo;
    var normalized := Normalized(text);
    WindowsAreExactly(normalized, chunkSize, overlap, 0, windows);
    ChunksAreVisibleParts(normalized, chunkSize, overlap, 0, 0);
    assert Chunks(text, chunkSize, overlap).value == ChunksFrom(normalized, chunkSize, overlap, 0, 0);
    forall i, p: nat | 0 <= i < |windows| - 1 && windows[i].start < p < windows[i].end
                       && windows[i].end - overlap <= p && !IsSpace(normalized[p])
      ensures InTwo(ChunksFrom(normalized, chunkSize, overlap, 0, 0), p)
    {
      OverlapIsRepeated(normalized, chunkSize, overlap, 0, 0, i, p);
    }
  }
}
