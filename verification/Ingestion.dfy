/**
  `KnowledgeIngestionService.ingest`: one transaction that normalises a document, chunks it,
  embeds the chunks and stores everything, or nothing.
*/
module Ingestion {
  import opened Chunking
  import opened Normalization
  import opened Provenance
  import opened Text
  import opened Wrappers

  type DocumentId = nat
  type Vector = seq<real>
  type ContentHash = string

  datatype Document = Document(id: DocumentId, title: string, content: string, contentHash: ContentHash)

  datatype EmbeddedChunk = EmbeddedChunk(
    chunkIndex: nat, content: string, embedding: Vector, provenance: ChunkProvenance)

  datatype IngestionError = EmptyDocument | Chunker(reason: ChunkingError) | EmbeddingFailed(message: string) | InvalidEmbedding

  datatype IngestionResult = IngestionResult(document: Document, chunkCount: nat, duplicate: bool)

  function Contents(chunks: seq<TextChunk>): seq<string> {
    seq(|chunks|, i requires 0 <= i < |chunks| => chunks[i].content)
  }

  // The rows stored for the chunks of one document.
  function Embedded(chunks: seq<TextChunk>, vectors: seq<Vector>, spans: seq<Span>): seq<EmbeddedChunk>
    requires |vectors| == |chunks|
  {
    seq(|chunks|, i requires 0 <= i < |chunks| =>
      EmbeddedChunk(chunks[i].index, chunks[i].content, vectors[i],
                    Attribute(chunks[i].startOffset, chunks[i].endOffset, spans)))
  }

  // The earliest stored document with the given hash.
  function FindByHash(documents: seq<Document>, contentHash: ContentHash): Option<Document> {
    if documents == [] then None
    else if documents[0].contentHash == contentHash then Some(documents[0])
    else FindByHash(documents[1..], contentHash)
  }

  // What a successful call answers, and the tables it leaves.
  datatype Ingested = Ingested(
    result: IngestionResult, documents: seq<Document>, chunks: map<DocumentId, seq<EmbeddedChunk>>)

  // The service's configuration.
  datatype Setup = Setup(
    chunkSize: int, chunkOverlap: int, hash: string -> ContentHash, embed: seq<string> -> Result<seq<Vector>, string>)

  // `list_by_document`.
  function ChunksOf(chunks: map<DocumentId, seq<EmbeddedChunk>>, id: DocumentId): seq<EmbeddedChunk> {
    if id in chunks then chunks[id] else []
  }

  /** The outcome of a call on given tables, each way it can end in the order in which it is decided. */
  function Outcome(setup: Setup, documents: seq<Document>, chunks: map<DocumentId, seq<EmbeddedChunk>>, id: DocumentId,
                   title: string, content: string, deduplicate: bool, segments: seq<SourceSegment>)
    : Result<Ingested, IngestionError>
  {
    var normalized := Normalized(content);
    var contentHash := setup.hash(normalized);
    var existing := if deduplicate then FindByHash(documents, contentHash) else None;
    if normalized == "" then Err(EmptyDocument)
    else if existing.Some? then
      Ok(Ingested(IngestionResult(existing.value, |ChunksOf(chunks, existing.value.id)|, true), documents, chunks))
    else
      match Chunks(normalized, setup.chunkSize, setup.chunkOverlap)
      case Err(reason) => Err(Chunker(reason))
      case Ok(textChunks) =>
        match setup.embed(Contents(textChunks))
        case Err(message) => Err(EmbeddingFailed(message))
        case Ok(vectors) =>
          if |vectors| != |textChunks| then Err(InvalidEmbedding)
          else
            var document := Document(id, title, normalized, contentHash);
            Ok(Ingested(IngestionResult(document, |textChunks|, false), documents + [document],
                        chunks[id := Embedded(textChunks, vectors, Spans(normalized, segments, 0))]))
  }

  class KnowledgeIngestion {
    // SHA-256 and the embedding provider are the functions they are to this service.
    const setup: Setup

    // The session's view of the tables, in creation order, and the last committed state.
    var documents: seq<Document>
    var chunks: map<DocumentId, seq<EmbeddedChunk>>
    var committedDocuments: seq<Document>
    var committedChunks: map<DocumentId, seq<EmbeddedChunk>>

    // Nothing is pending, and every stored document has its chunk rows.
    ghost predicate Clean()
      reads this
    {
      && documents == committedDocuments && chunks == committedChunks
      && forall i | 0 <= i < |documents| :: documents[i].id in chunks
    }

    constructor (setup: Setup)
      ensures Clean() && documents == [] && chunks == map[] && this.setup == setup
    {
      this.setup := setup;
      documents, committedDocuments := [], [];
      chunks, committedChunks := map[], map[];
    }

    method Commit()
      modifies `committedDocuments, `committedChunks
      ensures committedDocuments == documents && committedChunks == chunks
    {
      committedDocuments, committedChunks := documents, chunks;
    }

    method Rollback()
      modifies `documents, `chunks
      ensures documents == committedDocuments && chunks == committedChunks
    {
      documents, chunks := committedDocuments, committedChunks;
    }

    /** Either the whole document is stored and committed, or the store is as it was before. */
    method Ingest(id: DocumentId, title: string, content: string, deduplicate: bool, segments: seq<SourceSegment>)
      returns (result: Result<IngestionResult, IngestionError>)
      requires Clean() && id !in chunks
      modifies this
      ensures Clean()
      ensures match Outcome(setup, old(documents), old(chunks), id, title, content, deduplicate, segments)
        case Err(e) => result == Err(e) && documents == old(documents) && chunks == old(chunks)
        case Ok(done) => result == Ok(done.result) && documents == done.documents && chunks == done.chunks
    {
      hide Normalized, Spans, Chunks, IsSpace, AllSpace;
      NormalizedLayout(content);
      var normalized := NormalizeText(content);
      if normalized == "" {
        return Err(EmptyDocument);
      }
      var contentHash := setup.hash(normalized);
      if deduplicate {
        var existing := FindByHash(documents, contentHash);
        if existing.Some? {
          return Ok(IngestionResult(existing.value, |ChunksOf(chunks, existing.value.id)|, true));
        }
      }
      var document := Document(id, title, normalized, contentHash);
      documents := documents + [document];

      var chunking := ChunkText(normalized, setup.chunkSize, setup.chunkOverlap);
      if chunking.Err? {
        Rollback();
        return Err(Chunker(chunking.error));
      }
      var textChunks := chunking.value;
      ChunksDefined(normalized, setup.chunkSize, setup.chunkOverlap);
      if textChunks == [] {
        VisibleTextHasChunks(content, setup.chunkSize, setup.chunkOverlap);
        assert false;
      }
      var vectors := setup.embed(Contents(textChunks));
      if vectors.Err? {
        Rollback();
        return Err(EmbeddingFailed(vectors.error));
      }
      if |vectors.value| != |textChunks| {
        Rollback();
        return Err(InvalidEmbedding);
      }
      var spans := BuildProvenanceSpans(normalized, segments);
      var embeddedChunks := Embedded(textChunks, vectors.value, spans);
      chunks := chunks[id := embeddedChunks];
      Commit();
      return Ok(IngestionResult(document, |embeddedChunks|, false));
    }
  }

  /** Exactly when a call stores the document. */
  lemma StoresExactlyWhen(setup: Setup, documents: seq<Document>, chunks: map<DocumentId, seq<EmbeddedChunk>>,
                          id: DocumentId, title: string, content: string, deduplicate: bool, segments: seq<SourceSegment>)
    ensures var outcome := Outcome(setup, documents, chunks, id, title, content, deduplicate, segments);
      var known := deduplicate && FindByHash(documents, setup.hash(Normalized(content))).Some?;
      && (outcome == Err(EmptyDocument) <==> AllSpace(content))
      && (outcome.Ok? && outcome.value.result.duplicate <==> !AllSpace(content) && known)
      && (outcome.Ok? && !outcome.value.result.duplicate <==>
            && !AllSpace(content) && !known && 0 <= setup.chunkOverlap < setup.chunkSize
            && var contents := Contents(Chunks(Normalized(content), setup.chunkSize, setup.chunkOverlap).value);
               setup.embed(contents).Ok? && |setup.embed(contents).value| == |contents|)
  {
    NormalizedLayout(content);
    ChunksDefined(Normalized(content), setup.chunkSize, setup.chunkOverlap);
    hide Normalized, Spans, Chunks, AllSpace, CleanLayout, Embedded, FindByHash;
  }

  /** A deduplicated document is stored with its chunks; offered again, under any id, title or layout, it is recognised. */
  lemma ReuploadIsADuplicate(setup: Setup, documents: seq<Document>, chunks: map<DocumentId, seq<EmbeddedChunk>>,
                             id: DocumentId, title: string, content: string, segments: seq<SourceSegment>,
                             later: DocumentId, otherTitle: string, again: string, others: seq<SourceSegment>)
    requires Normalized(again) == Normalized(content)
    requires Outcome(setup, documents, chunks, id, title, content, true, segments).Ok?
    ensures var first := Outcome(setup, documents, chunks, id, title, content, true, segments).value;
      && first.result.document in first.documents
      && Outcome(setup, first.documents, first.chunks, later, otherTitle, again, true, others)
         == Ok(Ingested(first.result.(duplicate := true), first.documents, first.chunks))
  {
    hide Normalized, Spans, Chunks;
    var contentHash := setup.hash(Normalized(content));
    var first := Outcome(setup, documents, chunks, id, title, content, true, segments).value;
    if FindByHash(documents, contentHash).Some? {
      FoundIsStored(documents, contentHash);
    } else {
      FoundLast(documents, first.result.document, contentHash);
    }
  }

  lemma {:induction false} FoundLast(documents: seq<Document>, document: Document, contentHash: ContentHash)
    requires FindByHash(documents, contentHash).None? && document.contentHash == contentHash
    ensures FindByHash(documents + [document], contentHash) == Some(document)
  {
    if documents != [] {
      FoundLast(documents[1..], document, contentHash);
      assert (documents + [document])[1..] == documents[1..] + [document];
    }
  }

  lemma {:induction false} FoundIsStored(documents: seq<Document>, contentHash: ContentHash)
    requires FindByHash(documents, contentHash).Some?
    ensures FindByHash(documents, contentHash).value in documents
    ensures FindByHash(documents, contentHash).value.contentHash == contentHash
  {
    if documents[0].contentHash != contentHash {
      FoundIsStored(documents[1..], contentHash);
    }
  }

  /** A document is recognised by its hash, the earliest one with it. */
  lemma {:induction false} FoundIsEarliest(documents: seq<Document>, contentHash: ContentHash)
    ensures match FindByHash(documents, contentHash)
      case None => forall i | 0 <= i < |documents| :: documents[i].contentHash != contentHash
      case Some(document) => exists i | 0 <= i < |documents| ::
        && documents[i] == document && document.contentHash == contentHash
        && forall j | 0 <= j < i :: documents[j].contentHash != contentHash
  {
    if documents != [] && documents[0].contentHash != contentHash {
      var rest := documents[1..];
      FoundIsEarliest(rest, contentHash);
      if FindByHash(rest, contentHash).Some? {
        var i :| 0 <= i < |rest| && rest[i] == FindByHash(rest, contentHash).value
                 && forall j | 0 <= j < i :: rest[j].contentHash != contentHash;
        assert documents[i + 1] == rest[i];
        assert forall j | 0 < j < i + 1 :: documents[j] == rest[j - 1];
      } else {
        assert forall i | 0 < i < |documents| :: documents[i] == rest[i - 1];
      }
    }
  }

  /** The second emptiness check of the service can never fire. */
  lemma VisibleTextHasChunks(content: string, chunkSize: int, overlap: int)
    requires Normalized(content) != "" && 0 <= overlap < chunkSize
    ensures Chunks(Normalized(content), chunkSize, overlap).value != []
  {
    NormalizationIsIdempotent(content);
    NormalizedLayout(content);
    hide Normalized, Chunks, IsSpace, CleanLayout;
    ChunksCoverInk(Normalized(content), chunkSize, overlap, 0);
  }

  // ---- The stored chunks are attributed to the right pages ----

  // The provenance names the pages and headings of the chunk, all of them and no others, and the range of the pages.
  ghost predicate Describes(provenance: ChunkProvenance, normalized: string, visible: seq<SourceSegment>, spans: seq<Span>,
                            chunk: TextChunk)
    requires |spans| == |visible|
  {
    && ListsEveryPage(normalized, visible, spans, chunk, provenance) && ListsNoOtherPage(visible, spans, chunk, provenance)
    && ListsEveryHeading(normalized, visible, spans, chunk, provenance) && ListsNoOtherHeading(visible, spans, chunk, provenance)
    && RangeOfPages(provenance)
  }

  /**
    For a document made of its segments: whatever the chunk size and overlap, every visible
    character of a chunk has the page and the heading of its segment listed, and every listed page
    or heading belongs to a segment that shares a character position with the chunk.
  */
  lemma ChunksAreAttributed(segments: seq<SourceSegment>, chunkSize: int, overlap: int)
    requires 0 <= overlap < chunkSize
    ensures var normalized := Normalized(Join(PARAGRAPH, Texts(segments)));
      var spans, visible := Spans(normalized, segments, 0), VisibleSegments(segments);
      && |spans| == |visible|
      && (forall i | 0 <= i < |spans| :: SpanOf(normalized, visible[i], spans[i]))
      && forall chunk | chunk in Chunks(normalized, chunkSize, overlap).value ::
           && IsSlice(normalized, chunkSize, chunk)
           && Describes(Attribute(chunk.startOffset, chunk.endOffset, spans), normalized, visible, spans, chunk)
  {
    hide Normalized, Chunks, Spans, Placed, IsSlice, ListsEveryPage, ListsNoOtherPage, ListsEveryHeading,
         ListsNoOtherHeading, RangeOfPages, SpanOf, VisibleSegments, Attribute;
    var content := Join(PARAGRAPH, Texts(segments));
    var normalized := Normalized(content);
    SegmentsAreFoundExactly(segments);
    NormalizationIsIdempotent(content);
    var spans, visible := Spans(normalized, segments, 0), VisibleSegments(segments);
    PlacedSpans(normalized, 0, segments, spans);
    ChunksAreSound(normalized, chunkSize, overlap);
    var chunks := Chunks(normalized, chunkSize, overlap).value;
    assert forall i | 0 <= i < |chunks| :: IsSlice(normalized, chunkSize, chunks[i]);
    forall chunk | chunk in chunks
      ensures IsSlice(normalized, chunkSize, chunk)
      ensures Describes(Attribute(chunk.startOffset, chunk.endOffset, spans), normalized, visible, spans, chunk)
    {
      EveryHeadingListed(normalized, segments, spans, chunk);
      SliceNotEmpty(normalized, chunkSize, chunk);
      NoOtherHeadingListed(normalized, segments, spans, chunk);
      EveryPageListed(normalized, segments, spans, chunk);
      NoOtherPageListed(normalized, segments, spans, chunk);
      RangeOfChunk(chunk.startOffset, chunk.endOffset, spans);
    }
  }

  /** What a call that stores puts into the tables, row by row. */
  lemma WhatIsStored(setup: Setup, documents: seq<Document>, chunks: map<DocumentId, seq<EmbeddedChunk>>, id: DocumentId,
                     title: string, content: string, deduplicate: bool, segments: seq<SourceSegment>, done: Ingested,
                     texts: seq<TextChunk>, contents: seq<string>)
    requires Outcome(setup, documents, chunks, id, title, content, deduplicate, segments) == Ok(done)
    requires !done.result.duplicate && Chunks(Normalized(content), setup.chunkSize, setup.chunkOverlap) == Ok(texts)
    requires |contents| == |texts| && forall i | 0 <= i < |contents| :: contents[i] == texts[i].content
    ensures var document := Document(id, title, Normalized(content), setup.hash(Normalized(content)));
      done.documents == documents + [document] && done.result.document == document
    ensures done.chunks.Keys == chunks.Keys + {id}
    ensures forall other | other in chunks && other != id :: done.chunks[other] == chunks[other]
    ensures done.result.chunkCount == |done.chunks[id]| == |contents|
    ensures setup.embed(contents).Ok? && |setup.embed(contents).value| == |contents|
    ensures forall i | 0 <= i < |contents| ::
      var row := done.chunks[id][i];
      row.chunkIndex == i && row.content == contents[i] && row.embedding == setup.embed(contents).value[i]
  {
    var normalized := Normalized(content);
    ChunksDefined(normalized, setup.chunkSize, setup.chunkOverlap);
    ChunksAreSound(normalized, setup.chunkSize, setup.chunkOverlap);
    hide Normalized, Chunks, Spans, FindByHash, Attribute, IsSlice, InOrder;
    assert Contents(texts) == contents;
  }

  // The rows describe their chunks by the segments of the document.
  ghost predicate RowsDescribe(normalized: string, segments: seq<SourceSegment>, texts: seq<TextChunk>, rows: seq<EmbeddedChunk>) {
    var spans, visible := Spans(normalized, segments, 0), VisibleSegments(segments);
    && |rows| == |texts| && |spans| == |visible|
    && (forall i | 0 <= i < |spans| :: SpanOf(normalized, visible[i], spans[i]))
    && forall i | 0 <= i < |rows| ::
         && texts[i].startOffset <= texts[i].endOffset <= |normalized|
         && rows[i].content == normalized[texts[i].startOffset..texts[i].endOffset]
         && Describes(rows[i].provenance, normalized, visible, spans, texts[i])
  }

  /** The stored rows of a document made of its segments name the right pages and headings. */
  lemma StoredRowsAreAttributed(setup: Setup, documents: seq<Document>, chunks: map<DocumentId, seq<EmbeddedChunk>>,
                                id: DocumentId, title: string, deduplicate: bool, segments: seq<SourceSegment>, done: Ingested,
                                texts: seq<TextChunk>)
    requires Outcome(setup, documents, chunks, id, title, Join(PARAGRAPH, Texts(segments)), deduplicate, segments) == Ok(done)
    requires !done.result.duplicate
    requires Chunks(Normalized(Join(PARAGRAPH, Texts(segments))), setup.chunkSize, setup.chunkOverlap) == Ok(texts)
    ensures id in done.chunks
    ensures RowsDescribe(Normalized(Join(PARAGRAPH, Texts(segments))), segments, texts, done.chunks[id])
  {
    hide Normalized, Chunks, Spans, FindByHash, Attribute, VisibleSegments, Describes, SpanOf;
    ChunksDefined(Normalized(Join(PARAGRAPH, Texts(segments))), setup.chunkSize, setup.chunkOverlap);
    ChunksAreAttributed(segments, setup.chunkSize, setup.chunkOverlap);
    assert forall i | 0 <= i < |texts| :: texts[i] in texts;
  }

  lemma SliceNotEmpty(normalized: string, chunkSize: nat, chunk: TextChunk)
    requires IsSlice(normalized, chunkSize, chunk)
    ensures chunk.startOffset < chunk.endOffset
  {
  }

  // Every visible character of the chunk lies in a segment whose page is listed.
  ghost predicate ListsEveryPage(normalized: string, visible: seq<SourceSegment>, spans: seq<Span>, chunk: TextChunk,
                                    provenance: ChunkProvenance)
    requires |spans| == |visible|
  {
    forall p | chunk.startOffset <= p < chunk.endOffset && p < |normalized| && !IsSpace(normalized[p]) ::
      exists i | 0 <= i < |spans| ::
        && Inside(spans[i].start, spans[i].end, p)
        && (visible[i].metadata.page.Some? ==> visible[i].metadata.page.value in provenance.sourcePages)
  }

  // Every listed page is that of a segment sharing a character with the chunk.
  ghost predicate ListsNoOtherPage(visible: seq<SourceSegment>, spans: seq<Span>, chunk: TextChunk,
                                    provenance: ChunkProvenance)
    requires |spans| == |visible|
  {
    forall page | page in provenance.sourcePages ::
      exists i | 0 <= i < |spans| ::
        visible[i].metadata.page == Some(page) && Shares(chunk.startOffset, chunk.endOffset, spans[i])
  }

  // The same for headings; an empty heading is never listed.
  ghost predicate ListsEveryHeading(normalized: string, visible: seq<SourceSegment>, spans: seq<Span>, chunk: TextChunk,
                                    provenance: ChunkProvenance)
    requires |spans| == |visible|
  {
    forall p | chunk.startOffset <= p < chunk.endOffset && p < |normalized| && !IsSpace(normalized[p]) ::
      exists i | 0 <= i < |spans| ::
        && Inside(spans[i].start, spans[i].end, p)
        && (visible[i].metadata.section.Some? && visible[i].metadata.section.value != "" ==>
              visible[i].metadata.section.value in provenance.sourceSections)
  }

  ghost predicate ListsNoOtherHeading(visible: seq<SourceSegment>, spans: seq<Span>, chunk: TextChunk,
                                    provenance: ChunkProvenance)
    requires |spans| == |visible|
  {
    forall heading | heading in provenance.sourceSections ::
      exists i | 0 <= i < |spans| ::
        visible[i].metadata.section == Some(heading) && Shares(chunk.startOffset, chunk.endOffset, spans[i])
  }

  // The spans of exactly placed segments are not empty and carry the segments' metadata.
  lemma SpanFacts(normalized: string, segments: seq<SourceSegment>, spans: seq<Span>)
    requires Placed(normalized, 0, segments, spans)
    ensures |spans| == |VisibleSegments(segments)|
    ensures forall i | 0 <= i < |spans| ::
      spans[i].start < spans[i].end && spans[i].metadata == VisibleSegments(segments)[i].metadata
  {
    hide Placed, VisibleSegments, Normalized;
    PlacedSpans(normalized, 0, segments, spans);
    var visible := VisibleSegments(segments);
    forall i | 0 <= i < |spans| ensures spans[i].start < spans[i].end && spans[i].metadata == visible[i].metadata {
      assert SpanOf(normalized, visible[i], spans[i]);
    }
  }

  lemma EveryPageListed(normalized: string, segments: seq<SourceSegment>, spans: seq<Span>, chunk: TextChunk)
    requires Placed(normalized, 0, segments, spans) && |spans| == |VisibleSegments(segments)|
    ensures ListsEveryPage(normalized, VisibleSegments(segments), spans, chunk, Attribute(chunk.startOffset, chunk.endOffset, spans))
  {
    hide Placed, VisibleSegments, Attribute, IsSpace, Shares;
    SpanFacts(normalized, segments, spans);
    var visible, from, to := VisibleSegments(segments), chunk.startOffset, chunk.endOffset;
    var pages := Attribute(from, to, spans).sourcePages;
    forall p | from <= p < to && p < |normalized| && !IsSpace(normalized[p])
      ensures exists i | 0 <= i < |spans| ::
        && Inside(spans[i].start, spans[i].end, p)
        && (visible[i].metadata.page.Some? ==> visible[i].metadata.page.value in pages)
    {
      InkIsInSpans(normalized, 0, segments, spans, p);
      var i :| 0 <= i < |spans| && spans[i].start <= p < spans[i].end;
      SharesAt(from, to, spans[i], p);
      if visible[i].metadata.page.Some? {
        PagesOfChunk(from, to, spans, visible[i].metadata.page.value);
      }
      assert Inside(spans[i].start, spans[i].end, p);
    }
  }

  lemma NoOtherPageListed(normalized: string, segments: seq<SourceSegment>, spans: seq<Span>, chunk: TextChunk)
    requires Placed(normalized, 0, segments, spans) && |spans| == |VisibleSegments(segments)|
    requires chunk.startOffset < chunk.endOffset
    ensures ListsNoOtherPage(VisibleSegments(segments), spans, chunk, Attribute(chunk.startOffset, chunk.endOffset, spans))
  {
    hide Placed, VisibleSegments, Attribute, IsSpace, Shares;
    SpanFacts(normalized, segments, spans);
    var visible, from, to := VisibleSegments(segments), chunk.startOffset, chunk.endOffset;
    forall page | page in Attribute(from, to, spans).sourcePages
      ensures exists i | 0 <= i < |spans| :: visible[i].metadata.page == Some(page) && Shares(from, to, spans[i])
    {
      PagesOfChunk(from, to, spans, page);
      var i :| 0 <= i < |spans| && spans[i].metadata.page == Some(page) && Shares(from, to, spans[i]);
      assert visible[i].metadata.page == Some(page);
    }
  }

  lemma EveryHeadingListed(normalized: string, segments: seq<SourceSegment>, spans: seq<Span>, chunk: TextChunk)
    requires Placed(normalized, 0, segments, spans) && |spans| == |VisibleSegments(segments)|
    ensures ListsEveryHeading(normalized, VisibleSegments(segments), spans, chunk, Attribute(chunk.startOffset, chunk.endOffset, spans))
  {
    hide Placed, VisibleSegments, Attribute, IsSpace, Shares;
    SpanFacts(normalized, segments, spans);
    var visible, from, to := VisibleSegments(segments), chunk.startOffset, chunk.endOffset;
    var headings := Attribute(from, to, spans).sourceSections;
    forall p | from <= p < to && p < |normalized| && !IsSpace(normalized[p])
      ensures exists i | 0 <= i < |spans| ::
        && Inside(spans[i].start, spans[i].end, p)
        && (visible[i].metadata.section.Some? && visible[i].metadata.section.value != "" ==>
              visible[i].metadata.section.value in headings)
    {
      InkIsInSpans(normalized, 0, segments, spans, p);
      var i :| 0 <= i < |spans| && spans[i].start <= p < spans[i].end;
      SharesAt(from, to, spans[i], p);
      if visible[i].metadata.section.Some? {
        SectionsOfChunk(from, to, spans, visible[i].metadata.section.value);
      }
      assert Inside(spans[i].start, spans[i].end, p);
    }
  }

  lemma NoOtherHeadingListed(normalized: string, segments: seq<SourceSegment>, spans: seq<Span>, chunk: TextChunk)
    requires Placed(normalized, 0, segments, spans) && |spans| == |VisibleSegments(segments)|
    requires chunk.startOffset < chunk.endOffset
    ensures ListsNoOtherHeading(VisibleSegments(segments), spans, chunk, Attribute(chunk.startOffset, chunk.endOffset, spans))
  {
    hide Placed, VisibleSegments, Attribute, IsSpace, Shares;
    SpanFacts(normalized, segments, spans);
    var visible, from, to := VisibleSegments(segments), chunk.startOffset, chunk.endOffset;
    forall heading | heading in Attribute(from, to, spans).sourceSections
      ensures exists i | 0 <= i < |spans| :: visible[i].metadata.section == Some(heading) && Shares(from, to, spans[i])
    {
      SectionsOfChunk(from, to, spans, heading);
      var i :| 0 <= i < |spans| && spans[i].metadata.section == Some(heading) && Shares(from, to, spans[i]);
      assert visible[i].metadata.section == Some(heading);
    }
  }

  lemma SharesAt(from: int, to: int, span: Span, p: int)
    requires from <= p < to && span.start <= p < span.end
    ensures Shares(from, to, span)
  {
    assert Inside(from, to, p) && Inside(span.start, span.end, p);
  }
}
