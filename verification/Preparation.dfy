/** From extracted sections to the chunks of a document (pipeline.py, `prepare`). */
module Preparation {
  import opened Results
  import opened Texts
  import opened Spacing
  import opened Tokens
  import opened Windowing
  import opened Domain
  import opened Transactions
  import opened Normalization
  import opened Sections
  import opened Extraction
  import opened Chunking
  import opened Lifecycle

  datatype Strategy = FixedWindow | SectionAware

  /** The configuration of a preparer and the two functions it takes from outside: NFC, and
      extraction of a document's sections. */
  datatype Pipeline = Pipeline(
    w: WordClass, nfc: string -> string, strategy: Strategy, sizes: Sizes,
    extract: (MediaType, Bytes) -> Result<seq<ExtractedSection>, IngestionErrorCode>)

  function Chunked(pipeline: Pipeline, id: DocumentId, sections: seq<NormalizedSection>): Result<seq<Chunk>, NoSection>
    requires pipeline.sizes.Valid()
  {
    match pipeline.strategy
    case FixedWindow => FixedChunks(pipeline.w, pipeline.sizes, id, sections)
    case SectionAware => Success(SectionChunks(pipeline.w, pipeline.sizes, id, sections))
  }

  /** What preparing yields; a ValueError of the chunker would surface as an unexpected failure. */
  function PreparedChunks(pipeline: Pipeline, id: DocumentId, extracted: seq<ExtractedSection>): Result<seq<Chunk>, FailureCause>
    requires pipeline.sizes.Valid()
  {
    var normalized := NormalizedFrom(pipeline.nfc, extracted, 0);
    if normalized == [] then Failure(FailureCause.Rejected(NoExtractableText))
    else
      match Chunked(pipeline, id, normalized)
      case Failure(_) => Failure(Unexpected)
      case Success(chunks) => if chunks == [] then Failure(FailureCause.Rejected(NoExtractableText)) else Success(chunks)
  }

  /** `DocumentContentPreparer.prepare` behind the extractor. */
  method Prepare(pipeline: Pipeline, id: DocumentId, extracted: seq<ExtractedSection>)
    returns (r: Result<seq<Chunk>, FailureCause>)
    requires pipeline.sizes.Valid()
    ensures r == PreparedChunks(pipeline, id, extracted)
  {
    hide NormalizedFrom, FixedChunks, SectionChunks;
    var normalized := NormalizeSections(pipeline.nfc, extracted);
    if normalized.Failure? {
      return Failure(FailureCause.Rejected(normalized.error));
    }
    var chunks: seq<Chunk>;
    match pipeline.strategy {
      case FixedWindow =>
        var outcome := FixedWindowChunk(pipeline.w, pipeline.sizes, id, normalized.value);
        if outcome.Failure? {
          return Failure(Unexpected);
        }
        chunks := outcome.value;
      case SectionAware =>
        chunks := SectionAwareChunk(pipeline.w, pipeline.sizes, id, normalized.value);
    }
    if chunks == [] {
      return Failure(FailureCause.Rejected(NoExtractableText));
    }
    return Success(chunks);
  }

  /** The chunks either strategy makes of laid out sections. */
  lemma ChunkedSections(pipeline: Pipeline, id: DocumentId, sections: seq<NormalizedSection>)
    requires pipeline.sizes.Valid() && LaidOut(sections)
    ensures var r := Chunked(pipeline, id, sections);
            && r.Success? && Storable(id, r.value) && CoversInk(sections, r.value)
            && (forall k :: 0 <= k < |r.value| ==> Located(sections, r.value[k]))
  {
    hide LaidOut, Located, CoversInk, FixedChunks, SectionChunks, Storable;
    match pipeline.strategy {
      case FixedWindow =>
        FixedLocatorsInvert(pipeline.w, pipeline.sizes, id, sections);
        FixedChunksCoverInk(pipeline.w, pipeline.sizes, id, sections);
        FixedChunksAreStorable(pipeline.w, pipeline.sizes, id, sections);
      case SectionAware =>
        SectionLocatorsInvert(pipeline.w, pipeline.sizes, id, sections);
        SectionChunksCoverInk(pipeline.w, pipeline.sizes, id, sections);
        SectionChunksAreStorable(pipeline.w, pipeline.sizes, id, sections);
    }
  }

  /** Preparing never fails unexpectedly: it is refused, for want of text, exactly when no section
      has a non-whitespace character left; otherwise every such character is in a chunk. */
  lemma PreparationOutcome(pipeline: Pipeline, id: DocumentId, extracted: seq<ExtractedSection>)
    requires pipeline.sizes.Valid()
    ensures var r, sections := PreparedChunks(pipeline, id, extracted), NormalizedFrom(pipeline.nfc, extracted, 0);
            && (r.Success? ==> Prepared(id, r.value) && CoversInk(sections, r.value)
                               && forall k :: 0 <= k < |r.value| ==> Located(sections, r.value[k]) && r.value[k].Valid())
            && (r.Failure? ==> r.error == FailureCause.Rejected(NoExtractableText))
            && (r.Success? <==> exists s :: s in extracted && !IsBlank(pipeline.nfc(s.text)))
  {
    hide Located, Prepared, LaidOutFrom, NormalizedFrom;
    var sections := NormalizedFrom(pipeline.nfc, extracted, 0);
    NormalizedSectionsAreLaidOut(pipeline.nfc, extracted, 0);
    hide KeepsNonEmpty;
    ChunkedSections(pipeline, id, sections);
    hide Chunked, CoversInk;
    SomethingIsLeft(pipeline.nfc, extracted, 0);
    if sections != [] { ChunksExist(pipeline, id, sections); }
  }

  /** The two strategies: fixed-window chunks are the windows of the joined stream, one by one;
      section-aware chunks lie each inside a section. */
  lemma StrategiesDiffer(pipeline: Pipeline, id: DocumentId, extracted: seq<ExtractedSection>)
    requires pipeline.sizes.Valid() && PreparedChunks(pipeline, id, extracted).Success?
    ensures var chunks, sections := PreparedChunks(pipeline, id, extracted).value, NormalizedFrom(pipeline.nfc, extracted, 0);
            match pipeline.strategy
            case FixedWindow =>
              AreWindows(id, WindowsOf(pipeline.w, Stream(sections), pipeline.sizes.size, pipeline.sizes.overlap), chunks)
            case SectionAware =>
              forall k :: 0 <= k < |chunks| ==> exists j :: 0 <= j < |sections| && Inside(sections[j], chunks[k])
  {
    hide NormalizedFrom, LaidOutFrom, FixedChunks, SectionChunks, AreWindows, Inside, WindowsOf, Stream, Located;
    var sections := NormalizedFrom(pipeline.nfc, extracted, 0);
    NormalizedSectionsAreLaidOut(pipeline.nfc, extracted, 0);
    hide KeepsNonEmpty;
    match pipeline.strategy
    case FixedWindow => FixedChunksAreWindows(pipeline.w, pipeline.sizes, id, sections);
    case SectionAware => SectionLocatorsInvert(pipeline.w, pipeline.sizes, id, sections);
  }

  /** No chunk is refused for its locator: paths have no blank part, pages start at 1, ranges are in
      order, provided the extracted sections satisfied their own checks. */
  lemma ChunkLocatorsAreValid(pipeline: Pipeline, id: DocumentId, extracted: seq<ExtractedSection>, k: nat)
    requires pipeline.sizes.Valid()
    requires forall s :: s in extracted ==> s.Valid() && !IsBlank(pipeline.nfc(s.text))
    requires PreparedChunks(pipeline, id, extracted).Success? && k < |PreparedChunks(pipeline, id, extracted).value|
    ensures PreparedChunks(pipeline, id, extracted).value[k].locator.Valid()
  {
    hide Stream, Prepared, NormalizedFrom, PreparedChunks, CoversInk, IsBlank, Normalizes;
    PreparationOutcome(pipeline, id, extracted);
    NoSectionIsLost(pipeline.nfc, extracted, 0);
    var c, sections := PreparedChunks(pipeline, id, extracted).value[k], NormalizedFrom(pipeline.nfc, extracted, 0);
    assert Located(sections, c);
    var j :| 0 <= j < |sections| && SourcedBy(sections[j], c);
    assert sections[j].locator.Valid();
  }

  /** So no chunk of a Markdown document is refused for its locator, whatever headings the parser
      finds, when composition leaves no section blank. */
  lemma MarkdownLocatorsAreValid(pipeline: Pipeline, id: DocumentId, text: string, lines: seq<string>, found: seq<Heading>, k: nat)
    requires pipeline.sizes.Valid() && MarkdownSections(text, lines, Titled(found)).Success?
    requires var extracted := MarkdownSections(text, lines, Titled(found)).value;
             && (forall s :: s in extracted ==> !IsBlank(pipeline.nfc(s.text)))
             && PreparedChunks(pipeline, id, extracted).Success? && k < |PreparedChunks(pipeline, id, extracted).value|
    ensures PreparedChunks(pipeline, id, MarkdownSections(text, lines, Titled(found)).value).value[k].locator.Valid()
  {
    hide MarkdownSections, Titled, PreparedChunks, IsBlank;
    MarkdownSectionsAreValid(text, lines, found);
    ChunkLocatorsAreValid(pipeline, id, MarkdownSections(text, lines, Titled(found)).value, k);
  }

  lemma {:induction false} SomethingIsLeft(nfc: string -> string, sections: seq<ExtractedSection>, cursor: nat)
    ensures NormalizedFrom(nfc, sections, cursor) != [] <==> exists s :: s in sections && !IsBlank(nfc(s.text))
    ensures forall s :: s in NormalizedFrom(nfc, sections, cursor) ==> !IsBlank(s.text)
  {
    hide NormalizeDocumentText, IsBlank;
    if sections != [] {
      var text := NormalizeDocumentText(nfc, sections[0].text);
      EmptyOrInky(nfc, sections[0].text);
      SomethingIsLeft(nfc, sections[1..], if text == "" then cursor else cursor + |text| + 2);
      assert sections == [sections[0]] + sections[1..];
      assert forall s :: s in sections <==> s == sections[0] || s in sections[1..];
    }
  }

  lemma EmptyOrInky(nfc: string -> string, s: string)
    ensures NormalizeDocumentText(nfc, s) == "" <==> IsBlank(nfc(s))
    ensures IsBlank(NormalizeDocumentText(nfc, s)) <==> IsBlank(nfc(s))
  {
    RewriteKeepsInk(nfc(s));
    RewriteIsNormal(nfc(s));
    InkOfBlank(nfc(s));
    InkOfBlank(Rewrite(nfc(s)));
    hide Rewrite, Ink;
    if Rewrite(nfc(s)) != "" { assert !IsSpace(Rewrite(nfc(s))[0]); }
  }

  lemma ChunksExist(pipeline: Pipeline, id: DocumentId, sections: seq<NormalizedSection>)
    requires pipeline.sizes.Valid() && LaidOut(sections) && sections != [] && !IsBlank(sections[0].text)
    ensures Chunked(pipeline, id, sections).Success? && Chunked(pipeline, id, sections).value != []
  {
    hide Located, Storable, Stream, IsSpace, LaidOutFrom, Chunked;
    SectionIsPart(sections, 0, 0);
    var text := sections[0].text;
    var p: nat :| p < |text| && !IsSpace(text[p]);
    assert text[p] == Stream(sections)[p];
    ChunkedSections(pipeline, id, sections);
    InkNeedsAChunk(sections, Chunked(pipeline, id, sections).value, p);
  }

  lemma InkNeedsAChunk(sections: seq<NormalizedSection>, chunks: seq<Chunk>, p: nat)
    requires CoversInk(sections, chunks) && p < |Stream(sections)| && !IsSpace(Stream(sections)[p])
    ensures chunks != []
  {
    hide Stream, IsSpace;
    assert InChunk(chunks, p);
  }

  /** The preparer the lifecycle runs with. */
  function PreparerOf(pipeline: Pipeline): Preparer
    requires pipeline.sizes.Valid()
  {
    Preparer((id: DocumentId, mediaType: MediaType, content: Bytes) =>
      match pipeline.extract(mediaType, content)
      case Failure(code) => Failure(code)
      case Success(extracted) =>
        match PreparedChunks(pipeline, id, extracted)
        case Success(chunks) => Success(chunks)
        case Failure(_) => Failure(NoExtractableText))
  }

  /** So every lifecycle theorem that asks for a valid preparer holds with the real pipeline. */
  lemma PipelineIsAPreparer(pipeline: Pipeline)
    requires pipeline.sizes.Valid()
    ensures PreparerOf(pipeline).Valid()
  {
    hide PreparedChunks, Prepared;
    var preparer := PreparerOf(pipeline);
    forall d, m, b | preparer.run(d, m, b).Success? ensures Prepared(d, preparer.run(d, m, b).value) {
      PreparationOutcome(pipeline, d, pipeline.extract(m, b).value);
    }
  }
}
