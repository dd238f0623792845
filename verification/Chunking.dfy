/** The two chunkers and their locators (chunking.py). */
module Chunking {
  import opened Results
  import opened Texts
  import opened Tokens
  import opened Windowing
  import opened Domain
  import opened Transactions
  import opened Sections

  datatype ConfigurationError = SizeTooSmall | NegativeOverlap | OverlapTooLarge

  datatype Sizes = Sizes(size: nat, overlap: nat) {
    predicate Valid() {
      overlap < size
    }
  }

  /** `_validate_window_configuration`, run by both chunkers' constructors. */
  function MakeSizes(size: int, overlap: int): (r: Result<Sizes, ConfigurationError>)
    ensures r.Success? <==> 0 <= overlap < size
    ensures r.Success? ==> r.value.Valid()
  {
    if size < 1 then Failure(SizeTooSmall)
    else if overlap < 0 then Failure(NegativeOverlap)
    else if overlap >= size then Failure(OverlapTooLarge)
    else Success(Sizes(size, overlap))
  }

  /** The `ValueError` of `_section_at_offset`. */
  datatype NoSection = NoSection

  /** `_section_at_offset` */
  method SectionAtOffset(sections: seq<NormalizedSection>, offset: nat) returns (r: Result<NormalizedSection, NoSection>)
    ensures r == SectionAt(sections, offset, |sections|)
  {
    for k := |sections| downto 0
      invariant SectionAt(sections, offset, k) == SectionAt(sections, offset, |sections|)
    {
      if offset >= sections[k].Start() {
        return Success(sections[k]);
      }
    }
    return Failure(NoSection);
  }

  /** The last of the first n sections that starts at or before the offset. */
  function SectionAt(sections: seq<NormalizedSection>, offset: nat, n: nat): (r: Result<NormalizedSection, NoSection>)
    requires n <= |sections|
  {
    if n == 0 then Failure(NoSection)
    else if offset >= sections[n - 1].Start() then Success(sections[n - 1])
    else SectionAt(sections, offset, n - 1)
  }

  /** `_create_chunk` with the locator its two callers pass; `base` is the section's start on the
      stream, and 0 for windows of the stream itself. */
  function ChunkOf(id: DocumentId, ordinal: nat, window: TextWindow, section: NormalizedSection, base: nat): Chunk {
    NewChunk(id, ordinal, window.text, window.tokenCount,
             SourceLocator(section.locator.sectionPath, section.locator.pageNumber,
                           base + window.charStart, base + window.charEnd))
  }

  // ---- FixedWindowChunker

  function FixedPrefix(id: DocumentId, sections: seq<NormalizedSection>, windows: seq<TextWindow>, n: nat): (r: Result<seq<Chunk>, NoSection>)
    requires n <= |windows|
    ensures r.Success? ==> |r.value| == n
  {
    if n == 0 then Success([])
    else
      var before :- FixedPrefix(id, sections, windows, n - 1);
      var section :- SectionAt(sections, windows[n - 1].charStart, |sections|);
      Success(before + [ChunkOf(id, n - 1, windows[n - 1], section, 0)])
  }

  function FixedChunks(w: WordClass, sizes: Sizes, id: DocumentId, sections: seq<NormalizedSection>): Result<seq<Chunk>, NoSection>
    requires sizes.Valid()
  {
    var windows := WindowsOf(w, Stream(sections), sizes.size, sizes.overlap);
    FixedPrefix(id, sections, windows, |windows|)
  }

  lemma {:induction false} FixedPrefixFails(id: DocumentId, sections: seq<NormalizedSection>, windows: seq<TextWindow>, m: nat, n: nat)
    requires m <= n <= |windows| && FixedPrefix(id, sections, windows, m).Failure?
    ensures FixedPrefix(id, sections, windows, n) == Failure(NoSection)
  {
    assert FixedPrefix(id, sections, windows, m).error == NoSection;
    if m < n { FixedPrefixFails(id, sections, windows, m, n - 1); }
  }

  /** `FixedWindowChunker.chunk` */
  method FixedWindowChunk(w: WordClass, sizes: Sizes, id: DocumentId, sections: seq<NormalizedSection>)
    returns (r: Result<seq<Chunk>, NoSection>)
    requires sizes.Valid()
    ensures r == FixedChunks(w, sizes, id, sections)
  {
    hide WindowsOf, SectionAt;
    var fullText := Stream(sections);
    var chunks: seq<Chunk> := [];
    var windows := Windows(w, fullText, sizes.size, sizes.overlap);
    for ordinal := 0 to |windows|
      invariant FixedPrefix(id, sections, windows, ordinal) == Success(chunks)
    {
      var window := windows[ordinal];
      var source := SectionAtOffset(sections, window.charStart);
      if source.Failure? {
        FixedPrefixFails(id, sections, windows, ordinal + 1, |windows|);
        return Failure(NoSection);
      }
      chunks := chunks + [ChunkOf(id, ordinal, window, source.value, 0)];
    }
    return Success(chunks);
  }

  // ---- SectionAwareChunker

  function SectionWindows(w: WordClass, sizes: Sizes, section: NormalizedSection): seq<TextWindow>
    requires sizes.Valid()
  {
    WindowsOf(w, section.text, sizes.size, sizes.overlap)
  }

  /** The chunks of the first m windows of a section, numbered from `ordinal` on. */
  function WindowChunks(id: DocumentId, ordinal: nat, section: NormalizedSection, windows: seq<TextWindow>, m: nat): (r: seq<Chunk>)
    requires m <= |windows|
    ensures |r| == m
    ensures forall k :: 0 <= k < m ==> r[k] == ChunkOf(id, ordinal + k, windows[k], section, section.Start())
  {
    if m == 0 then []
    else WindowChunks(id, ordinal, section, windows, m - 1) + [ChunkOf(id, ordinal + m - 1, windows[m - 1], section, section.Start())]
  }

  function SectionPrefix(w: WordClass, sizes: Sizes, id: DocumentId, sections: seq<NormalizedSection>, n: nat): seq<Chunk>
    requires sizes.Valid() && n <= |sections|
  {
    if n == 0 then []
    else
      var before := SectionPrefix(w, sizes, id, sections, n - 1);
      var windows := SectionWindows(w, sizes, sections[n - 1]);
      before + WindowChunks(id, |before|, sections[n - 1], windows, |windows|)
  }

  function SectionChunks(w: WordClass, sizes: Sizes, id: DocumentId, sections: seq<NormalizedSection>): seq<Chunk>
    requires sizes.Valid()
  {
    SectionPrefix(w, sizes, id, sections, |sections|)
  }

  /** `SectionAwareChunker.chunk` */
  method SectionAwareChunk(w: WordClass, sizes: Sizes, id: DocumentId, sections: seq<NormalizedSection>)
    returns (chunks: seq<Chunk>)
    requires sizes.Valid()
    ensures chunks == SectionChunks(w, sizes, id, sections)
  {
    hide WindowsOf;
    chunks := [];
    for n := 0 to |sections|
      invariant chunks == SectionPrefix(w, sizes, id, sections, n)
    {
      var section := sections[n];
      var windows := Windows(w, section.text, sizes.size, sizes.overlap);
      ghost var before := chunks;
      for m := 0 to |windows|
        invariant chunks == before + WindowChunks(id, |before|, section, windows, m)
      {
        var window := windows[m];
        chunks := chunks + [ChunkOf(id, |chunks|, window, section, section.Start())];
      }
    }
  }

  // ---- locators

  /** The chunk's text is what the stream holds between its offsets, and the chunk carries the path
      and page of the section that holds its first character. */
  predicate Located(sections: seq<NormalizedSection>, c: Chunk) {
    && c.locator.charStart < c.locator.charEnd <= |Stream(sections)|
    && Stream(sections)[c.locator.charStart..c.locator.charEnd] == c.text
    && exists k :: 0 <= k < |sections| && SourcedBy(sections[k], c)
  }

  predicate SourcedBy(section: NormalizedSection, c: Chunk) {
    && Holds(section, c.locator.charStart)
    && c.locator.sectionPath == section.locator.sectionPath
    && c.locator.pageNumber == section.locator.pageNumber
  }

  /** On a laid out list the search finds the one section that holds the offset. */
  lemma {:induction false} SectionAtHolder(sections: seq<NormalizedSection>, offset: nat, k: nat, n: nat)
    requires LaidOut(sections) && k < n <= |sections| && Holds(sections[k], offset)
    ensures SectionAt(sections, offset, n) == Success(sections[k])
    decreases n
  {
    hide LaidOutFrom;
    if k < n - 1 {
      LaterSectionsStartLater(sections, 0, k, n - 1);
      SectionAtHolder(sections, offset, k, n - 1);
    }
  }

  /** With laid out sections the `ValueError` is out of reach: an offset that holds ink is found. */
  lemma InkIsFound(sections: seq<NormalizedSection>, offset: nat)
    requires LaidOut(sections) && offset < |Stream(sections)| && !IsSpace(Stream(sections)[offset])
    ensures exists k :: 0 <= k < |sections| && Holds(sections[k], offset)
                        && SectionAt(sections, offset, |sections|) == Success(sections[k])
  {
    hide Stream, IsSpace, LaidOutFrom, SectionAt;
    InkIsInASection(sections, 0, offset);
    var k :| 0 <= k < |sections| && Holds(sections[k], offset);
    SectionAtHolder(sections, offset, k, |sections|);
  }

  lemma {:induction false} FixedPrefixIsLocated(id: DocumentId, sections: seq<NormalizedSection>, windows: seq<TextWindow>, n: nat)
    requires LaidOut(sections) && n <= |windows|
    requires forall k :: 0 <= k < |windows| ==>
               CutOut(Stream(sections), windows[k]) && !IsSpace(Stream(sections)[windows[k].charStart])
    ensures var r := FixedPrefix(id, sections, windows, n);
            && r.Success?
            && (forall k :: 0 <= k < n ==> Located(sections, r.value[k]) && SameWindow(r.value[k], id, k, windows[k]))
  {
    hide Stream, IsSpace, LaidOut, SectionAt, Stripped, Located;
    if n > 0 {
      FixedPrefixIsLocated(id, sections, windows, n - 1);
      var window := windows[n - 1];
      InkIsFound(sections, window.charStart);
      var j :| 0 <= j < |sections| && Holds(sections[j], window.charStart)
               && SectionAt(sections, window.charStart, |sections|) == Success(sections[j]);
      FixedChunkIsLocated(id, sections, window, n - 1, j);
    }
  }

  predicate SameWindow(c: Chunk, id: DocumentId, ordinal: nat, window: TextWindow) {
    c == NewChunk(id, ordinal, window.text, window.tokenCount, c.locator)
    && c.locator.charStart == window.charStart && c.locator.charEnd == window.charEnd
  }

  lemma FixedChunkIsLocated(id: DocumentId, sections: seq<NormalizedSection>, window: TextWindow, ordinal: nat, j: nat)
    requires j < |sections| && Holds(sections[j], window.charStart) && CutOut(Stream(sections), window)
    ensures Located(sections, ChunkOf(id, ordinal, window, sections[j], 0))
  {
    hide Stream, Stripped;
    assert SourcedBy(sections[j], ChunkOf(id, ordinal, window, sections[j], 0));
  }

  /** Locators invert fixed-window chunking, and chunking a laid out document never raises. */
  lemma FixedLocatorsInvert(w: WordClass, sizes: Sizes, id: DocumentId, sections: seq<NormalizedSection>)
    requires sizes.Valid() && LaidOut(sections)
    ensures var r := FixedChunks(w, sizes, id, sections);
            r.Success? && forall k :: 0 <= k < |r.value| ==> Located(sections, r.value[k])
  {
    hide Stream, IsSpace, LaidOut, Located;
    WindowsAreCutOut(w, Stream(sections), sizes.size, sizes.overlap);
    hide WindowsOf;
    var windows := WindowsOf(w, Stream(sections), sizes.size, sizes.overlap);
    FixedPrefixIsLocated(id, sections, windows, |windows|);
  }

  /** The chunks are the windows, one by one. */
  predicate AreWindows(id: DocumentId, windows: seq<TextWindow>, chunks: seq<Chunk>) {
    |chunks| == |windows| && forall k :: 0 <= k < |chunks| ==> SameWindow(chunks[k], id, k, windows[k])
  }

  lemma FixedChunksAreWindows(w: WordClass, sizes: Sizes, id: DocumentId, sections: seq<NormalizedSection>)
    requires sizes.Valid() && LaidOut(sections)
    ensures var r := FixedChunks(w, sizes, id, sections);
            r.Success? && AreWindows(id, WindowsOf(w, Stream(sections), sizes.size, sizes.overlap), r.value)
  {
    hide Stream, IsSpace, LaidOut, Located, SameWindow, FixedPrefix, WindowsOf, IsBlank, Stripped;
    WindowsAreCutOut(w, Stream(sections), sizes.size, sizes.overlap);
    var windows := WindowsOf(w, Stream(sections), sizes.size, sizes.overlap);
    FixedPrefixIsLocated(id, sections, windows, |windows|);
  }

  predicate InChunk(chunks: seq<Chunk>, p: nat) {
    exists k :: 0 <= k < |chunks| && chunks[k].locator.charStart <= p < chunks[k].locator.charEnd
  }

  /** Every non-whitespace character of the stream is in some chunk. */
  predicate CoversInk(sections: seq<NormalizedSection>, chunks: seq<Chunk>) {
    forall p: nat :: p < |Stream(sections)| && !IsSpace(Stream(sections)[p]) ==> InChunk(chunks, p)
  }

  lemma FixedChunksCoverInk(w: WordClass, sizes: Sizes, id: DocumentId, sections: seq<NormalizedSection>)
    requires sizes.Valid() && LaidOut(sections)
    ensures FixedChunks(w, sizes, id, sections).Success?
    ensures CoversInk(sections, FixedChunks(w, sizes, id, sections).value)
  {
    hide Stream, IsSpace, LaidOut, Located;
    var stream := Stream(sections);
    var windows := WindowsOf(w, stream, sizes.size, sizes.overlap);
    WindowsAreCutOut(w, stream, sizes.size, sizes.overlap);
    hide WindowsOf, CutOut;
    FixedPrefixIsLocated(id, sections, windows, |windows|);
    var chunks := FixedChunks(w, sizes, id, sections).value;
    hide FixedPrefix;
    forall p: nat | p < |stream| && !IsSpace(stream[p]) ensures InChunk(chunks, p) {
      var k := WindowAround(w, stream, sizes.size, sizes.overlap, p);
      assert SameWindow(chunks[k], id, k, windows[k]);
    }
  }

  // ---- the section-aware chunker

  /** Chunk i is the given window of the given section. */
  predicate IsWindowOf(id: DocumentId, chunks: seq<Chunk>, i: nat, section: NormalizedSection, window: TextWindow) {
    i < |chunks| && chunks[i] == ChunkOf(id, i, window, section, section.Start())
  }

  lemma {:induction false} ChunkComesFromWindow(w: WordClass, sizes: Sizes, id: DocumentId, sections: seq<NormalizedSection>, n: nat, i: nat)
    returns (j: nat, k: nat)
    requires sizes.Valid() && n <= |sections| && i < |SectionPrefix(w, sizes, id, sections, n)|
    ensures j < n && k < |SectionWindows(w, sizes, sections[j])|
    ensures IsWindowOf(id, SectionPrefix(w, sizes, id, sections, n), i, sections[j], SectionWindows(w, sizes, sections[j])[k])
    decreases n
  {
    hide SectionWindows, ChunkOf;
    var before := SectionPrefix(w, sizes, id, sections, n - 1);
    if i < |before| {
      j, k := ChunkComesFromWindow(w, sizes, id, sections, n - 1, i);
    } else {
      j, k := n - 1, i - |before|;
    }
  }

  lemma {:induction false} WindowsBecomeChunks(w: WordClass, sizes: Sizes, id: DocumentId, sections: seq<NormalizedSection>, n: nat, j: nat, k: nat)
    returns (i: nat)
    requires sizes.Valid() && j < n <= |sections| && k < |SectionWindows(w, sizes, sections[j])|
    ensures IsWindowOf(id, SectionPrefix(w, sizes, id, sections, n), i, sections[j], SectionWindows(w, sizes, sections[j])[k])
    decreases n
  {
    hide SectionWindows, ChunkOf;
    if j < n - 1 {
      i := WindowsBecomeChunks(w, sizes, id, sections, n - 1, j, k);
    } else {
      i := |SectionPrefix(w, sizes, id, sections, n - 1)| + k;
    }
  }

  /** A chunk that lies inside one section. */
  predicate Inside(section: NormalizedSection, c: Chunk) {
    SourcedBy(section, c) && c.locator.charEnd <= section.End()
  }

  lemma SectionChunkIsLocated(w: WordClass, sizes: Sizes, id: DocumentId, sections: seq<NormalizedSection>, i: nat, j: nat, k: nat)
    requires sizes.Valid() && LaidOut(sections) && j < |sections| && k < |SectionWindows(w, sizes, sections[j])|
    ensures var c := ChunkOf(id, i, SectionWindows(w, sizes, sections[j])[k], sections[j], sections[j].Start());
            Located(sections, c) && Inside(sections[j], c) && c.Valid()
  {
    hide Stream, IsSpace, IsBlank, LaidOutFrom, WindowsOf, Stripped;
    var section := sections[j];
    SectionIsPart(sections, 0, j);
    WindowsAreCutOut(w, section.text, sizes.size, sizes.overlap);
    var window := SectionWindows(w, sizes, section)[k];
    SlicePart(section.text, Stream(sections), section.Start(), window.charStart, window.charEnd);
    var c := ChunkOf(id, i, window, section, section.Start());
    assert SourcedBy(section, c);
  }

  lemma SlicePart(part: string, whole: string, d: nat, a: nat, b: nat)
    requires PartOf(part, whole, d) && a <= b <= |part|
    ensures whole[d + a..d + b] == part[a..b]
  {
    assert forall i :: 0 <= i < b - a ==> whole[d + a..d + b][i] == whole[d + (a + i)] && part[a..b][i] == part[a + i];
  }

  /** Locators invert section-aware chunking, and no chunk reaches over the end of its section. */
  lemma SectionLocatorsInvert(w: WordClass, sizes: Sizes, id: DocumentId, sections: seq<NormalizedSection>)
    requires sizes.Valid() && LaidOut(sections)
    ensures var chunks := SectionChunks(w, sizes, id, sections);
            forall i :: 0 <= i < |chunks| ==>
              && Located(sections, chunks[i])
              && exists j :: 0 <= j < |sections| && Inside(sections[j], chunks[i])
  {
    hide Located, LaidOut, SectionWindows, Inside;
    var chunks := SectionChunks(w, sizes, id, sections);
    forall i: nat | i < |chunks|
      ensures Located(sections, chunks[i]) && exists j :: 0 <= j < |sections| && Inside(sections[j], chunks[i])
    {
      var j, k := ChunkComesFromWindow(w, sizes, id, sections, |sections|, i);
      SectionChunkIsLocated(w, sizes, id, sections, i, j, k);
    }
  }

  lemma SectionChunksCoverInk(w: WordClass, sizes: Sizes, id: DocumentId, sections: seq<NormalizedSection>)
    requires sizes.Valid() && LaidOut(sections)
    ensures CoversInk(sections, SectionChunks(w, sizes, id, sections))
  {
    hide Stream, IsSpace, LaidOutFrom;
    var stream, chunks := Stream(sections), SectionChunks(w, sizes, id, sections);
    forall p: nat | p < |stream| && !IsSpace(stream[p]) ensures InChunk(chunks, p) {
      InkIsInASection(sections, 0, p);
      var j :| 0 <= j < |sections| && Holds(sections[j], p);
      var k := WindowAtInk(w, sizes, sections, j, p);
      var i := WindowsBecomeChunks(w, sizes, id, sections, |sections|, j, k);
    }
  }

  lemma WindowAtInk(w: WordClass, sizes: Sizes, sections: seq<NormalizedSection>, j: nat, p: nat) returns (k: nat)
    requires sizes.Valid() && LaidOut(sections) && j < |sections| && Holds(sections[j], p)
    requires p < |Stream(sections)| && !IsSpace(Stream(sections)[p])
    ensures k < |SectionWindows(w, sizes, sections[j])|
    ensures var window := SectionWindows(w, sizes, sections[j])[k];
            sections[j].Start() + window.charStart <= p < sections[j].Start() + window.charEnd
  {
    hide Stream, IsSpace, LaidOutFrom;
    var text, q := sections[j].text, p - sections[j].Start();
    SectionIsPart(sections, 0, j);
    assert text[q] == Stream(sections)[sections[j].Start() + q];
    hide WindowsOf, PartOf;
    k := WindowAround(w, text, sizes.size, sizes.overlap, q);
  }

  predicate YieldsChunk(section: NormalizedSection, chunks: seq<Chunk>) {
    exists i :: 0 <= i < |chunks| && Inside(section, chunks[i])
  }

  lemma NonBlankYields(w: WordClass, sizes: Sizes, id: DocumentId, sections: seq<NormalizedSection>, j: nat)
    requires sizes.Valid() && LaidOut(sections) && j < |sections| && SectionWindows(w, sizes, sections[j]) != []
    ensures YieldsChunk(sections[j], SectionChunks(w, sizes, id, sections))
  {
    hide Located, LaidOutFrom, SectionWindows, ChunkOf, Inside;
    var i := WindowsBecomeChunks(w, sizes, id, sections, |sections|, j, 0);
    SectionChunkIsLocated(w, sizes, id, sections, i, j, 0);
    assert Inside(sections[j], SectionChunks(w, sizes, id, sections)[i]);
  }

  lemma YieldingHasWindows(w: WordClass, sizes: Sizes, id: DocumentId, sections: seq<NormalizedSection>, j: nat)
    requires sizes.Valid() && LaidOut(sections) && j < |sections|
    requires YieldsChunk(sections[j], SectionChunks(w, sizes, id, sections))
    ensures SectionWindows(w, sizes, sections[j]) != []
  {
    hide Located, LaidOutFrom, SectionWindows;
    var chunks := SectionChunks(w, sizes, id, sections);
    var i: nat :| i < |chunks| && Inside(sections[j], chunks[i]);
    var j', k := ChunkComesFromWindow(w, sizes, id, sections, |sections|, i);
    SectionChunkIsLocated(w, sizes, id, sections, i, j', k);
    hide SectionPrefix, ChunkOf;
    HolderIsUnique(sections, j, j', chunks[i].locator.charStart);
  }

  /** A section yields a chunk of its own exactly when its text is not blank. */
  lemma NonBlankSectionsYieldChunks(w: WordClass, sizes: Sizes, id: DocumentId, sections: seq<NormalizedSection>, j: nat)
    requires sizes.Valid() && LaidOut(sections) && j < |sections|
    ensures YieldsChunk(sections[j], SectionChunks(w, sizes, id, sections)) <==> !IsBlank(sections[j].text)
  {
    hide LaidOut, IsBlank, WindowsOf, YieldsChunk, SectionChunks;
    WindowsCoverInk(w, sections[j].text, sizes.size, sizes.overlap);
    if !IsBlank(sections[j].text) { NonBlankYields(w, sizes, id, sections, j); }
    if YieldsChunk(sections[j], SectionChunks(w, sizes, id, sections)) { YieldingHasWindows(w, sizes, id, sections, j); }
  }

  lemma HolderIsUnique(sections: seq<NormalizedSection>, j: nat, k: nat, p: nat)
    requires LaidOut(sections) && j < |sections| && k < |sections| && Holds(sections[j], p) && Holds(sections[k], p)
    ensures j == k
  {
    if j < k { LaterSectionsStartLater(sections, 0, j, k); }
    if k < j { LaterSectionsStartLater(sections, 0, k, j); }
  }

  // ---- both chunkers

  /** On a document of one section the two strategies are the same. */
  lemma ChunkersAgreeOnOneSection(w: WordClass, sizes: Sizes, id: DocumentId, sections: seq<NormalizedSection>)
    requires sizes.Valid() && LaidOut(sections) && |sections| == 1
    ensures FixedChunks(w, sizes, id, sections) == Success(SectionChunks(w, sizes, id, sections))
  {
    hide WindowsOf, Stream, LaidOutFrom, FixedPrefix, WindowChunks;
    SectionIsPart(sections, 0, 0);
    StreamOfCons(sections);
    var windows := SectionWindows(w, sizes, sections[0]);
    OneSectionPrefix(id, sections, windows, |windows|);
    var chunks := WindowChunks(id, 0, sections[0], windows, |windows|);
    assert SectionPrefix(w, sizes, id, sections, 1) == [] + chunks == chunks;
  }

  lemma {:induction false} OneSectionPrefix(id: DocumentId, sections: seq<NormalizedSection>, windows: seq<TextWindow>, n: nat)
    requires |sections| == 1 && sections[0].Start() == 0 && n <= |windows|
    ensures FixedPrefix(id, sections, windows, n) == Success(WindowChunks(id, 0, sections[0], windows, n))
  {
    if n > 0 { OneSectionPrefix(id, sections, windows, n - 1); }
  }

  /** What is handed to the database and the index: chunks numbered from zero, all of them valid. */
  predicate Storable(id: DocumentId, chunks: seq<Chunk>) {
    && (chunks != [] ==> Prepared(id, chunks))
    && forall k :: 0 <= k < |chunks| ==> chunks[k].Valid()
  }

  /** One chunk of a window: its text and owner, and its place in the numbering. */
  lemma WindowMakesChunk(id: DocumentId, ordinal: nat, window: TextWindow, c: Chunk)
    requires SameWindow(c, id, ordinal, window) && !IsBlank(window.text) && window.tokenCount >= 1
    ensures c.Valid() && c == NewChunk(id, ordinal, c.text, c.tokenCount, c.locator)
  {
    hide IsBlank;
  }

  lemma WindowsMakeStorable(id: DocumentId, windows: seq<TextWindow>, chunks: seq<Chunk>)
    requires |chunks| == |windows|
    requires forall k :: 0 <= k < |windows| ==>
               SameWindow(chunks[k], id, k, windows[k]) && !IsBlank(windows[k].text) && windows[k].tokenCount >= 1
    ensures Storable(id, chunks)
  {
    hide SameWindow, IsBlank;
    forall k | 0 <= k < |chunks|
      ensures chunks[k].Valid() && chunks[k] == NewChunk(id, k, chunks[k].text, chunks[k].tokenCount, chunks[k].locator)
    {
      WindowMakesChunk(id, k, windows[k], chunks[k]);
    }
  }

  lemma FixedChunksAreStorable(w: WordClass, sizes: Sizes, id: DocumentId, sections: seq<NormalizedSection>)
    requires sizes.Valid() && LaidOut(sections)
    ensures FixedChunks(w, sizes, id, sections).Success?
    ensures Storable(id, FixedChunks(w, sizes, id, sections).value)
  {
    hide Stream, IsSpace, LaidOut, Located, IsBlank, Storable, SameWindow, WindowsOf, FixedPrefix, Stripped;
    var windows := WindowsOf(w, Stream(sections), sizes.size, sizes.overlap);
    WindowsAreCutOut(w, Stream(sections), sizes.size, sizes.overlap);
    FixedPrefixIsLocated(id, sections, windows, |windows|);
    WindowsMakeStorable(id, windows, FixedChunks(w, sizes, id, sections).value);
  }

  lemma SectionChunksAreStorable(w: WordClass, sizes: Sizes, id: DocumentId, sections: seq<NormalizedSection>)
    requires sizes.Valid() && LaidOut(sections)
    ensures Storable(id, SectionChunks(w, sizes, id, sections))
  {
    hide Located, LaidOut, SectionWindows, IsBlank;
    var chunks := SectionChunks(w, sizes, id, sections);
    forall i: nat | i < |chunks|
      ensures chunks[i].Valid()
              && chunks[i] == NewChunk(id, i, chunks[i].text, chunks[i].tokenCount, chunks[i].locator)
    {
      var j, k := ChunkComesFromWindow(w, sizes, id, sections, |sections|, i);
      SectionChunkIsLocated(w, sizes, id, sections, i, j, k);
    }
  }
}
