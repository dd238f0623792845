/** Normalized sections laid out on one character stream (pipeline.py, `_normalize_sections`). */
module Sections {
  import opened Results
  import opened Texts
  import opened Spacing
  import opened Tokens
  import opened Domain
  import opened Transactions
  import opened Normalization

  datatype ExtractedSection = ExtractedSection(text: string, sectionPath: seq<string>, pageNumber: Option<nat>) {
    /** The checks of the constructor, and the section paths the extractors build. */
    predicate Valid() {
      && !IsBlank(text)
      && (pageNumber.Some? ==> pageNumber.value >= 1)
      && (forall i :: 0 <= i < |sectionPath| ==> !IsBlank(sectionPath[i]))
    }
  }

  datatype NormalizedSection = NormalizedSection(text: string, locator: SourceLocator) {
    function Start(): nat {
      locator.charStart
    }

    function End(): nat {
      locator.charEnd
    }
  }

  function TextsOfSections(sections: seq<NormalizedSection>): seq<string> {
    seq(|sections|, k requires 0 <= k < |sections| => sections[k].text)
  }

  const SEPARATOR := "\n\n"

  /** The text the fixed-window chunker works on, and the text the locators count in. */
  function Stream(sections: seq<NormalizedSection>): string {
    JoinWith(SEPARATOR, TextsOfSections(sections))
  }

  /** Sections in stream order from `cursor` on, two characters apart. */
  predicate LaidOutFrom(sections: seq<NormalizedSection>, cursor: nat) {
    sections != [] ==>
      && sections[0].Start() == cursor
      && sections[0].End() == cursor + |sections[0].text|
      && sections[0].text != ""
      && LaidOutFrom(sections[1..], sections[0].End() + |SEPARATOR|)
  }

  predicate LaidOut(sections: seq<NormalizedSection>) {
    LaidOutFrom(sections, 0)
  }

  /** A section as it should come out: normalized text, and the source's path and page. */
  predicate Normalizes(nfc: string -> string, section: ExtractedSection, out: NormalizedSection) {
    && out.text == NormalizeDocumentText(nfc, section.text)
    && out.locator.sectionPath == section.sectionPath
    && out.locator.pageNumber == section.pageNumber
  }

  function NormalizedFrom(nfc: string -> string, sections: seq<ExtractedSection>, cursor: nat): seq<NormalizedSection> {
    if sections == [] then []
    else
      var text := NormalizeDocumentText(nfc, sections[0].text);
      if text == "" then NormalizedFrom(nfc, sections[1..], cursor)
      else
        [NormalizedSection(text, SourceLocator(sections[0].sectionPath, sections[0].pageNumber, cursor, cursor + |text|))]
        + NormalizedFrom(nfc, sections[1..], cursor + |text| + 2)
  }

  /** `_normalize_sections` */
  method NormalizeSections(nfc: string -> string, sections: seq<ExtractedSection>)
    returns (r: Result<seq<NormalizedSection>, IngestionErrorCode>)
    ensures r == var normalized := NormalizedFrom(nfc, sections, 0);
                 if normalized == [] then Failure(NoExtractableText) else Success(normalized)
  {
    hide NormalizeDocumentText;
    var normalized: seq<NormalizedSection> := [];
    var cursor: nat := 0;
    for i := 0 to |sections|
      invariant normalized + NormalizedFrom(nfc, sections[i..], cursor) == NormalizedFrom(nfc, sections, 0)
    {
      var section := sections[i];
      assert sections[i..][0] == section && sections[i..][1..] == sections[i + 1..];
      var text := NormalizeDocumentText(nfc, section.text);
      if text != "" {
        normalized := normalized + [
          NormalizedSection(text, SourceLocator(section.sectionPath, section.pageNumber, cursor, cursor + |text|))];
        cursor := cursor + |text| + 2;
      }
    }
    assert sections[|sections|..] == [] && normalized + [] == normalized;
    if normalized == [] {
      return Failure(NoExtractableText);
    }
    return Success(normalized);
  }

  /** out lists, in order, exactly the sections whose normalized text is not empty. */
  predicate KeepsNonEmpty(nfc: string -> string, sections: seq<ExtractedSection>, out: seq<NormalizedSection>) {
    if sections == [] then out == []
    else if NormalizeDocumentText(nfc, sections[0].text) == "" then KeepsNonEmpty(nfc, sections[1..], out)
    else out != [] && Normalizes(nfc, sections[0], out[0]) && KeepsNonEmpty(nfc, sections[1..], out[1..])
  }

  /** Normalization drops exactly the sections that come out empty, keeps the others' order, path
      and page, and lays them out. */
  lemma {:induction false} NormalizedSectionsAreLaidOut(nfc: string -> string, sections: seq<ExtractedSection>, cursor: nat)
    ensures var out := NormalizedFrom(nfc, sections, cursor);
            LaidOutFrom(out, cursor) && KeepsNonEmpty(nfc, sections, out)
  {
    hide NormalizeDocumentText;
    if sections != [] {
      var text := NormalizeDocumentText(nfc, sections[0].text);
      if text == "" {
        NormalizedSectionsAreLaidOut(nfc, sections[1..], cursor);
      } else {
        NormalizedSectionsAreLaidOut(nfc, sections[1..], cursor + |text| + 2);
        var out := NormalizedFrom(nfc, sections, cursor);
        assert out[1..] == NormalizedFrom(nfc, sections[1..], cursor + |text| + 2);
      }
    }
  }

  /** A text that is not blank is never lost: with composition that keeps non-blank text
      non-blank, as many sections come out as went in, and each has a valid locator. */
  lemma {:induction false} NoSectionIsLost(nfc: string -> string, sections: seq<ExtractedSection>, cursor: nat)
    requires forall s :: s in sections ==> s.Valid() && !IsBlank(nfc(s.text))
    ensures var out := NormalizedFrom(nfc, sections, cursor);
            && |out| == |sections|
            && (forall k :: 0 <= k < |out| ==>
                  Normalizes(nfc, sections[k], out[k]) && !IsBlank(out[k].text) && out[k].locator.Valid())
  {
    hide NormalizeDocumentText, IsBlank;
    if sections != [] {
      var text := NormalizeDocumentText(nfc, sections[0].text);
      assert sections[0].Valid();
      NonBlankStays(nfc, sections[0].text);
      NoSectionIsLost(nfc, sections[1..], cursor + |text| + 2);
      assert sections == [sections[0]] + sections[1..];
    }
  }

  lemma NonBlankStays(nfc: string -> string, s: string)
    requires !IsBlank(nfc(s))
    ensures !IsBlank(NormalizeDocumentText(nfc, s)) && NormalizeDocumentText(nfc, s) != ""
  {
    RewriteKeepsInk(nfc(s));
    InkOfBlank(nfc(s));
    InkOfBlank(Rewrite(nfc(s)));
  }

  // ---- where a section's text is on the stream

  lemma StreamOfCons(sections: seq<NormalizedSection>)
    requires sections != []
    ensures |sections| == 1 ==> Stream(sections) == sections[0].text
    ensures |sections| > 1 ==> Stream(sections) == sections[0].text + SEPARATOR + Stream(sections[1..])
  {
    assert TextsOfSections(sections)[1..] == TextsOfSections(sections[1..]);
  }

  /** `part` begins d characters in. */
  lemma PartOfTail(part: string, tail: string, head: string, d: nat)
    requires PartOf(part, tail, d)
    ensures PartOf(part, head + tail, |head| + d)
  {
    forall k | 0 <= k < |part| ensures part[k] == (head + tail)[|head| + d + k] {
      assert (head + tail)[|head| + (d + k)] == tail[d + k];
    }
  }

  lemma {:induction false} SectionIsPart(sections: seq<NormalizedSection>, cursor: nat, k: nat)
    requires LaidOutFrom(sections, cursor) && k < |sections|
    ensures cursor <= sections[k].Start() < sections[k].End() == sections[k].Start() + |sections[k].text|
    ensures PartOf(sections[k].text, Stream(sections), sections[k].Start() - cursor)
    ensures k == |sections| - 1 ==> |Stream(sections)| == sections[k].End() - cursor
    ensures k < |sections| - 1 ==> PartOf("\n\n", Stream(sections), sections[k].End() - cursor)
    ensures k < |sections| - 1 ==> sections[k + 1].Start() == sections[k].End() + 2
    ensures k == 0 ==> sections[k].Start() == cursor
    decreases k
  {
    hide Stream;
    StreamOfCons(sections);
    var head := sections[0].text + SEPARATOR;
    if k == 0 {
      if |sections| > 1 {
        PartOfTail(SEPARATOR, SEPARATOR, sections[0].text, 0);
        PartOfHead(SEPARATOR, head, Stream(sections[1..]), |sections[0].text|);
      }
    } else {
      var next := sections[0].End() + 2;
      SectionIsPart(sections[1..], next, k - 1);
      PartOfTail(sections[k].text, Stream(sections[1..]), head, sections[k].Start() - next);
      if k < |sections| - 1 {
        PartOfTail(SEPARATOR, Stream(sections[1..]), head, sections[k].End() - next);
      }
    }
  }

  lemma PartOfHead(part: string, head: string, tail: string, d: nat)
    requires PartOf(part, head, d)
    ensures PartOf(part, head + tail, d)
  {
  }

  lemma SeparatorIsSpace(head: string, tail: string, p: nat)
    requires |head| <= p < |head + SEPARATOR + tail|
    ensures p < |head| + 2 ==> IsSpace((head + SEPARATOR + tail)[p])
  {
    if p < |head| + 2 { assert (head + SEPARATOR + tail)[p] == SEPARATOR[p - |head|]; }
  }

  predicate Holds(section: NormalizedSection, p: nat) {
    section.Start() <= p < section.End()
  }

  /** Every character of the stream is in a section or in a separator. */
  lemma {:induction false} InkIsInASection(sections: seq<NormalizedSection>, cursor: nat, p: nat)
    requires LaidOutFrom(sections, cursor) && cursor <= p < cursor + |Stream(sections)|
    requires !IsSpace(Stream(sections)[p - cursor])
    ensures exists k :: 0 <= k < |sections| && Holds(sections[k], p)
    decreases |sections|
  {
    assert sections != [];
    StreamOfCons(sections);
    hide Stream;
    if p < sections[0].End() {
      assert Holds(sections[0], p);
    } else {
      var next := sections[0].End() + 2;
      SeparatorIsSpace(sections[0].text, Stream(sections[1..]), p - cursor);
      InkIsInASection(sections[1..], next, p);
      var k :| 0 <= k < |sections[1..]| && Holds(sections[1..][k], p);
      assert Holds(sections[k + 1], p);
    }
  }

  lemma {:induction false} LaterSectionsStartLater(sections: seq<NormalizedSection>, cursor: nat, j: nat, k: nat)
    requires LaidOutFrom(sections, cursor) && j < k < |sections|
    ensures sections[j].End() < sections[k].Start()
    decreases k - j
  {
    SectionIsPart(sections, cursor, j);
    SectionIsPart(sections, cursor, k);
    if j + 1 < k {
      SectionIsPart(sections, cursor, j + 1);
      LaterSectionsStartLater(sections, cursor, j + 1, k);
    }
  }

  /** No token of the stream reaches from one section into the next. */
  lemma TokensStayInTheirSection(w: WordClass, sections: seq<NormalizedSection>, t: Span)
    requires LaidOut(sections) && t in Tokenize(w, Stream(sections))
    ensures exists k :: 0 <= k < |sections| && sections[k].Start() <= t.start < t.end <= sections[k].End()
  {
    hide Stream, IsSpace, Tokenize, LaidOutFrom;
    var stream := Stream(sections);
    TokensPartitionInk(w, stream);
    var i :| 0 <= i < |Tokenize(w, stream)| && Tokenize(w, stream)[i] == t;
    assert TokenIn(stream, t);
    InkIsInASection(sections, 0, t.start);
    var k :| 0 <= k < |sections| && Holds(sections[k], t.start);
    SectionIsPart(sections, 0, k);
    EndsInside(sections, stream, t, k);
    assert sections[k].Start() <= t.start < t.end <= sections[k].End();
  }

  lemma EndsInside(sections: seq<NormalizedSection>, stream: string, t: Span, k: nat)
    requires k < |sections| && TokenIn(stream, t) && t.start < sections[k].End()
    requires k == |sections| - 1 ==> |stream| == sections[k].End()
    requires k < |sections| - 1 ==> PartOf(SEPARATOR, stream, sections[k].End())
    ensures t.end <= sections[k].End()
  {
    if k < |sections| - 1 {
      assert SEPARATOR[0] == stream[sections[k].End()];
      assert IsSpace(stream[sections[k].End()]);
    }
  }
}
