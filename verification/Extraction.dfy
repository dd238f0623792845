/** Cutting a Markdown document at its headings (extraction.py, `MarkdownExtractor.extract`). The
    parser's findings are an input: for each heading its line, level and content. */
module Extraction {
  import opened Results
  import opened Texts
  import opened Spacing
  import opened Domain
  import opened Transactions
  import opened Sections
  import opened Sorting

  datatype Heading = Heading(line: nat, level: nat, title: string)

  /** Python's `lines[from:to]` */
  function Slice<T>(items: seq<T>, from: nat, to: nat): seq<T> {
    var end := if to <= |items| then to else |items|;
    if from <= end then items[from..end] else []
  }

  function Joined(lines: seq<string>): string {
    JoinWith("", lines)
  }

  // ---- headings with a title

  /** The content of a heading, stripped. */
  function TitleOf(heading: Heading): Heading {
    heading.(title := Strip(heading.title))
  }

  predicate HasTitle(found: seq<Heading>, i: nat) {
    i < |found| && TitleOf(found[i]).title != ""
  }

  /** Those of the first n headings whose content is not blank, with that content stripped. */
  function TitledUpTo(found: seq<Heading>, n: nat): seq<Heading>
    requires n <= |found|
  {
    if n == 0 then []
    else
      var before := TitledUpTo(found, n - 1);
      if HasTitle(found, n - 1) then before + [TitleOf(found[n - 1])] else before
  }

  function Titled(found: seq<Heading>): seq<Heading> {
    TitledUpTo(found, |found|)
  }

  /** The loop over the parser's tokens. */
  method FindHeadings(found: seq<Heading>) returns (headings: seq<Heading>)
    ensures headings == Titled(found)
  {
    hide Strip;
    headings := [];
    for index := 0 to |found|
      invariant headings == TitledUpTo(found, index)
    {
      var title := Strip(found[index].title);
      if title != "" {
        headings := headings + [found[index].(title := title)];
      }
    }
  }

  /** Which of the first n headings have a title. */
  function TitledAt(found: seq<Heading>, n: nat): seq<nat>
    requires n <= |found|
  {
    if n == 0 then []
    else if HasTitle(found, n - 1) then TitledAt(found, n - 1) + [n - 1]
    else TitledAt(found, n - 1)
  }

  lemma {:induction false} TitledAtInOrder(found: seq<Heading>, n: nat)
    requires n <= |found|
    ensures Ascending(TitledAt(found, n)) && Below(TitledAt(found, n), n)
    ensures forall i: nat :: i in TitledAt(found, n) <==> i < n && HasTitle(found, i)
  {
    hide HasTitle;
    if n > 0 {
      TitledAtInOrder(found, n - 1);
      var before := TitledAt(found, n - 1);
      assert forall i: nat :: i in before + [n - 1] <==> i in before || i == n - 1;
    }
  }

  lemma {:induction false} TitledAre(found: seq<Heading>, n: nat)
    requires n <= |found|
    ensures |TitledUpTo(found, n)| == |TitledAt(found, n)|
    ensures forall k :: 0 <= k < |TitledAt(found, n)| ==>
              && TitledAt(found, n)[k] < n && HasTitle(found, TitledAt(found, n)[k])
              && TitledUpTo(found, n)[k] == TitleOf(found[TitledAt(found, n)[k]])
  {
    hide TitleOf, HasTitle;
    if n > 0 { TitledAre(found, n - 1); }
  }

  /** Exactly the found headings whose content is not blank remain, in order, each at its line and
      level and with its content stripped. */
  lemma HeadingsAreKept(found: seq<Heading>)
    ensures var chosen := TitledAt(found, |found|);
            && Ascending(chosen) && Below(chosen, |found|)
            && (forall i: nat :: i in chosen <==> i < |found| && !IsBlank(found[i].title))
            && |Titled(found)| == |chosen|
            && (forall k :: 0 <= k < |chosen| ==>
                  && Titled(found)[k].line == found[chosen[k]].line && Titled(found)[k].level == found[chosen[k]].level
                  && Titled(found)[k].title == Strip(found[chosen[k]].title))
  {
    hide TitledAt, TitledUpTo, Strip, IsBlank, Stripped;
    TitledAtInOrder(found, |found|);
    TitledAre(found, |found|);
    forall i: nat ensures HasTitle(found, i) <==> i < |found| && !IsBlank(found[i].title) {
      if i < |found| { StripIsStripped(found[i].title); }
    }
  }

  /** No heading title is blank or padded. */
  lemma TitlesAreInked(found: seq<Heading>)
    ensures forall k :: 0 <= k < |Titled(found)| ==> !IsBlank(Titled(found)[k].title) && Stripped(Titled(found)[k].title)
  {
    hide Strip, IsBlank, Stripped, TitledUpTo, TitledAt;
    TitledAre(found, |found|);
    var chosen := TitledAt(found, |found|);
    forall k | 0 <= k < |chosen| ensures !IsBlank(Titled(found)[k].title) && Stripped(Titled(found)[k].title) {
      var content := found[chosen[k]].title;
      StripIsStripped(content);
      StripIsStripped(Strip(content));
    }
  }

  // ---- heading paths

  /** j is an ancestor of i, or i itself: every heading behind j up to i is strictly deeper. */
  predicate Encloses(headings: seq<Heading>, j: nat, i: nat) {
    j <= i < |headings| && forall m :: j < m <= i ==> headings[j].level < headings[m].level
  }

  /** The headings from j on that enclose heading i, outermost first. */
  function PathFrom(headings: seq<Heading>, i: nat, j: nat): seq<nat>
    requires i < |headings|
    decreases i + 1 - j
  {
    if j > i then []
    else if Encloses(headings, j, i) then [j] + PathFrom(headings, i, j + 1)
    else PathFrom(headings, i, j + 1)
  }

  function Path(headings: seq<Heading>, i: nat): seq<nat>
    requires i < |headings|
  {
    PathFrom(headings, i, 0)
  }

  predicate Below(path: seq<nat>, n: nat) {
    forall a :: 0 <= a < |path| ==> path[a] < n
  }

  /** The indices from j on that enclose heading i, in order. */
  ghost predicate IsPath(headings: seq<Heading>, i: nat, j: nat, path: seq<nat>) {
    && Ascending(path)
    && (forall a :: 0 <= a < |path| ==> j <= path[a] && Encloses(headings, path[a], i))
    && (forall k: nat :: j <= k && Encloses(headings, k, i) ==> k in path)
  }

  lemma {:induction false} PathFromIsPath(headings: seq<Heading>, i: nat, j: nat)
    requires i < |headings|
    ensures IsPath(headings, i, j, PathFrom(headings, i, j))
    decreases i + 1 - j
  {
    if j <= i {
      PathFromIsPath(headings, i, j + 1);
      ConsPath(headings, i, j, PathFrom(headings, i, j + 1));
    }
  }

  lemma ConsPath(headings: seq<Heading>, i: nat, j: nat, rest: seq<nat>)
    requires IsPath(headings, i, j + 1, rest)
    ensures Encloses(headings, j, i) ==> IsPath(headings, i, j, [j] + rest)
    ensures !Encloses(headings, j, i) ==> IsPath(headings, i, j, rest)
  {
    hide Encloses;
    if Encloses(headings, j, i) {
      var path := [j] + rest;
      assert forall a :: 0 < a < |path| ==> path[a] == rest[a - 1];
      forall k: nat | j <= k && Encloses(headings, k, i) ensures k in path {
        if k == j { assert path[0] == k; } else { assert k in rest; }
      }
    }
  }

  predicate Among(a: seq<nat>, b: seq<nat>) {
    forall k :: 0 <= k < |a| ==> a[k] in b
  }

  /** Without the last elements, when those are equal. */
  lemma FrontAmong(a: seq<nat>, b: seq<nat>)
    requires Ascending(a) && Among(a, b) && a != [] && b != [] && a[|a| - 1] == b[|b| - 1]
    ensures Among(a[..|a| - 1], b[..|b| - 1])
  {
    var a', b' := a[..|a| - 1], b[..|b| - 1];
    forall k | 0 <= k < |a'| ensures a'[k] in b' {
      assert a[k] in b && a[k] < a[|a| - 1];
      var m :| 0 <= m < |b| && b[m] == a[k];
      assert b'[m] == a'[k];
    }
  }

  lemma LastOfBoth(a: seq<nat>, b: seq<nat>)
    requires Ascending(a) && Ascending(b) && Among(a, b) && Among(b, a)
    ensures a == [] <==> b == []
    ensures a != [] ==> a[|a| - 1] == b[|b| - 1]
  {
    if a != [] { assert a[|a| - 1] in b; }
    if b != [] { assert b[|b| - 1] in a; }
  }

  lemma {:induction false} AscendingIsUnique(a: seq<nat>, b: seq<nat>)
    requires Ascending(a) && Ascending(b) && Among(a, b) && Among(b, a)
    ensures a == b
  {
    LastOfBoth(a, b);
    if a != [] {
      FrontAmong(a, b);
      FrontAmong(b, a);
      AscendingIsUnique(a[..|a| - 1], b[..|b| - 1]);
      assert a == a[..|a| - 1] + [a[|a| - 1]];
      assert b == b[..|b| - 1] + [b[|b| - 1]];
    }
  }

  /** What the stack holds once the first i headings have been handled. */
  ghost predicate IsStack(headings: seq<Heading>, i: nat, path: seq<nat>) {
    && i <= |headings| && Below(path, i)
    && (i > 0 ==> IsPath(headings, i - 1, 0, path))
  }

  lemma StackIsPath(headings: seq<Heading>, i: nat, path: seq<nat>)
    requires 0 < i && IsStack(headings, i, path)
    ensures path == Path(headings, i - 1)
  {
    PathFromIsPath(headings, i - 1, 0);
    AscendingIsUnique(path, Path(headings, i - 1));
  }

  function Entries(headings: seq<Heading>, path: seq<nat>): (entries: seq<(nat, string)>)
    requires Below(path, |headings|)
    ensures |entries| == |path|
  {
    seq(|path|, k requires 0 <= k < |path| => (headings[path[k]].level, headings[path[k]].title))
  }

  function Titles(stack: seq<(nat, string)>): (titles: seq<string>)
    ensures |titles| == |stack|
  {
    seq(|stack|, k requires 0 <= k < |stack| => stack[k].1)
  }

  /** Along a path the levels increase strictly. */
  lemma LevelsIncrease(headings: seq<Heading>, i: nat, path: seq<nat>, a: nat, b: nat)
    requires IsPath(headings, i, 0, path) && a < b < |path|
    ensures path[a] < |headings| && path[b] < |headings|
    ensures headings[path[a]].level < headings[path[b]].level
  {
    assert Encloses(headings, path[a], i) && Encloses(headings, path[b], i);
  }

  /** An index of the old path stays exactly when it was not popped. */
  lemma PoppedOrKept(headings: seq<Heading>, i: nat, before: seq<nat>, n: nat, a: nat)
    requires i < |headings| && IsStack(headings, i, before) && n <= |before| && a < |before|
    requires n > 0 ==> headings[before[n - 1]].level < headings[i].level
    requires n < |before| ==> headings[before[n]].level >= headings[i].level
    ensures a < n <==> Encloses(headings, before[a], i)
  {
    assert Encloses(headings, before[a], i - 1);
    if a < n - 1 { LevelsIncrease(headings, i - 1, before, a, n - 1); }
    if n < a { LevelsIncrease(headings, i - 1, before, n, a); }
  }

  /** Popping while the top is at least as deep as heading i, then pushing i, turns the path of
      heading i - 1 into the path of heading i. */
  lemma PopAndPush(headings: seq<Heading>, i: nat, before: seq<nat>, n: nat)
    requires i < |headings| && IsStack(headings, i, before) && n <= |before|
    requires n > 0 ==> headings[before[n - 1]].level < headings[i].level
    requires n < |before| ==> headings[before[n]].level >= headings[i].level
    ensures IsStack(headings, i + 1, before[..n] + [i])
  {
    var after := before[..n] + [i];
    assert Encloses(headings, i, i);
    forall a | 0 <= a < |after| ensures Encloses(headings, after[a], i) {
      if a < n { PoppedOrKept(headings, i, before, n, a); }
    }
    forall k: nat | Encloses(headings, k, i) ensures k in after {
      if k < i {
        assert Encloses(headings, k, i - 1);
        var a :| 0 <= a < |before| && before[a] == k;
        PoppedOrKept(headings, i, before, n, a);
        assert after[a] == k;
      } else {
        assert after[n] == k;
      }
    }
  }

  lemma PathIsBelow(headings: seq<Heading>, i: nat)
    requires i < |headings|
    ensures Below(Path(headings, i), |headings|)
  {
    PathFromIsPath(headings, i, 0);
  }

  // ---- sections

  function NextLine(lines: seq<string>, headings: seq<Heading>, i: nat): nat {
    if i + 1 < |headings| then headings[i + 1].line else |lines|
  }

  function Body(lines: seq<string>, headings: seq<Heading>, i: nat): seq<string>
    requires i < |headings|
  {
    Slice(lines, headings[i].line + 1, NextLine(lines, headings, i))
  }

  /** The section of heading i. */
  function HeadingSection(lines: seq<string>, headings: seq<Heading>, i: nat): ExtractedSection
    requires i < |headings|
  {
    PathIsBelow(headings, i);
    ExtractedSection(headings[i].title + "\n" + Joined(Body(lines, headings, i)),
                     Titles(Entries(headings, Path(headings, i))), None)
  }

  function PreambleSections(lines: seq<string>, headings: seq<Heading>): seq<ExtractedSection>
    requires headings != []
  {
    var preamble := Joined(Slice(lines, 0, headings[0].line));
    if IsBlank(preamble) then [] else [ExtractedSection(preamble, [], None)]
  }

  function HeadingSections(lines: seq<string>, headings: seq<Heading>, n: nat): seq<ExtractedSection>
    requires n <= |headings|
  {
    if n == 0 then []
    else
      var before := HeadingSections(lines, headings, n - 1);
      if IsBlank(Joined(Body(lines, headings, n - 1))) then before
      else before + [HeadingSection(lines, headings, n - 1)]
  }

  function MarkdownSections(text: string, lines: seq<string>, headings: seq<Heading>): Result<seq<ExtractedSection>, IngestionErrorCode> {
    if IsBlank(text) then Failure(NoExtractableText)
    else if headings == [] then Success([ExtractedSection(text, [], None)])
    else Success(PreambleSections(lines, headings) + HeadingSections(lines, headings, |headings|))
  }

  /** The inner loop: pops while the top is at least as deep as `level`. */
  method PopDeeper(stack: seq<(nat, string)>, level: nat) returns (rest: seq<(nat, string)>)
    ensures |rest| <= |stack| && rest == stack[..|rest|]
    ensures rest != [] ==> rest[|rest| - 1].0 < level
    ensures |rest| < |stack| ==> stack[|rest|].0 >= level
  {
    rest := stack;
    while rest != [] && rest[|rest| - 1].0 >= level
      invariant |rest| <= |stack| && rest == stack[..|rest|]
      invariant |rest| < |stack| ==> stack[|rest|].0 >= level
      decreases |rest|
    {
      rest := rest[..|rest| - 1];
    }
  }

  /** `MarkdownExtractor.extract`, from the decoded text, its lines and the headings found in it. */
  method ExtractMarkdown(text: string, lines: seq<string>, found: seq<Heading>)
    returns (r: Result<seq<ExtractedSection>, IngestionErrorCode>)
    ensures r == MarkdownSections(text, lines, Titled(found))
  {
    hide IsBlank, Joined, Slice, IsStack, Entries, Titles, HeadingSections, Titled;
    if IsBlank(text) {
      return Failure(NoExtractableText);
    }
    var headings := FindHeadings(found);
    if headings == [] {
      return Success([ExtractedSection(text, [], None)]);
    }
    var sections: seq<ExtractedSection> := [];
    var preamble := Joined(Slice(lines, 0, headings[0].line));
    if !IsBlank(preamble) {
      sections := sections + [ExtractedSection(preamble, [], None)];
    }
    var headingStack: seq<(nat, string)> := [];
    ghost var path: seq<nat> := [];
    NothingStacked(lines, headings);
    for position := 0 to |headings|
      invariant IsStack(headings, position, path) && Below(path, |headings|)
      invariant headingStack == Entries(headings, path)
      invariant sections == PreambleSections(lines, headings) + HeadingSections(lines, headings, position)
    {
      var heading := headings[position];
      headingStack := PopDeeper(headingStack, heading.level);
      path := StackAfterPush(headings, position, path, headingStack);
      headingStack := headingStack + [(heading.level, heading.title)];
      var nextLine := if position + 1 < |headings| then headings[position + 1].line else |lines|;
      var body := Joined(Slice(lines, heading.line + 1, nextLine));
      SectionAfterPush(lines, headings, position, path, body);
      if !IsBlank(body) {
        sections := sections + [ExtractedSection(heading.title + "\n" + body, Titles(headingStack), None)];
      }
    }
    return Success(sections);
  }

  lemma StackAfterPush(headings: seq<Heading>, i: nat, before: seq<nat>, kept: seq<(nat, string)>) returns (after: seq<nat>)
    requires i < |headings| && IsStack(headings, i, before) && Below(before, |headings|)
    requires |kept| <= |before| && kept == Entries(headings, before)[..|kept|]
    requires kept != [] ==> kept[|kept| - 1].0 < headings[i].level
    requires |kept| < |before| ==> Entries(headings, before)[|kept|].0 >= headings[i].level
    ensures IsStack(headings, i + 1, after) && Below(after, |headings|)
    ensures Entries(headings, after) == kept + [(headings[i].level, headings[i].title)]
  {
    after := before[..|kept|] + [i];
    PopAndPush(headings, i, before, |kept|);
    hide IsStack;
  }

  lemma SectionAfterPush(lines: seq<string>, headings: seq<Heading>, i: nat, path: seq<nat>, body: string)
    requires i < |headings| && IsStack(headings, i + 1, path) && Below(path, |headings|)
    requires body == Joined(Slice(lines, headings[i].line + 1, if i + 1 < |headings| then headings[i + 1].line else |lines|))
    ensures HeadingSections(lines, headings, i + 1)
            == HeadingSections(lines, headings, i)
               + if IsBlank(body) then []
                 else [ExtractedSection(headings[i].title + "\n" + body, Titles(Entries(headings, path)), None)]
  {
    hide IsStack, Slice, Joined, IsBlank, Titles, Entries, Path;
    StackIsPath(headings, i + 1, path);
  }

  lemma NothingStacked(lines: seq<string>, headings: seq<Heading>)
    ensures IsStack(headings, 0, []) && Below([], |headings|) && Entries(headings, []) == []
    ensures HeadingSections(lines, headings, 0) == []
  {
  }

  /** The path of a heading: exactly the headings at or before it that every later one up to it is
      deeper than, outermost first, levels strictly increasing, ending in the heading itself. */
  lemma HeadingPaths(headings: seq<Heading>, i: nat)
    requires i < |headings|
    ensures var path := Path(headings, i);
            && (forall j: nat :: j in path <==> Encloses(headings, j, i))
            && Below(path, |headings|) && Ascending(path) && path != [] && path[|path| - 1] == i
            && (forall a, b :: 0 <= a < b < |path| ==> headings[path[a]].level < headings[path[b]].level)
  {
    var path := Path(headings, i);
    PathFromIsPath(headings, i, 0);
    assert Encloses(headings, i, i);
    var k :| 0 <= k < |path| && path[k] == i;
    assert Encloses(headings, path[|path| - 1], i);
    forall a, b | 0 <= a < b < |path| ensures headings[path[a]].level < headings[path[b]].level {
      LevelsIncrease(headings, i, path, a, b);
    }
  }

  // ---- nothing falls between the sections

  /** What the parser promises about the headings' lines. */
  predicate LinesInOrder(lines: seq<string>, headings: seq<Heading>) {
    && (forall i :: 0 <= i < |headings| ==> headings[i].line < |lines|)
    && (forall i, j :: 0 <= i < j < |headings| ==> headings[i].line < headings[j].line)
  }

  /** Heading line and body, for the headings from i on. */
  function Pieces(lines: seq<string>, headings: seq<Heading>, i: nat): seq<string>
    requires LinesInOrder(lines, headings) && i <= |headings|
    decreases |headings| - i
  {
    if i == |headings| then []
    else [lines[headings[i].line]] + Body(lines, headings, i) + Pieces(lines, headings, i + 1)
  }

  lemma {:induction false} PiecesAreTail(lines: seq<string>, headings: seq<Heading>, i: nat)
    requires LinesInOrder(lines, headings) && i < |headings|
    ensures Pieces(lines, headings, i) == lines[headings[i].line..]
    decreases |headings| - i
  {
    var line, next := headings[i].line, NextLine(lines, headings, i);
    assert Body(lines, headings, i) == lines[line + 1..next];
    assert [lines[line]] + lines[line + 1..next] == lines[line..next];
    if i + 1 < |headings| {
      PiecesAreTail(lines, headings, i + 1);
    }
    assert lines[line..next] + lines[next..] == lines[line..];
  }

  /** Preamble, heading lines and bodies are the document's lines, each once and in order. */
  lemma LinesArePartitioned(lines: seq<string>, headings: seq<Heading>)
    requires LinesInOrder(lines, headings) && headings != []
    ensures Slice(lines, 0, headings[0].line) + Pieces(lines, headings, 0) == lines
  {
    PiecesAreTail(lines, headings, 0);
  }

  predicate HasBody(lines: seq<string>, headings: seq<Heading>, i: nat) {
    i < |headings| && !IsBlank(Joined(Body(lines, headings, i)))
  }

  /** Sections come from exactly the headings whose body is not blank, in order. */
  lemma {:induction false} SectionsOfBodies(lines: seq<string>, headings: seq<Heading>, n: nat) returns (chosen: seq<nat>)
    requires n <= |headings|
    ensures Ascending(chosen) && Below(chosen, n)
    ensures forall i: nat :: i in chosen <==> i < n && HasBody(lines, headings, i)
    ensures |HeadingSections(lines, headings, n)| == |chosen|
    ensures forall k :: 0 <= k < |chosen| ==>
              HeadingSections(lines, headings, n)[k] == HeadingSection(lines, headings, chosen[k])
  {
    hide Joined, Body, IsBlank, HeadingSection;
    if n == 0 {
      chosen := [];
    } else {
      var before := SectionsOfBodies(lines, headings, n - 1);
      chosen := if HasBody(lines, headings, n - 1) then before + [n - 1] else before;
      assert forall i: nat :: i in before + [n - 1] <==> i in before || i == n - 1;
    }
  }

  lemma HeadingSectionIsValid(lines: seq<string>, headings: seq<Heading>, i: nat)
    requires i < |headings| && forall j :: 0 <= j <= i ==> !IsBlank(headings[j].title)
    ensures HeadingSection(lines, headings, i).Valid()
  {
    hide Path, Joined;
    var section := HeadingSection(lines, headings, i);
    HeadingPaths(headings, i);
    var title := headings[i].title;
    var p :| 0 <= p < |title| && !IsSpace(title[p]);
    assert section.text[p] == title[p];
    forall k | 0 <= k < |section.sectionPath| ensures !IsBlank(section.sectionPath[k]) {
      assert Path(headings, i)[k] in Path(headings, i);
      assert Encloses(headings, Path(headings, i)[k], i);
    }
  }

  /** Whatever the parser finds, every section cut out of a Markdown document passes the checks of
      its constructor and has no blank part in its path. */
  lemma MarkdownSectionsAreValid(text: string, lines: seq<string>, found: seq<Heading>)
    ensures var r := MarkdownSections(text, lines, Titled(found));
            r.Success? ==> forall s :: s in r.value ==> s.Valid()
  {
    hide IsBlank, Joined, Slice, HeadingSection, Titled, Body, Strip, Stripped;
    var headings := Titled(found);
    TitlesAreInked(found);
    var chosen := SectionsOfBodies(lines, headings, |headings|);
    forall k | 0 <= k < |chosen| ensures HeadingSections(lines, headings, |headings|)[k].Valid() {
      HeadingSectionIsValid(lines, headings, chosen[k]);
    }
  }

  // ---- what the sections hold

  function LengthOf(lines: seq<string>): nat {
    if lines == [] then 0 else LengthOf(lines[..|lines| - 1]) + |lines[|lines| - 1]|
  }

  /** The k-th line stands where the lines before it end. */
  predicate StandsAt(text: string, lines: seq<string>, k: nat)
    requires k < |lines|
  {
    var start := LengthOf(lines[..k]);
    start + |lines[k]| <= |text| && text[start..start + |lines[k]|] == lines[k]
  }

  /** A text made of lines has each line at its place and nothing else. */
  predicate MadeOf(text: string, lines: seq<string>) {
    |text| == LengthOf(lines) && forall k :: 0 <= k < |lines| ==> StandsAt(text, lines, k)
  }

  lemma {:induction false} LengthOfConcat(a: seq<string>, b: seq<string>)
    ensures LengthOf(a + b) == LengthOf(a) + LengthOf(b)
  {
    if b == [] {
      assert a + b == a;
    } else {
      var front := b[..|b| - 1];
      LengthOfConcat(a, front);
      assert (a + b)[..|a + b| - 1] == a + front;
    }
  }

  lemma JoinedUnfolds(lines: seq<string>)
    requires lines != []
    ensures Joined(lines) == lines[0] + Joined(lines[1..])
  {
    if |lines| == 1 { assert lines[0] + "" == lines[0]; } else { assert lines[0] + "" + JoinWith("", lines[1..]) == lines[0] + JoinWith("", lines[1..]); }
  }

  lemma LengthOfFirst(lines: seq<string>, k: nat)
    requires 0 < k <= |lines|
    ensures LengthOf(lines[..k]) == |lines[0]| + LengthOf(lines[1..][..k - 1])
  {
    var first: seq<string> := [lines[0]];
    assert lines[..k] == first + lines[1..][..k - 1];
    LengthOfConcat(first, lines[1..][..k - 1]);
    assert first[..0] == [] && LengthOf(first) == |lines[0]|;
  }

  lemma StandsBehind(text: string, lines: seq<string>, k: nat)
    requires 0 < k < |lines| && StandsAt(text, lines[1..], k - 1)
    ensures StandsAt(lines[0] + text, lines, k)
  {
    hide LengthOf;
    LengthOfFirst(lines, k);
    var all, start := lines[0] + text, LengthOf(lines[1..][..k - 1]);
    assert lines[1..][k - 1] == lines[k];
    assert all[|lines[0]| + start..|lines[0]| + start + |lines[k]|] == text[start..start + |lines[k]|];
  }

  lemma {:induction false} JoinedIsMadeOf(lines: seq<string>)
    ensures MadeOf(Joined(lines), lines)
  {
    hide Joined, StandsAt;
    if lines == [] {
      NothingJoined();
    } else {
      JoinedUnfolds(lines);
      JoinedIsMadeOf(lines[1..]);
      assert lines[..|lines|] == lines && lines[1..][..|lines| - 1] == lines[1..];
      LengthOfFirst(lines, |lines|);
      FirstStands(Joined(lines[1..]), lines);
      forall k | 0 < k < |lines| ensures StandsAt(Joined(lines), lines, k) {
        StandsBehind(Joined(lines[1..]), lines, k);
      }
    }
  }

  lemma FirstStands(text: string, lines: seq<string>)
    requires lines != []
    ensures StandsAt(lines[0] + text, lines, 0)
  {
    assert lines[..0] == [];
    assert (lines[0] + text)[0..|lines[0]|] == lines[0];
  }

  lemma NothingJoined()
    ensures Joined([]) == ""
  {
  }

  /** The non-whitespace characters of some lines, in order. */
  function InkOfLines(lines: seq<string>): string {
    if lines == [] then "" else Ink(lines[0]) + InkOfLines(lines[1..])
  }

  lemma {:induction false} InkOfJoined(lines: seq<string>)
    ensures Ink(Joined(lines)) == InkOfLines(lines)
  {
    hide Joined, Ink;
    if lines == [] {
      NothingJoined();
      assert Ink("") == "" by { InkOfBlank(""); }
    } else {
      JoinedUnfolds(lines);
      InkOfJoined(lines[1..]);
      InkConcat(lines[0], Joined(lines[1..]));
    }
  }

  lemma {:induction false} LinesWithInk(lines: seq<string>)
    ensures InkOfLines(lines) == "" <==> forall k :: 0 <= k < |lines| ==> IsBlank(lines[k])
  {
    hide Ink, IsBlank;
    if lines != [] {
      InkOfBlank(lines[0]);
      LinesWithInk(lines[1..]);
      assert forall k :: 1 <= k < |lines| ==> lines[k] == lines[1..][k - 1];
    }
  }

  /** A heading has a section exactly when some line between it and the next heading is not blank. */
  lemma BodiesHaveInk(lines: seq<string>, headings: seq<Heading>, i: nat)
    requires LinesInOrder(lines, headings) && i < |headings|
    ensures HasBody(lines, headings, i) <==> exists k :: headings[i].line < k < NextLine(lines, headings, i) && !IsBlank(lines[k])
  {
    hide Joined, IsBlank, Ink, InkOfLines;
    var body, line := Body(lines, headings, i), headings[i].line;
    assert body == lines[line + 1..NextLine(lines, headings, i)];
    InkOfJoined(body);
    InkOfBlank(Joined(body));
    LinesWithInk(body);
    if exists k :: line < k < NextLine(lines, headings, i) && !IsBlank(lines[k]) {
      var k :| line < k < NextLine(lines, headings, i) && !IsBlank(lines[k]);
      assert body[k - line - 1] == lines[k];
    } else {
      assert forall k :: 0 <= k < |body| ==> body[k] == lines[line + 1 + k];
    }
  }

  /** What a heading's section holds: the title, a newline, and the lines of the body; its path is the
      titles of the headings around it, itself last. */
  lemma HeadingSectionHolds(lines: seq<string>, headings: seq<Heading>, i: nat)
    requires i < |headings|
    ensures var section, title := HeadingSection(lines, headings, i), headings[i].title;
            && section.text == title + "\n" + section.text[|title| + 1..] && MadeOf(section.text[|title| + 1..], Body(lines, headings, i))
            && section.pageNumber == None
            && |section.sectionPath| == |Path(headings, i)| && Below(Path(headings, i), |headings|)
            && forall k :: 0 <= k < |section.sectionPath| ==> section.sectionPath[k] == headings[Path(headings, i)[k]].title
  {
    hide Joined, MadeOf, Path;
    PathIsBelow(headings, i);
    var body := Body(lines, headings, i);
    JoinedIsMadeOf(body);
    var section, title := HeadingSection(lines, headings, i), headings[i].title;
    assert section.text == title + "\n" + Joined(body);
    assert section.text[|title| + 1..] == Joined(body);
  }

  /** The lines above the first heading make a section exactly when one of them is not blank: those
      lines, under no heading, on no page. */
  lemma PreambleHolds(lines: seq<string>, headings: seq<Heading>)
    requires LinesInOrder(lines, headings) && headings != []
    ensures var sections := PreambleSections(lines, headings);
            && |sections| <= 1
            && (sections != [] <==> exists k :: 0 <= k < headings[0].line && !IsBlank(lines[k]))
            && (sections != [] ==>
                  && MadeOf(sections[0].text, lines[..headings[0].line])
                  && sections[0].sectionPath == [] && sections[0].pageNumber == None)
  {
    hide Joined, IsBlank, Ink, InkOfLines, MadeOf;
    var n := headings[0].line;
    var preamble := lines[..n];
    assert Slice(lines, 0, n) == preamble;
    JoinedIsMadeOf(preamble);
    InkOfJoined(preamble);
    InkOfBlank(Joined(preamble));
    LinesWithInk(preamble);
    assert forall k :: 0 <= k < n ==> preamble[k] == lines[k];
  }

  function InkOfSections(sections: seq<ExtractedSection>): string {
    if sections == [] then "" else InkOfSections(sections[..|sections| - 1]) + Ink(sections[|sections| - 1].text)
  }

  /** The ink of the first n headings' sections: title and body of those with ink in their body. */
  function InkOfBodies(lines: seq<string>, headings: seq<Heading>, n: nat): string
    requires n <= |headings|
  {
    if n == 0 then ""
    else
      var body := InkOfLines(Body(lines, headings, n - 1));
      InkOfBodies(lines, headings, n - 1) + if body == "" then "" else Ink(headings[n - 1].title) + body
  }

  lemma {:induction false} InkOfHeadingSections(lines: seq<string>, headings: seq<Heading>, n: nat)
    requires n <= |headings|
    ensures InkOfSections(HeadingSections(lines, headings, n)) == InkOfBodies(lines, headings, n)
  {
    hide Joined, Ink, IsBlank, InkOfLines, Body, Path;
    if n > 0 {
      InkOfHeadingSections(lines, headings, n - 1);
      var body, title := Body(lines, headings, n - 1), headings[n - 1].title;
      var before, all := HeadingSections(lines, headings, n - 1), HeadingSections(lines, headings, n);
      InkOfJoined(body);
      InkOfBlank(Joined(body));
      if !IsBlank(Joined(body)) {
        assert all[..|all| - 1] == before;
        InkConcat(title + "\n", Joined(body));
        InkConcat(title, "\n");
        NewlineHasNoInk();
        assert Ink(title) + "" == Ink(title);
      } else {
        assert InkOfBodies(lines, headings, n - 1) + "" == InkOfBodies(lines, headings, n - 1);
      }
    }
  }

  lemma NewlineHasNoInk()
    ensures Ink("\n") == ""
  {
    assert IsBlank("\n");
    InkOfBlank("\n");
  }

  lemma {:induction false} InkOfBoth(a: seq<ExtractedSection>, b: seq<ExtractedSection>)
    ensures InkOfSections(a + b) == InkOfSections(a) + InkOfSections(b)
  {
    hide Ink;
    if b == [] {
      assert a + b == a && InkOfSections(a) + "" == InkOfSections(a);
    } else {
      var front := b[..|b| - 1];
      InkOfBoth(a, front);
      assert (a + b)[..|a + b| - 1] == a + front;
    }
  }

  /** Extraction loses and invents no character: the sections of a document with headings have, in
      order, the ink of the preamble's lines and, for each heading with ink in its body, of its title
      and of the body's lines; without headings there is one section, the text. */
  lemma SectionsKeepInk(text: string, lines: seq<string>, headings: seq<Heading>)
    requires !IsBlank(text)
    ensures MarkdownSections(text, lines, headings).Success?
    ensures headings == [] ==> MarkdownSections(text, lines, headings).value == [ExtractedSection(text, [], None)]
    ensures headings != [] ==>
              InkOfSections(MarkdownSections(text, lines, headings).value)
              == InkOfLines(Slice(lines, 0, headings[0].line)) + InkOfBodies(lines, headings, |headings|)
  {
    hide Joined, Ink, IsBlank, InkOfLines, HeadingSections, InkOfBodies, Slice;
    if headings != [] {
      var preamble := Slice(lines, 0, headings[0].line);
      InkOfBoth(PreambleSections(lines, headings), HeadingSections(lines, headings, |headings|));
      InkOfHeadingSections(lines, headings, |headings|);
      InkOfJoined(preamble);
      InkOfBlank(Joined(preamble));
      OnePreamble(Joined(preamble));
    }
  }

  lemma OnePreamble(text: string)
    ensures InkOfSections([ExtractedSection(text, [], None)]) == Ink(text) && InkOfSections([]) == ""
  {
    hide Ink;
    assert [ExtractedSection(text, [], None)][..0] == [];
    assert "" + Ink(text) == Ink(text);
  }
}
