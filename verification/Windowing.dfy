/** Overlapping token windows over one text (chunking.py, `_windows`). */
module Windowing {
  import opened Texts
  import opened Tokens

  datatype TextWindow = TextWindow(text: string, tokenCount: nat, charStart: nat, charEnd: nat)

  // ---- which tokens each window takes

  /** Token ranges of the windows from token `start` on. */
  function Ranges(n: nat, size: nat, overlap: nat, start: nat): seq<Span>
    requires overlap < size && start < n
    decreases n - start
  {
    if start + size >= n then [Span(start, n)]
    else [Span(start, start + size)] + Ranges(n, size, overlap, start + size - overlap)
  }

  /** The windowing the configuration asks for, said of neighbours only: full size but for the
      last, exactly `overlap` tokens shared, something new in each, the last one ends the text. */
  predicate IsWindowing(ranges: seq<Span>, n: nat, size: nat, overlap: nat, start: nat) {
    && ranges != [] && ranges[0].start == start
    && ranges[|ranges| - 1].end == n
    && ranges[|ranges| - 1].start < n <= ranges[|ranges| - 1].start + size
    && AllFollow(ranges, size, overlap)
  }

  predicate Follows(a: Span, b: Span, size: nat, overlap: nat) {
    a.end == a.start + size && b.start + overlap == a.end && a.end < b.end
  }

  lemma {:induction false} LaterEndsAreLarger(ranges: seq<Span>, size: nat, overlap: nat, k: nat)
    requires k < |ranges|
    requires AllFollow(ranges, size, overlap)
    ensures ranges[k].end <= ranges[|ranges| - 1].end
    ensures k < |ranges| - 1 ==> ranges[k].end < ranges[|ranges| - 1].end
    decreases |ranges| - k
  {
    if k < |ranges| - 1 {
      assert FollowsAt(ranges, k, size, overlap);
      LaterEndsAreLarger(ranges, size, overlap, k + 1);
    }
  }

  predicate FollowsAt(ranges: seq<Span>, k: nat, size: nat, overlap: nat)
    requires k + 1 < |ranges|
  {
    Follows(ranges[k], ranges[k + 1], size, overlap)
  }

  predicate AllFollow(ranges: seq<Span>, size: nat, overlap: nat) {
    forall k :: 0 <= k < |ranges| - 1 ==> FollowsAt(ranges, k, size, overlap)
  }

  lemma LoopIsWindowing(first: Span, rest: seq<Span>, n: nat, size: nat, overlap: nat)
    requires overlap < size && first.end == first.start + size < n
    requires IsWindowing(rest, n, size, overlap, first.end - overlap)
    ensures IsWindowing([first] + rest, n, size, overlap, first.start)
  {
    var all := [first] + rest;
    if |rest| > 1 { assert FollowsAt(rest, 0, size, overlap); }
    forall k | 0 <= k < |all| - 1 ensures FollowsAt(all, k, size, overlap) {
      if k > 0 { assert FollowsAt(rest, k - 1, size, overlap); }
    }
  }

  lemma WindowingTail(ranges: seq<Span>, n: nat, size: nat, overlap: nat, start: nat)
    requires overlap < size && IsWindowing(ranges, n, size, overlap, start)
    ensures ranges[0].start == start
    ensures |ranges| == 1 ==> ranges[0].end == n <= start + size
    ensures |ranges| > 1 ==> ranges[0].end == start + size < n
    ensures |ranges| > 1 ==> IsWindowing(ranges[1..], n, size, overlap, start + size - overlap)
  {
    if |ranges| > 1 {
      LaterEndsAreLarger(ranges, size, overlap, 0);
      assert FollowsAt(ranges, 0, size, overlap);
      var rest := ranges[1..];
      forall k | 0 <= k < |rest| - 1 ensures FollowsAt(rest, k, size, overlap) {
        assert FollowsAt(ranges, k + 1, size, overlap);
      }
    }
  }

  lemma {:induction false} RangesAreWindowing(n: nat, size: nat, overlap: nat, start: nat)
    requires overlap < size && start < n
    ensures IsWindowing(Ranges(n, size, overlap, start), n, size, overlap, start)
    decreases n - start
  {
    if start + size < n {
      RangesAreWindowing(n, size, overlap, start + size - overlap);
      hide IsWindowing;
      LoopIsWindowing(Span(start, start + size), Ranges(n, size, overlap, start + size - overlap), n, size, overlap);
    }
  }

  /** The loop's windows are the only ones that meet the configuration. */
  lemma {:induction false} WindowingIsUnique(ranges: seq<Span>, n: nat, size: nat, overlap: nat, start: nat)
    requires overlap < size && start < n
    ensures IsWindowing(ranges, n, size, overlap, start) <==> ranges == Ranges(n, size, overlap, start)
    decreases n - start
  {
    RangesAreWindowing(n, size, overlap, start);
    if IsWindowing(ranges, n, size, overlap, start) {
      assert ranges != [];
      WindowingTail(ranges, n, size, overlap, start);
      hide IsWindowing;
      assert ranges == [ranges[0]] + ranges[1..];
      if start + size < n {
        WindowingIsUnique(ranges[1..], n, size, overlap, start + size - overlap);
      }
    }
  }

  predicate Within(ranges: seq<Span>, start: nat, n: nat) {
    forall k :: 0 <= k < |ranges| ==> start <= ranges[k].start < ranges[k].end <= n
  }

  predicate CoversAll(ranges: seq<Span>, start: nat, n: nat) {
    forall t: nat :: start <= t < n ==> Covers(ranges, t)
  }

  lemma CoverOneMore(first: Span, rest: seq<Span>, next: nat, n: nat)
    requires first.start <= next <= first.end <= n && first.start < first.end
    requires Within(rest, next, n) && CoversAll(rest, next, n)
    ensures Within([first] + rest, first.start, n) && CoversAll([first] + rest, first.start, n)
  {
    var all := [first] + rest;
    forall t: nat | first.start <= t < n ensures Covers(all, t) {
      if t < first.end {
        assert all[0].start <= t < all[0].end;
      } else {
        assert Covers(rest, t);
        var k :| 0 <= k < |rest| && rest[k].start <= t < rest[k].end;
        assert all[k + 1] == rest[k];
      }
    }
  }

  lemma {:induction false} RangesAreInside(n: nat, size: nat, overlap: nat, start: nat)
    requires overlap < size && start < n
    ensures Within(Ranges(n, size, overlap, start), start, n)
    ensures CoversAll(Ranges(n, size, overlap, start), start, n)
    decreases n - start
  {
    hide Within, CoversAll;
    if start + size < n {
      var next := start + size - overlap;
      RangesAreInside(n, size, overlap, next);
      CoverOneMore(Span(start, start + size), Ranges(n, size, overlap, next), next, n);
    } else {
      CoverOneMore(Span(start, n), [], n, n);
      assert [Span(start, n)] + [] == [Span(start, n)];
    }
  }

  function TotalLength(ranges: seq<Span>): int {
    if ranges == [] then 0 else ranges[0].end - ranges[0].start + TotalLength(ranges[1..])
  }

  /** Only the shared tokens are counted twice. */
  lemma {:induction false} CountsAddUp(n: nat, size: nat, overlap: nat, start: nat)
    requires overlap < size && start < n
    ensures var r := Ranges(n, size, overlap, start);
            TotalLength(r) == n - start + overlap * (|r| - 1)
    decreases n - start
  {
    var r := Ranges(n, size, overlap, start);
    if start + size < n {
      CountsAddUp(n, size, overlap, start + size - overlap);
      assert r[1..] == Ranges(n, size, overlap, start + size - overlap);
      assert overlap * (|r| - 1) == overlap * (|r| - 2) + overlap;
    } else {
      assert TotalLength(r[1..]) == 0;
      assert overlap * (|r| - 1) == 0;
    }
  }

  /** Glues the parts together, taking the first `overlap` elements of each later part away. */
  function Rebuilt<T>(parts: seq<seq<T>>, overlap: nat): seq<T> {
    if parts == [] then []
    else
      var rest := Rebuilt(parts[1..], overlap);
      parts[0] + if overlap <= |rest| then rest[overlap..] else []
  }

  lemma RebuiltOfCons<T>(items: seq<T>, first: Span, rest: seq<Span>, overlap: nat)
    requires first.start <= first.end <= |items|
    requires forall k :: 0 <= k < |rest| ==> rest[k].start <= rest[k].end <= |items|
    ensures var tail := Rebuilt(Parts(items, rest), overlap);
            Rebuilt(Parts(items, [first] + rest), overlap)
            == items[first.start..first.end] + if overlap <= |tail| then tail[overlap..] else []
  {
    var parts := Parts(items, [first] + rest);
    assert parts[1..] == Parts(items, rest);
  }

  lemma {:induction false} RebuiltIsWhole<T>(items: seq<T>, size: nat, overlap: nat, start: nat)
    requires overlap < size && start < |items|
    ensures var r := Ranges(|items|, size, overlap, start);
            && Within(r, start, |items|)
            && Rebuilt(Parts(items, r), overlap) == items[start..]
    decreases |items| - start
  {
    RangesAreInside(|items|, size, overlap, start);
    if start + size < |items| {
      var next := start + size - overlap;
      RebuiltIsWhole(items, size, overlap, next);
      hide Rebuilt, Parts;
      RebuiltOfCons(items, Span(start, start + size), Ranges(|items|, size, overlap, next), overlap);
      JoinOverlap(items, start, start + size, overlap);
    } else {
      var parts := Parts(items, [Span(start, |items|)]);
      assert parts[0] == items[start..|items|] == items[start..];
      assert parts[1..] == [];
    }
  }

  lemma JoinOverlap<T>(items: seq<T>, start: nat, end: nat, overlap: nat)
    requires start <= end <= |items| && overlap <= end
    ensures items[start..end] + items[end - overlap..][overlap..] == items[start..]
  {
    assert items[end - overlap..][overlap..] == items[end..];
  }

  // ---- the windows

  predicate TokensIn(text: string, tokens: seq<Span>) {
    (forall k :: 0 <= k < |tokens| ==> TokenIn(text, tokens[k])) && InOrder(tokens)
  }

  lemma TokenizeIsIn(w: WordClass, text: string)
    ensures TokensIn(text, Tokenize(w, text))
  {
    TokensPartitionInk(w, text);
  }

  lemma RangeChars(text: string, tokens: seq<Span>, range: Span)
    requires TokensIn(text, tokens) && range.start < range.end <= |tokens|
    ensures tokens[range.start].start < tokens[range.end - 1].end <= |text|
    ensures !IsSpace(text[tokens[range.start].start]) && !IsSpace(text[tokens[range.end - 1].end - 1])
  {
    assert TokenIn(text, tokens[range.start]) && TokenIn(text, tokens[range.end - 1]);
    if range.start < range.end - 1 { assert tokens[range.start].end <= tokens[range.end - 1].start; }
  }

  function WindowOf(text: string, tokens: seq<Span>, range: Span): TextWindow
    requires TokensIn(text, tokens) && range.start < range.end <= |tokens|
  {
    RangeChars(text, tokens, range);
    var a, b := tokens[range.start].start, tokens[range.end - 1].end;
    TextWindow(Strip(text[a..b]), range.end - range.start, a, b)
  }

  function WindowsFrom(text: string, tokens: seq<Span>, size: nat, overlap: nat, start: nat): (windows: seq<TextWindow>)
    requires overlap < size && start < |tokens| && TokensIn(text, tokens)
    ensures |windows| == |Ranges(|tokens|, size, overlap, start)|
    ensures windows != []
    decreases |tokens| - start
  {
    if start + size >= |tokens| then [WindowOf(text, tokens, Span(start, |tokens|))]
    else [WindowOf(text, tokens, Span(start, start + size))] + WindowsFrom(text, tokens, size, overlap, start + size - overlap)
  }

  /** The k-th window takes the k-th range. */
  lemma {:induction false} WindowAt(text: string, tokens: seq<Span>, size: nat, overlap: nat, start: nat, k: nat)
    requires overlap < size && start < |tokens| && TokensIn(text, tokens)
    requires k < |Ranges(|tokens|, size, overlap, start)|
    ensures var range := Ranges(|tokens|, size, overlap, start)[k];
            && range.start < range.end <= |tokens|
            && WindowsFrom(text, tokens, size, overlap, start)[k] == WindowOf(text, tokens, range)
    decreases k
  {
    hide WindowOf, TokensIn;
    if k > 0 {
      WindowAt(text, tokens, size, overlap, start + size - overlap, k - 1);
    }
  }

  function WindowsOf(w: WordClass, text: string, size: nat, overlap: nat): seq<TextWindow>
    requires overlap < size
  {
    TokenizeIsIn(w, text);
    var tokens := Tokenize(w, text);
    if tokens == [] then [] else WindowsFrom(text, tokens, size, overlap, 0)
  }

  /** `_windows`. The loop is never left by its guard: a start behind the last token would need a
      window that does not reach the last token though it is shorter than `step`. */
  method Windows(w: WordClass, text: string, size: nat, overlap: nat) returns (windows: seq<TextWindow>)
    requires overlap < size
    ensures windows == WindowsOf(w, text, size, overlap)
  {
    hide Strip, Ranges, TokensIn, Tokenize, IsSpace, WindowsFrom;
    var matches := Tokenize(w, text);
    TokenizeIsIn(w, text);
    windows := [];
    if matches == [] {
      return;
    }
    var step := size - overlap;
    var tokenStart := 0;
    ghost var leftByBreak := false;
    while tokenStart < |matches|
      invariant tokenStart < |matches|
      invariant !leftByBreak
      invariant windows + WindowsFrom(text, matches, size, overlap, tokenStart) == WindowsOf(w, text, size, overlap)
      decreases |matches| - tokenStart
    {
      var tokenEnd := if tokenStart + size < |matches| then tokenStart + size else |matches|;
      RangeChars(text, matches, Span(tokenStart, tokenEnd));
      var charStart := matches[tokenStart].start;
      var charEnd := matches[tokenEnd - 1].end;
      WindowsFromStep(text, matches, size, overlap, tokenStart);
      windows := windows + [TextWindow(Strip(text[charStart..charEnd]), tokenEnd - tokenStart, charStart, charEnd)];
      if tokenEnd == |matches| {
        leftByBreak := true;
        break;
      }
      tokenStart := tokenStart + step;
    }
    assert leftByBreak;
  }

  lemma WindowsFromStep(text: string, tokens: seq<Span>, size: nat, overlap: nat, start: nat)
    requires overlap < size && start < |tokens| && TokensIn(text, tokens)
    ensures start + size >= |tokens| ==>
              WindowsFrom(text, tokens, size, overlap, start) == [WindowOf(text, tokens, Span(start, |tokens|))]
    ensures start + size < |tokens| ==>
              WindowsFrom(text, tokens, size, overlap, start)
              == [WindowOf(text, tokens, Span(start, start + size))]
                 + WindowsFrom(text, tokens, size, overlap, start + size - overlap)
  {
  }

  // ---- what the windows are

  /** The window is cut out of the text as it stands: strip() takes nothing away. */
  predicate CutOut(text: string, window: TextWindow) {
    && window.charStart < window.charEnd <= |text|
    && window.text == text[window.charStart..window.charEnd]
    && Stripped(window.text)
    && window.tokenCount >= 1
  }

  lemma CutBetweenInk(text: string, a: nat, b: nat)
    requires a < b <= |text| && !IsSpace(text[a]) && !IsSpace(text[b - 1])
    ensures Strip(text[a..b]) == text[a..b] && Stripped(text[a..b]) && !IsBlank(text[a..b])
  {
    var cut := text[a..b];
    assert cut[0] == text[a] && cut[|cut| - 1] == text[b - 1];
    StripIsStripped(cut);
  }

  lemma WindowIsCutOut(text: string, tokens: seq<Span>, range: Span)
    requires TokensIn(text, tokens) && range.start < range.end <= |tokens|
    ensures CutOut(text, WindowOf(text, tokens, range)) && !IsBlank(WindowOf(text, tokens, range).text)
    ensures !IsSpace(text[WindowOf(text, tokens, range).charStart])
  {
    hide IsSpace, Strip, TokensIn, IsBlank, Stripped;
    RangeChars(text, tokens, range);
    CutBetweenInk(text, tokens[range.start].start, tokens[range.end - 1].end);
  }

  lemma WindowsAreCutOut(w: WordClass, text: string, size: nat, overlap: nat)
    requires overlap < size
    ensures var ws := WindowsOf(w, text, size, overlap);
            forall k :: 0 <= k < |ws| ==>
              CutOut(text, ws[k]) && !IsBlank(ws[k].text) && !IsSpace(text[ws[k].charStart])
  {
    hide Ranges, Tokenize, WindowOf, IsSpace, Stripped, IsBlank, WindowsFrom, TokensIn;
    TokenizeIsIn(w, text);
    var tokens, ws := Tokenize(w, text), WindowsOf(w, text, size, overlap);
    forall k | 0 <= k < |ws|
      ensures CutOut(text, ws[k]) && !IsBlank(ws[k].text) && !IsSpace(text[ws[k].charStart])
    {
      WindowAt(text, tokens, size, overlap, 0, k);
      WindowIsCutOut(text, tokens, Ranges(|tokens|, size, overlap, 0)[k]);
    }
  }

  predicate InWindow(windows: seq<TextWindow>, p: nat) {
    exists k :: 0 <= k < |windows| && windows[k].charStart <= p < windows[k].charEnd
  }

  /** No non-whitespace character is outside all windows; none at all means a blank text. */
  lemma WindowsCoverInk(w: WordClass, text: string, size: nat, overlap: nat)
    requires overlap < size
    ensures var ws := WindowsOf(w, text, size, overlap);
            && (forall p: nat :: p < |text| && !IsSpace(text[p]) ==> InWindow(ws, p))
            && (ws == [] <==> IsBlank(text))
  {
    hide Strip, IsSpace, Ranges, Tokenize, WindowsFrom;
    TokensPartitionInk(w, text);
    var tokens, ws := Tokenize(w, text), WindowsOf(w, text, size, overlap);
    if tokens != [] {
      RangesAreInside(|tokens|, size, overlap, 0);
      var ranges := Ranges(|tokens|, size, overlap, 0);
      forall p: nat | p < |text| && !IsSpace(text[p]) ensures InWindow(ws, p) {
        assert Covers(tokens, p);
        var t: nat :| 0 <= t < |tokens| && tokens[t].start <= p < tokens[t].end;
        assert Covers(ranges, t);
        var k: nat :| 0 <= k < |ranges| && ranges[k].start <= t < ranges[k].end;
        WindowAt(text, tokens, size, overlap, 0, k);
        StartsInOrder(text, tokens, ranges[k].start, t);
        StartsInOrder(text, tokens, t, ranges[k].end - 1);
      }
    }
  }

  lemma WindowAround(w: WordClass, text: string, size: nat, overlap: nat, p: nat) returns (k: nat)
    requires overlap < size && p < |text| && !IsSpace(text[p])
    ensures k < |WindowsOf(w, text, size, overlap)|
    ensures WindowsOf(w, text, size, overlap)[k].charStart <= p < WindowsOf(w, text, size, overlap)[k].charEnd
  {
    hide WindowsOf, IsBlank, IsSpace;
    WindowsCoverInk(w, text, size, overlap);
    var windows := WindowsOf(w, text, size, overlap);
    assert InWindow(windows, p);
    k :| 0 <= k < |windows| && windows[k].charStart <= p < windows[k].charEnd;
  }

  lemma StartsInOrder(text: string, tokens: seq<Span>, j: nat, k: nat)
    requires TokensIn(text, tokens) && j <= k < |tokens|
    ensures tokens[j].start <= tokens[k].start && tokens[j].end <= tokens[k].end
  {
    assert TokenIn(text, tokens[j]) && TokenIn(text, tokens[k]);
    if j < k { assert tokens[j].end <= tokens[k].start; }
  }

  function WindowTokens(w: WordClass, windows: seq<TextWindow>): (parts: seq<seq<string>>)
    ensures |parts| == |windows|
  {
    seq(|windows|, k requires 0 <= k < |windows| => TokenTexts(w, windows[k].text))
  }

  lemma TokensOfWindow(w: WordClass, text: string, size: nat, overlap: nat, k: nat)
    requires overlap < size && k < |WindowsOf(w, text, size, overlap)|
    ensures var range, window := Ranges(|Tokenize(w, text)|, size, overlap, 0)[k], WindowsOf(w, text, size, overlap)[k];
            && range.start < range.end <= |TokenTexts(w, text)|
            && TokenTexts(w, window.text) == TokenTexts(w, text)[range.start..range.end]
            && window.tokenCount == range.end - range.start
            && window.charEnd == Tokenize(w, text)[range.end - 1].end
  {
    hide Ranges, Tokenize, IsSpace, WindowsFrom, Strip, TokensIn;
    TokenizeIsIn(w, text);
    var tokens := Tokenize(w, text);
    var range := Ranges(|tokens|, size, overlap, 0)[k];
    WindowAt(text, tokens, size, overlap, 0, k);
    assert |TokenTexts(w, text)| == |tokens|;
    hide TokenTexts;
    WindowIsCutOut(text, tokens, range);
    TokensOfCut(w, text, range.start, range.end);
  }

  lemma WindowTokensAreParts(w: WordClass, text: string, size: nat, overlap: nat)
    requires overlap < size && Tokenize(w, text) != []
    ensures var ranges := Ranges(|Tokenize(w, text)|, size, overlap, 0);
            && Within(ranges, 0, |TokenTexts(w, text)|)
            && WindowTokens(w, WindowsOf(w, text, size, overlap)) == Parts(TokenTexts(w, text), ranges)
  {
    var ranges := Ranges(|Tokenize(w, text)|, size, overlap, 0);
    var parts, ws := WindowTokens(w, WindowsOf(w, text, size, overlap)), WindowsOf(w, text, size, overlap);
    RangesAreInside(|Tokenize(w, text)|, size, overlap, 0);
    hide Ranges, Tokenize, TokenTexts, WindowsFrom;
    forall k | 0 <= k < |ranges| ensures parts[k] == Parts(TokenTexts(w, text), ranges)[k] {
      TokensOfWindow(w, text, size, overlap, k);
    }
  }

  function TokenTotal(windows: seq<TextWindow>): nat {
    if windows == [] then 0 else windows[0].tokenCount + TokenTotal(windows[1..])
  }

  lemma TotalOfCons(window: TextWindow, windows: seq<TextWindow>, range: Span, ranges: seq<Span>)
    ensures TokenTotal([window] + windows) == window.tokenCount + TokenTotal(windows)
    ensures TotalLength([range] + ranges) == range.end - range.start + TotalLength(ranges)
  {
    assert ([window] + windows)[1..] == windows && ([range] + ranges)[1..] == ranges;
  }

  lemma {:induction false} TotalIsLength(text: string, tokens: seq<Span>, size: nat, overlap: nat, start: nat)
    requires overlap < size && start < |tokens| && TokensIn(text, tokens)
    ensures TokenTotal(WindowsFrom(text, tokens, size, overlap, start))
            == TotalLength(Ranges(|tokens|, size, overlap, start))
    decreases |tokens| - start
  {
    hide TokensIn, TotalLength, TokenTotal, Strip;
    var end := if start + size >= |tokens| then |tokens| else start + size;
    var first := WindowOf(text, tokens, Span(start, end));
    if end == |tokens| {
      TotalOfCons(first, [], Span(start, end), []);
      assert [first] + [] == [first] && [Span(start, end)] + [] == [Span(start, end)];
      NothingTotals();
    } else {
      var next := start + size - overlap;
      TotalOfCons(first, WindowsFrom(text, tokens, size, overlap, next), Span(start, end), Ranges(|tokens|, size, overlap, next));
      TotalIsLength(text, tokens, size, overlap, next);
    }
  }

  lemma NothingTotals()
    ensures TokenTotal([]) == 0 && TotalLength([]) == 0
  {
  }

  /** Windowing conserves tokens, seen from the texts of the windows alone: each text has exactly
      tokenCount tokens, gluing the windows' tokens with the overlaps dropped gives the tokens of
      the text, and the counts exceed theirs by `overlap` a seam. */
  lemma WindowsConserveTokens(w: WordClass, text: string, size: nat, overlap: nat)
    requires overlap < size && !IsBlank(text)
    ensures var ws, all := WindowsOf(w, text, size, overlap), TokenTexts(w, text);
            && ws != []
            && (forall k :: 0 <= k < |ws| ==> |TokenTexts(w, ws[k].text)| == ws[k].tokenCount)
            && Rebuilt(WindowTokens(w, ws), overlap) == all
            && TokenTotal(ws) == |all| + overlap * (|ws| - 1)
  {
    TokensPartitionInk(w, text);
    var tokens, ws, all := Tokenize(w, text), WindowsOf(w, text, size, overlap), TokenTexts(w, text);
    WindowTokensAreParts(w, text, size, overlap);
    hide Tokenize, TokenTexts, WindowsFrom;
    RebuiltIsWhole(all, size, overlap, 0);
    assert all[0..] == all;
    TotalIsLength(text, tokens, size, overlap, 0);
    CountsAddUp(|tokens|, size, overlap, 0);
    hide Ranges, Rebuilt, TotalLength, TokenTotal;
    forall k | 0 <= k < |ws| ensures |TokenTexts(w, ws[k].text)| == ws[k].tokenCount {
      TokensOfWindow(w, text, size, overlap, k);
    }
  }

  /** Neighbouring windows: all but the last hold exactly `size` tokens, the last `overlap` tokens
      of one are the first of the next, and the next ends further on. */
  lemma NeighboursShareOverlap(w: WordClass, text: string, size: nat, overlap: nat, k: nat)
    requires overlap < size && k + 1 < |WindowsOf(w, text, size, overlap)|
    ensures var ws := WindowsOf(w, text, size, overlap);
            var a, b := TokenTexts(w, ws[k].text), TokenTexts(w, ws[k + 1].text);
            && |a| == ws[k].tokenCount == size
            && overlap < |b| <= size
            && a[size - overlap..] == b[..overlap]
            && ws[k].charEnd < ws[k + 1].charEnd
  {
    hide Ranges, Tokenize, WindowsFrom, Strip, TokensIn, TokenTexts, IsWindowing;
    TokenizeIsIn(w, text);
    var tokens, all := Tokenize(w, text), TokenTexts(w, text);
    var ranges := Ranges(|tokens|, size, overlap, 0);
    TokensOfWindow(w, text, size, overlap, k);
    TokensOfWindow(w, text, size, overlap, k + 1);
    NeighbouringRanges(|tokens|, size, overlap, k);
    var r, r' := ranges[k], ranges[k + 1];
    LaterTokenEndsLater(text, tokens, r.end - 1, r'.end - 1);
    SharedSlice(all, r.start, r.end, r'.start, r'.end);
  }

  lemma NeighbouringRanges(n: nat, size: nat, overlap: nat, k: nat)
    requires overlap < size && 0 < n && k + 1 < |Ranges(n, size, overlap, 0)|
    ensures var r, r' := Ranges(n, size, overlap, 0)[k], Ranges(n, size, overlap, 0)[k + 1];
            Follows(r, r', size, overlap) && r'.end <= r'.start + size && r'.end <= n
  {
    var ranges := Ranges(n, size, overlap, 0);
    RangesAreWindowing(n, size, overlap, 0);
    LaterEndsAreLarger(ranges, size, overlap, k + 1);
    hide Ranges;
    assert FollowsAt(ranges, k, size, overlap);
    if k + 2 < |ranges| { assert FollowsAt(ranges, k + 1, size, overlap); }
  }

  lemma LaterTokenEndsLater(text: string, tokens: seq<Span>, j: nat, k: nat)
    requires TokensIn(text, tokens) && j < k < |tokens|
    ensures tokens[j].end < tokens[k].end
  {
    hide IsSpace;
    assert TokenIn(text, tokens[k]);
  }

  lemma SharedSlice<T>(s: seq<T>, a: nat, b: nat, c: nat, d: nat)
    requires a <= c <= b <= d <= |s|
    ensures s[a..b][c - a..] == s[c..d][..b - c]
  {
    var left, right := s[a..b][c - a..], s[c..d][..b - c];
    assert forall i :: 0 <= i < b - c ==> left[i] == s[c + i];
    assert forall i :: 0 <= i < b - c ==> right[i] == s[c + i];
  }
}
