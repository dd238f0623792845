/** The token pattern of chunking.py, `\w+(?:[-'][\w]+)*|[^\w\s]`, as a language and as a scanner. */
module Tokens {
  import opened Texts

  ghost predicate IsWordClass(w: char -> bool) {
    && (forall c :: w(c) ==> !IsSpace(c))
    && !w('-') && !w('\'')
  }

  /** An interpretation of `\w`. Word characters are not whitespace, and no joiner is one. */
  type WordClass = w: char -> bool | IsWordClass(w) witness c => 'a' <= c <= 'z'

  predicate IsJoiner(c: char) {
    c == '-' || c == '\''
  }

  /** Half-open range of positions. */
  datatype Span = Span(start: nat, end: nat)

  // ---- the language of the pattern, read off the characters from start up to end

  predicate IsRun(w: WordClass, s: string, start: nat, end: nat) {
    start < end <= |s| && forall i :: start <= i < end ==> w(s[i])
  }

  /** `\w+(?:[-'][\w]+)*` */
  predicate IsCompound(w: WordClass, s: string, start: nat, end: nat)
    decreases end - start
  {
    || IsRun(w, s, start, end)
    || exists k: nat :: start < k < end && JoinedAt(w, s, start, k) && IsCompound(w, s, k + 1, end)
  }

  predicate JoinedAt(w: WordClass, s: string, start: nat, k: nat) {
    IsRun(w, s, start, k) && k < |s| && IsJoiner(s[k])
  }

  predicate Matches(w: WordClass, s: string, start: nat, end: nat) {
    || IsCompound(w, s, start, end)
    || (end == start + 1 && end <= |s| && !w(s[start]) && !IsSpace(s[start]))
  }

  predicate LongestMatch(w: WordClass, s: string, start: nat, end: nat) {
    && Matches(w, s, start, end)
    && forall longer :: end < longer <= |s| ==> !Matches(w, s, start, longer)
  }

  predicate NoMatchAt(w: WordClass, s: string, start: nat) {
    forall end: nat :: end <= |s| ==> !Matches(w, s, start, end)
  }

  /** What `finditer` yields from position i: the next match is the leftmost, and of those the
      longest; the search goes on behind it. */
  predicate IsScan(w: WordClass, s: string, i: nat, tokens: seq<Span>)
    decreases |tokens|
  {
    if tokens == [] then forall p :: i <= p < |s| ==> NoMatchAt(w, s, p)
    else
      var t := tokens[0];
      && i <= t.start
      && (forall p :: i <= p < t.start ==> NoMatchAt(w, s, p))
      && LongestMatch(w, s, t.start, t.end)
      && IsScan(w, s, t.end, tokens[1..])
  }

  // ---- the scanner

  function WordEnd(w: WordClass, s: string, i: nat): (j: nat)
    requires i <= |s|
    ensures i <= j <= |s|
    ensures j < |s| ==> !w(s[j])
    decreases |s| - i
  {
    if i < |s| && w(s[i]) then WordEnd(w, s, i + 1) else i
  }

  /** The compound word goes on behind the run that ends at j. */
  predicate GoesOn(w: WordClass, s: string, j: nat) {
    j + 1 < |s| && IsJoiner(s[j]) && w(s[j + 1])
  }

  function CompoundEnd(w: WordClass, s: string, i: nat): (j: nat)
    requires i < |s| && w(s[i])
    ensures i < j <= |s|
    decreases |s| - i
  {
    var j := WordEnd(w, s, i);
    if GoesOn(w, s, j) then CompoundEnd(w, s, j + 1) else j
  }

  function TokenEnd(w: WordClass, s: string, i: nat): (j: nat)
    requires i < |s| && !IsSpace(s[i])
    ensures i < j <= |s|
  {
    if w(s[i]) then CompoundEnd(w, s, i) else i + 1
  }

  /** `TOKEN_PATTERN.finditer` from position i on. */
  function TokensFrom(w: WordClass, s: string, i: nat): seq<Span>
    requires i <= |s|
    decreases |s| - i
  {
    if i == |s| then []
    else if IsSpace(s[i]) then TokensFrom(w, s, i + 1)
    else
      var end := TokenEnd(w, s, i);
      [Span(i, end)] + TokensFrom(w, s, end)
  }

  function Tokenize(w: WordClass, s: string): seq<Span> {
    TokensFrom(w, s, 0)
  }

  lemma {:induction false} WordEndIsRun(w: WordClass, s: string, i: nat)
    requires i <= |s|
    ensures forall k :: i <= k < WordEnd(w, s, i) ==> w(s[k])
    decreases |s| - i
  {
    if i < |s| && w(s[i]) { WordEndIsRun(w, s, i + 1); }
  }

  lemma {:induction false} CompoundEndIsInk(w: WordClass, s: string, i: nat)
    requires i < |s| && w(s[i])
    ensures forall k :: i <= k < CompoundEnd(w, s, i) ==> !IsSpace(s[k])
    decreases |s| - i
  {
    WordEndIsRun(w, s, i);
    var j := WordEnd(w, s, i);
    if GoesOn(w, s, j) { CompoundEndIsInk(w, s, j + 1); }
  }

  lemma TokenEndIsInk(w: WordClass, s: string, i: nat)
    requires i < |s| && !IsSpace(s[i])
    ensures forall k :: i <= k < TokenEnd(w, s, i) ==> !IsSpace(s[k])
  {
    if w(s[i]) { CompoundEndIsInk(w, s, i); }
  }

  // ---- the scanner recognizes the language

  lemma {:induction false} CompoundIsInk(w: WordClass, s: string, start: nat, end: nat)
    requires IsCompound(w, s, start, end)
    ensures start < end <= |s| && w(s[start])
    decreases end - start
  {
    if !IsRun(w, s, start, end) {
      var k: nat :| start < k < end && JoinedAt(w, s, start, k) && IsCompound(w, s, k + 1, end);
      CompoundIsInk(w, s, k + 1, end);
    }
  }

  lemma {:induction false} CompoundEndMatches(w: WordClass, s: string, i: nat)
    requires i < |s| && w(s[i])
    ensures IsCompound(w, s, i, CompoundEnd(w, s, i))
    decreases |s| - i
  {
    WordEndIsRun(w, s, i);
    var j := WordEnd(w, s, i);
    assert IsRun(w, s, i, j);
    if GoesOn(w, s, j) {
      CompoundEndMatches(w, s, j + 1);
      assert JoinedAt(w, s, i, j);
    }
  }

  lemma {:induction false} CompoundEndIsLongest(w: WordClass, s: string, i: nat, end: nat)
    requires IsCompound(w, s, i, end)
    ensures i < |s| && w(s[i]) && end <= CompoundEnd(w, s, i)
    decreases end - i
  {
    CompoundIsInk(w, s, i, end);
    WordEndIsRun(w, s, i);
    var j := WordEnd(w, s, i);
    if !IsRun(w, s, i, end) {
      var k: nat :| i < k < end && JoinedAt(w, s, i, k) && IsCompound(w, s, k + 1, end);
      assert j == k;
      CompoundEndIsLongest(w, s, j + 1, end);
    }
  }

  lemma TokenEndIsLongestMatch(w: WordClass, s: string, i: nat)
    requires i < |s| && !IsSpace(s[i])
    ensures LongestMatch(w, s, i, TokenEnd(w, s, i))
  {
    hide IsSpace, IsCompound, IsRun;
    var end := TokenEnd(w, s, i);
    if w(s[i]) {
      CompoundEndMatches(w, s, i);
    }
    forall longer | end < longer <= |s| ensures !Matches(w, s, i, longer) {
      if IsCompound(w, s, i, longer) {
        CompoundEndIsLongest(w, s, i, longer);
      }
    }
  }

  lemma NoMatchAtSpace(w: WordClass, s: string, i: nat)
    requires i < |s| && IsSpace(s[i])
    ensures NoMatchAt(w, s, i)
  {
    hide IsCompound;
    forall end: nat | end <= |s| ensures !Matches(w, s, i, end) {
      if IsCompound(w, s, i, end) {
        CompoundIsInk(w, s, i, end);
      }
    }
  }

  lemma MatchFacts(w: WordClass, s: string, start: nat, end: nat)
    requires LongestMatch(w, s, start, end)
    ensures start < end <= |s| && !NoMatchAt(w, s, start)
    ensures forall other: nat :: LongestMatch(w, s, start, other) ==> other == end
  {
    forall other: nat | Matches(w, s, start, other) ensures start < other <= |s| {
      if IsCompound(w, s, start, other) { CompoundIsInk(w, s, start, other); }
    }
    hide Matches;
    assert Matches(w, s, start, end);
    forall other: nat | LongestMatch(w, s, start, other) ensures other == end {
      assert Matches(w, s, start, other);
    }
  }

  /** The scanner finds what the pattern means: its tokens are the leftmost longest matches, and
      no other list is. */
  lemma {:induction false} ScanIsTokens(w: WordClass, s: string, i: nat, tokens: seq<Span>)
    requires i <= |s|
    ensures IsScan(w, s, i, tokens) <==> tokens == TokensFrom(w, s, i)
    decreases |s| - i
  {
    hide Matches, NoMatchAt, LongestMatch, IsSpace;
    if tokens != [] && LongestMatch(w, s, tokens[0].start, tokens[0].end) {
      MatchFacts(w, s, tokens[0].start, tokens[0].end);
    }
    if i == |s| {
    } else if IsSpace(s[i]) {
      NoMatchAtSpace(w, s, i);
      ScanIsTokens(w, s, i + 1, tokens);
    } else {
      var end := TokenEnd(w, s, i);
      TokenEndIsLongestMatch(w, s, i);
      MatchFacts(w, s, i, end);
      if tokens != [] {
        ScanIsTokens(w, s, end, tokens[1..]);
        assert tokens == [tokens[0]] + tokens[1..];
      }
    }
  }

  // ---- what the tokens cover

  predicate TokenIn(s: string, t: Span) {
    t.start < t.end <= |s| && forall p :: t.start <= p < t.end ==> !IsSpace(s[p])
  }

  predicate Covers(tokens: seq<Span>, p: nat) {
    exists k :: 0 <= k < |tokens| && tokens[k].start <= p < tokens[k].end
  }

  predicate InOrder(tokens: seq<Span>) {
    forall j, k :: 0 <= j < k < |tokens| ==> tokens[j].end <= tokens[k].start
  }

  /** The tokens hold exactly the non-whitespace characters from i on, in order. */
  predicate CoverFrom(s: string, i: nat, tokens: seq<Span>) {
    && (forall k :: 0 <= k < |tokens| ==> i <= tokens[k].start && TokenIn(s, tokens[k]))
    && InOrder(tokens)
    && (forall p :: i <= p < |s| && !IsSpace(s[p]) ==> Covers(tokens, p))
  }

  lemma CoverWithFirst(s: string, first: Span, rest: seq<Span>)
    requires TokenIn(s, first) && CoverFrom(s, first.end, rest)
    ensures CoverFrom(s, first.start, [first] + rest)
  {
    hide IsSpace;
    var tokens := [first] + rest;
    assert forall k :: 0 < k < |tokens| ==> tokens[k] == rest[k - 1];
    forall p | first.start <= p < |s| && !IsSpace(s[p]) ensures Covers(tokens, p) {
      if p < first.end {
        assert tokens[0].start <= p < tokens[0].end;
      } else {
        var k :| 0 <= k < |rest| && rest[k].start <= p < rest[k].end;
        assert tokens[k + 1] == rest[k];
      }
    }
  }

  lemma CoverBehindSpace(s: string, i: nat, tokens: seq<Span>)
    requires i < |s| && IsSpace(s[i]) && CoverFrom(s, i + 1, tokens)
    ensures CoverFrom(s, i, tokens)
  {
    hide IsSpace, Covers, InOrder, TokenIn;
  }

  lemma {:induction false} TokensCover(w: WordClass, s: string, i: nat)
    requires i <= |s|
    ensures CoverFrom(s, i, TokensFrom(w, s, i))
    decreases |s| - i
  {
    hide IsSpace, CoverFrom;
    if i == |s| {
      NothingToCover(s);
    } else if IsSpace(s[i]) {
      TokensCover(w, s, i + 1);
      CoverBehindSpace(s, i, TokensFrom(w, s, i + 1));
    } else {
      TokenEndIsInk(w, s, i);
      var end := TokenEnd(w, s, i);
      TokensCover(w, s, end);
      CoverWithFirst(s, Span(i, end), TokensFrom(w, s, end));
    }
  }

  lemma NothingToCover(s: string)
    ensures CoverFrom(s, |s|, [])
  {
  }

  /** Each non-whitespace character lies in exactly one token, tokens come in text order, and no
      token holds whitespace. */
  lemma TokensPartitionInk(w: WordClass, s: string)
    ensures var ts := Tokenize(w, s);
            && (forall k :: 0 <= k < |ts| ==> TokenIn(s, ts[k]))
            && InOrder(ts)
            && (forall p :: 0 <= p < |s| ==> (Covers(ts, p) <==> !IsSpace(s[p])))
            && (ts == [] <==> IsBlank(s))
  {
    TokensCover(w, s, 0);
    var ts := Tokenize(w, s);
    if ts != [] {
      assert TokenIn(s, ts[0]);
      assert !IsSpace(s[ts[0].start]);
    }
  }

  // ---- tokens of a part of the text

  /** The stretches of a sequence at the given ranges. */
  function Parts<T>(items: seq<T>, ranges: seq<Span>): (parts: seq<seq<T>>)
    requires forall k :: 0 <= k < |ranges| ==> ranges[k].start <= ranges[k].end <= |items|
    ensures |parts| == |ranges|
  {
    seq(|ranges|, k requires 0 <= k < |ranges| => items[ranges[k].start..ranges[k].end])
  }

  function TokenTexts(w: WordClass, s: string): seq<string> {
    TokensPartitionInk(w, s);
    Parts(s, Tokenize(w, s))
  }

  /** t is the part of s that starts at d. */
  predicate PartOf(t: string, s: string, d: nat) {
    d + |t| <= |s| && forall k :: 0 <= k < |t| ==> t[k] == s[d + k]
  }

  lemma {:induction false} WordEndOfPart(w: WordClass, s: string, t: string, d: nat, i: nat)
    requires PartOf(t, s, d) && i <= |t| && WordEnd(w, s, d + i) <= d + |t|
    ensures WordEnd(w, s, d + i) == d + WordEnd(w, t, i)
    decreases |t| - i
  {
    if i < |t| && w(t[i]) { WordEndOfPart(w, s, t, d, i + 1); }
  }

  lemma CompoundStep(w: WordClass, s: string, i: nat)
    requires i < |s| && w(s[i])
    ensures var j := WordEnd(w, s, i);
            CompoundEnd(w, s, i) == if GoesOn(w, s, j) then CompoundEnd(w, s, j + 1) else j
  {
  }

  lemma GoesOnInPart(w: WordClass, s: string, t: string, d: nat, j: nat)
    requires PartOf(t, s, d) && j <= |t|
    ensures GoesOn(w, t, j) ==> GoesOn(w, s, d + j)
    ensures GoesOn(w, s, d + j) && j + 1 < |t| ==> GoesOn(w, t, j)
  {
    if j + 1 < |t| { assert t[j] == s[d + j] && t[j + 1] == s[d + j + 1]; }
  }

  /** p is position i of the part, seen in the whole text. */
  lemma {:induction false} CompoundEndOfPart(w: WordClass, s: string, t: string, d: nat, i: nat, p: nat)
    requires PartOf(t, s, d) && i < |t| && p == d + i && w(t[i]) && w(s[p])
    requires CompoundEnd(w, s, p) <= d + |t|
    ensures CompoundEnd(w, s, p) == d + CompoundEnd(w, t, i)
    decreases |t| - i
  {
    CompoundStep(w, s, p);
    CompoundStep(w, t, i);
    WordEndOfPart(w, s, t, d, i);
    var j, q := WordEnd(w, t, i), WordEnd(w, s, p);
    GoesOnInPart(w, s, t, d, j);
    hide CompoundEnd, WordEnd, PartOf, IsSpace;
    assert q == d + j;
    if GoesOn(w, t, j) {
      CompoundEndOfPart(w, s, t, d, j + 1, q + 1);
    }
  }

  lemma TokenEndOfPart(w: WordClass, s: string, t: string, d: nat, i: nat)
    requires PartOf(t, s, d) && i < |t| && !IsSpace(t[i]) && TokenEnd(w, s, d + i) <= d + |t|
    ensures TokenEnd(w, s, d + i) == d + TokenEnd(w, t, i)
  {
    if w(t[i]) { CompoundEndOfPart(w, s, t, d, i, d + i); }
  }

  predicate ShiftedBy(inner: seq<Span>, outer: seq<Span>, d: nat) {
    |inner| == |outer|
    && forall k :: 0 <= k < |inner| ==> outer[k] == Span(inner[k].start + d, inner[k].end + d)
  }

  /** If t ends where the m-th token from position p on ends, those m tokens are the tokens of t;
      p is position i of the part, seen in the whole text. */
  lemma {:induction false} TokensOfPart(w: WordClass, s: string, t: string, d: nat, i: nat, p: nat, m: nat)
    requires PartOf(t, s, d) && i <= |t| && p == d + i
    requires m <= |TokensFrom(w, s, p)|
    requires if m == 0 then i == |t| else TokensFrom(w, s, p)[m - 1].end == d + |t|
    ensures ShiftedBy(TokensFrom(w, t, i), TokensFrom(w, s, p)[..m], d)
    decreases |t| - i
  {
    if m > 0 {
      TokenBefore(w, s, p, m - 1);
      assert t[i] == s[p];
      if IsSpace(s[p]) {
        TokensOfPart(w, s, t, d, i + 1, p + 1, m);
      } else {
        TokenOfPart(w, s, t, d, i, p, m);
      }
    }
  }

  lemma {:induction false} TokenOfPart(w: WordClass, s: string, t: string, d: nat, i: nat, p: nat, m: nat)
    requires PartOf(t, s, d) && i < |t| && p == d + i && !IsSpace(s[p]) && !IsSpace(t[i])
    requires 0 < m <= |TokensFrom(w, s, p)| && TokenEnd(w, s, p) <= d + |t|
    requires TokensFrom(w, s, p)[m - 1].end == d + |t|
    ensures ShiftedBy(TokensFrom(w, t, i), TokensFrom(w, s, p)[..m], d)
    decreases |t| - i, 0
  {
    TokenEndOfPart(w, s, t, d, i);
    hide IsSpace, TokenEnd, PartOf, ShiftedBy;
    var q, e := TokenEnd(w, s, p), TokenEnd(w, t, i);
    var rest := TokensFrom(w, s, q);
    assert m > 1 ==> rest[m - 2] == TokensFrom(w, s, p)[m - 1];
    TokensOfPart(w, s, t, d, e, q, m - 1);
    PrependShifted(TokensFrom(w, t, e), rest[..m - 1], d, Span(i, e));
    assert ([Span(p, q)] + rest)[..m] == [Span(p, q)] + rest[..m - 1];
  }

  lemma TokenBefore(w: WordClass, s: string, i: nat, k: nat)
    requires i <= |s| && k < |TokensFrom(w, s, i)|
    ensures i < TokensFrom(w, s, i)[k].end <= |s|
    ensures !IsSpace(s[i]) ==> TokenEnd(w, s, i) <= TokensFrom(w, s, i)[k].end
  {
    hide IsSpace, TokenEnd;
    var ts := TokensFrom(w, s, i);
    TokensCover(w, s, i);
    hide Covers;
    assert TokenIn(s, ts[k]);
    if !IsSpace(s[i]) && k > 0 {
      assert ts[0].end <= ts[k].start;
    }
  }

  lemma PrependShifted(inner: seq<Span>, outer: seq<Span>, d: nat, first: Span)
    requires ShiftedBy(inner, outer, d)
    ensures ShiftedBy([first] + inner, [Span(d + first.start, d + first.end)] + outer, d)
  {
  }

  /** The tokens behind a token's start are the rest of the list. */
  lemma {:induction false} TokensFromToken(w: WordClass, s: string, i: nat, k: nat)
    requires i <= |s| && k < |TokensFrom(w, s, i)|
    ensures var ts := TokensFrom(w, s, i);
            i <= ts[k].start <= |s| && TokensFrom(w, s, ts[k].start) == ts[k..]
    decreases |s| - i
  {
    hide IsSpace, TokenEnd;
    if IsSpace(s[i]) {
      TokensFromToken(w, s, i + 1, k);
    } else if k > 0 {
      TokensFromToken(w, s, TokenEnd(w, s, i), k - 1);
    }
  }

  lemma CutSpans(w: WordClass, s: string, from: nat, to: nat)
    requires from < to <= |Tokenize(w, s)|
    ensures var ts := Tokenize(w, s);
            && ts[from].start < ts[to - 1].end <= |s|
            && ShiftedBy(Tokenize(w, s[ts[from].start..ts[to - 1].end]), ts[from..][..to - from], ts[from].start)
  {
    hide TokensFrom;
    var ts := Tokenize(w, s);
    TokensPartitionInk(w, s);
    var a, b := ts[from].start, ts[to - 1].end;
    assert TokenIn(s, ts[from]) && TokenIn(s, ts[to - 1]);
    assert a < b by { if from < to - 1 { assert ts[from].end <= ts[to - 1].start; } }
    TokensFromToken(w, s, 0, from);
    hide InOrder, Covers, TokenIn, ShiftedBy;
    assert ts[from..][to - from - 1] == ts[to - 1];
    TokensOfPart(w, s, s[a..b], a, 0, a, to - from);
  }

  lemma SameText(s: string, a: nat, b: nat, t: Span)
    requires a <= b <= |s| && t.start <= t.end <= b - a
    ensures s[a..b][t.start..t.end] == s[a + t.start..a + t.end]
  {
    var cut := s[a..b];
    assert forall k :: t.start <= k < t.end ==> cut[t.start..t.end][k - t.start] == cut[k] == s[a + k];
  }

  lemma ShiftedTexts(s: string, a: nat, b: nat, inner: seq<Span>, outer: seq<Span>)
    requires a <= b <= |s| && ShiftedBy(inner, outer, a)
    requires forall k :: 0 <= k < |inner| ==> inner[k].start <= inner[k].end <= b - a
    ensures forall k :: 0 <= k < |outer| ==> outer[k].start <= outer[k].end <= |s|
    ensures Parts(s[a..b], inner) == Parts(s, outer)
  {
    forall k | 0 <= k < |inner| ensures Parts(s[a..b], inner)[k] == Parts(s, outer)[k] {
      SameText(s, a, b, inner[k]);
    }
  }

  lemma TextsOfSlice(s: string, tokens: seq<Span>, from: nat, to: nat)
    requires from <= to <= |tokens|
    requires forall k :: 0 <= k < |tokens| ==> tokens[k].start <= tokens[k].end <= |s|
    ensures Parts(s, tokens[from..][..to - from]) == Parts(s, tokens)[from..to]
  {
    var part := tokens[from..][..to - from];
    forall k | 0 <= k < to - from ensures part[k] == tokens[from + k] { }
  }

  /** A text cut out at token boundaries has exactly the tokens it was cut around. */
  lemma TokensOfCut(w: WordClass, s: string, from: nat, to: nat)
    requires from < to <= |Tokenize(w, s)|
    ensures var ts := Tokenize(w, s);
            && ts[from].start < ts[to - 1].end <= |s|
            && TokenTexts(w, s[ts[from].start..ts[to - 1].end]) == TokenTexts(w, s)[from..to]
  {
    var ts := Tokenize(w, s);
    CutSpans(w, s, from, to);
    var a, b := ts[from].start, ts[to - 1].end;
    var inner := Tokenize(w, s[a..b]);
    TokensPartitionInk(w, s[a..b]);
    TokensPartitionInk(w, s);
    hide Tokenize, InOrder, Covers, IsBlank, ShiftedBy, Parts;
    assert forall k :: 0 <= k < |inner| ==> TokenIn(s[a..b], inner[k]);
    assert forall k :: 0 <= k < |ts| ==> TokenIn(s, ts[k]);
    ShiftedTexts(s, a, b, inner, ts[from..][..to - from]);
    TextsOfSlice(s, ts, from, to);
  }
}
