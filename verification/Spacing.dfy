/** Where the whitespace of a text stands: the gaps between its non-whitespace characters, and the
    words they part. */
module Spacing {
  import opened Texts

  const NBSP: char := '\U{a0}'

  predicate IsBlankChar(c: char) {
    c == ' ' || c == '\t'
  }

  /** The non-whitespace characters of a text, in order. */
  function Ink(s: string): string {
    if s == "" then "" else if IsSpace(s[0]) then Ink(s[1..]) else [s[0]] + Ink(s[1..])
  }

  lemma {:induction false} InkConcat(a: string, b: string)
    ensures Ink(a + b) == Ink(a) + Ink(b)
  {
    if a == "" {
      assert a + b == b;
    } else {
      assert (a + b)[1..] == a[1..] + b;
      InkConcat(a[1..], b);
    }
  }

  /** A gap: whether it holds any whitespace at all, how many line ends, and whether nothing but
      blanks and line ends. `kept` counts the line ends that remain when of each stretch without
      other whitespace at most two do, and `run` those of the first such stretch. */
  datatype Gap = Gap(some: bool, ends: nat, plain: bool, run: nat, kept: nat)

  const NoGap := Gap(false, 0, true, 0, 0)

  /** The text begins with the end of a line: LF, CR, or the LF of a CR LF when that counts as one. */
  predicate EndsLine(s: string, pairs: bool) {
    s != "" && (s[0] == '\n' || (s[0] == '\r' && !(pairs && |s| > 1 && s[1] == '\n')))
  }

  /** A whitespace character before a gap. */
  function Widen(s: string, pairs: bool, gap: Gap): Gap
    requires s != ""
  {
    if EndsLine(s, pairs) then Gap(true, gap.ends + 1, gap.plain, gap.run + 1, gap.kept + if gap.run < 2 then 1 else 0)
    else if s[0] == '\r' || IsBlankChar(s[0]) || s[0] == NBSP then gap.(some := true)
    else Gap(true, gap.ends, false, 0, gap.kept)
  }

  /** The gap before the first non-whitespace character, between each two, and after the last. */
  function Gaps(s: string, pairs: bool): (gaps: seq<Gap>)
    ensures |gaps| == |Ink(s)| + 1
  {
    if s == "" then [NoGap]
    else
      var rest := Gaps(s[1..], pairs);
      if IsSpace(s[0]) then [Widen(s, pairs, rest[0])] + rest[1..] else [NoGap] + rest
  }

  /** A gap of blanks and line ends keeps at most two line ends. */
  lemma {:induction false} PlainGaps(s: string, pairs: bool)
    ensures forall k :: 0 <= k < |Gaps(s, pairs)| && Gaps(s, pairs)[k].plain ==>
              var gap := Gaps(s, pairs)[k]; gap.run == gap.ends && gap.kept == if gap.ends < 2 then gap.ends else 2
  {
    hide IsSpace;
    if s != "" {
      PlainGaps(s[1..], pairs);
      var rest := Gaps(s[1..], pairs);
      assert forall k :: 1 <= k < |Gaps(s, pairs)| ==> Gaps(s, pairs)[k] == if IsSpace(s[0]) then rest[k] else rest[k - 1];
    }
  }

  // ---- words

  lemma FirstWord(s: string)
    requires s != "" && !IsSpace(s[0])
    ensures RunLength(s) > 0 && Words(s) == [s[..RunLength(s)]] + Words(s[RunLength(s)..])
  {
    hide IsSpace;
  }

  lemma RunOfRest(s: string)
    requires s != "" && !IsSpace(s[0])
    ensures RunLength(s) == 1 + RunLength(s[1..])
    ensures s[1..] == "" || IsSpace(s[1]) ==> RunLength(s[1..]) == 0
  {
    hide IsSpace;
  }

  /** A word in front of a text grows by the character before it, if that is not whitespace. */
  lemma WordsOfInk(s: string)
    requires s != "" && !IsSpace(s[0])
    ensures var rest := s[1..];
            if rest == "" || IsSpace(rest[0]) then Words(s) == [[s[0]]] + Words(rest)
            else Words(rest) != [] && Words(s) == [[s[0]] + Words(rest)[0]] + Words(rest)[1..]
  {
    hide IsSpace, Words, RunLength;
    var n, rest := RunLength(s), s[1..];
    FirstWord(s);
    RunOfRest(s);
    if rest == "" || IsSpace(rest[0]) {
      assert s[..1] == [s[0]];
    } else {
      FirstWord(rest);
      assert s[..n] == [s[0]] + rest[..n - 1] && s[n..] == rest[n - 1..];
    }
  }

  lemma GapsOfSpace(s: string, pairs: bool)
    requires s != "" && IsSpace(s[0])
    ensures Ink(s) == Ink(s[1..]) && Gaps(s, pairs)[1..] == Gaps(s[1..], pairs)[1..] && Words(s) == Words(s[1..])
  {
    hide IsSpace, Widen;
  }

  lemma GapsOfInk(s: string, pairs: bool)
    requires s != "" && !IsSpace(s[0])
    ensures Ink(s) == [s[0]] + Ink(s[1..]) && Gaps(s, pairs) == [NoGap] + Gaps(s[1..], pairs)
  {
    hide IsSpace, Widen;
  }

  /** Between the same characters the same gaps are open. */
  ghost predicate SameOpenings(a: string, b: string, pairs: bool, pairs': bool) {
    && Ink(a) == Ink(b)
    && forall k :: 0 < k < |Ink(a)| ==> Gaps(a, pairs)[k].some == Gaps(b, pairs')[k].some
  }

  lemma BehindSpace(a: string, b: string, pairs: bool, pairs': bool)
    requires SameOpenings(a, b, pairs, pairs') && a != "" && IsSpace(a[0])
    ensures SameOpenings(a[1..], b, pairs, pairs')
  {
    hide IsSpace, Ink, Gaps;
    GapsOfSpace(a, pairs);
    assert forall k :: 0 < k < |Ink(a)| ==> Gaps(a[1..], pairs)[k] == Gaps(a[1..], pairs)[1..][k - 1];
    assert forall k :: 0 < k < |Ink(a)| ==> Gaps(a, pairs)[k] == Gaps(a, pairs)[1..][k - 1];
  }

  lemma BehindInk(a: string, b: string, pairs: bool, pairs': bool)
    requires SameOpenings(a, b, pairs, pairs') && a != "" && b != "" && !IsSpace(a[0]) && !IsSpace(b[0])
    ensures a[0] == b[0] && SameOpenings(a[1..], b[1..], pairs, pairs')
    ensures Ink(a[1..]) != "" ==> (Gaps(a[1..], pairs)[0].some == Gaps(b[1..], pairs')[0].some)
  {
    hide IsSpace, Ink, Gaps;
    GapsOfInk(a, pairs);
    GapsOfInk(b, pairs');
    assert a[0] == Ink(a)[0] && b[0] == Ink(b)[0];
    assert Ink(a[1..]) == Ink(a)[1..] && Ink(b[1..]) == Ink(b)[1..];
    assert forall k :: 0 <= k < |Ink(a)| ==> Gaps(a[1..], pairs)[k] == Gaps(a, pairs)[k + 1];
    assert forall k :: 0 <= k < |Ink(b)| ==> Gaps(b[1..], pairs')[k] == Gaps(b, pairs')[k + 1];
  }

  /** Texts with the same characters and the same gaps between them have the same words. */
  lemma {:induction false} SameWords(a: string, b: string, pairs: bool, pairs': bool)
    requires SameOpenings(a, b, pairs, pairs')
    ensures Words(a) == Words(b)
    decreases |a| + |b|
  {
    hide IsSpace, SameOpenings, Words, Ink, Gaps;
    if a != "" && IsSpace(a[0]) {
      BehindSpace(a, b, pairs, pairs');
      GapsOfSpace(a, pairs);
      SameWords(a[1..], b, pairs, pairs');
    } else if b != "" && IsSpace(b[0]) {
      assert SameOpenings(b, a, pairs', pairs) by { Mirrored(a, b, pairs, pairs'); }
      BehindSpace(b, a, pairs', pairs);
      Mirrored(b[1..], a, pairs', pairs);
      GapsOfSpace(b, pairs');
      SameWords(a, b[1..], pairs, pairs');
    } else {
      BothEnd(a, b, pairs, pairs');
      if a != "" {
        BehindInk(a, b, pairs, pairs');
        SameWords(a[1..], b[1..], pairs, pairs');
        WordsOfInk(a);
        WordsOfInk(b);
        FirstGap(a[1..], pairs);
        FirstGap(b[1..], pairs');
        NoWordsLeft(a[1..]);
        NoWordsLeft(b[1..]);
        assert SameOpenings(a[1..], b[1..], pairs, pairs');
        SameInk(a[1..], b[1..], pairs, pairs');
      }
    }
  }

  lemma SameInk(a: string, b: string, pairs: bool, pairs': bool)
    requires SameOpenings(a, b, pairs, pairs')
    ensures Ink(a) == Ink(b)
  {
  }

  lemma Mirrored(a: string, b: string, pairs: bool, pairs': bool)
    requires SameOpenings(a, b, pairs, pairs')
    ensures SameOpenings(b, a, pairs', pairs)
  {
  }

  lemma BothEnd(a: string, b: string, pairs: bool, pairs': bool)
    requires SameOpenings(a, b, pairs, pairs') && (a == "" || !IsSpace(a[0])) && (b == "" || !IsSpace(b[0]))
    ensures a == "" <==> b == ""
  {
    hide IsSpace, Gaps;
  }

  /** A blank rest is empty or begins with whitespace. */
  lemma NoWordsLeft(s: string)
    ensures Ink(s) == "" ==> Words(s) == [] && (s == "" || IsSpace(s[0]))
    ensures s == "" ==> Ink(s) == ""
  {
    InkOfBlank(s);
    BlankHasNoWords(s);
    hide Ink, Words;
  }

  lemma FirstGap(s: string, pairs: bool)
    ensures Gaps(s, pairs)[0].some <==> s != "" && IsSpace(s[0])
  {
    hide IsSpace;
  }

  lemma {:induction false} InkOfBlank(s: string)
    ensures IsBlank(s) <==> Ink(s) == ""
  {
    if s != "" {
      InkOfBlank(s[1..]);
      assert forall i :: 1 <= i < |s| ==> s[i] == s[1..][i - 1];
    }
  }

  // ---- queries

  lemma SpaceInFront(a: string, b: string, c: char)
    requires SameOpenings(a, b, true, true) && IsSpace(c)
    ensures SameOpenings([c] + a, b, true, true)
  {
    hide IsSpace, Ink, Gaps;
    assert ([c] + a)[1..] == a;
    GapsOfSpace([c] + a, true);
    assert forall k :: 0 < k < |Ink(a)| ==> Gaps(a, true)[k] == Gaps(a, true)[1..][k - 1];
    assert forall k :: 0 < k < |Ink(a)| ==> Gaps([c] + a, true)[k] == Gaps([c] + a, true)[1..][k - 1];
  }

  lemma InkInFront(a: string, b: string, c: char)
    requires SameOpenings(a, b, true, true) && !IsSpace(c)
    requires Ink(b) != "" ==> a != "" && b != "" && IsSpace(a[0]) == IsSpace(b[0])
    ensures SameOpenings([c] + a, [c] + b, true, true)
  {
    hide IsSpace, Ink, Gaps;
    assert ([c] + a)[1..] == a && ([c] + b)[1..] == b;
    GapsOfInk([c] + a, true);
    GapsOfInk([c] + b, true);
    FirstGap(a, true);
    FirstGap(b, true);
    forall k | 0 < k < |Ink([c] + a)| ensures Gaps([c] + a, true)[k].some == Gaps([c] + b, true)[k].some {
      assert Gaps([c] + a, true)[k] == Gaps(a, true)[k - 1] && Gaps([c] + b, true)[k] == Gaps(b, true)[k - 1];
    }
  }

  lemma JoinUnfolds(word: string, words: seq<string>)
    requires words != []
    ensures JoinWith(" ", [word] + words) == word + (" " + JoinWith(" ", words))
  {
    assert ([word] + words)[1..] == words;
    assert word + " " + JoinWith(" ", words) == word + (" " + JoinWith(" ", words));
  }

  lemma JoinedHead(words: seq<string>, c: char)
    requires words != []
    ensures JoinWith(" ", [[c]] + words) == [c] + (" " + JoinWith(" ", words))
    ensures JoinWith(" ", [[c] + words[0]] + words[1..]) == [c] + JoinWith(" ", words)
  {
    hide JoinWith;
    JoinUnfolds([c], words);
    if |words| == 1 {
      assert [[c] + words[0]] + words[1..] == [[c] + words[0]] && words == [words[0]];
      SingleWord([c] + words[0]);
      SingleWord(words[0]);
    } else {
      JoinUnfolds([c] + words[0], words[1..]);
      JoinUnfolds(words[0], words[1..]);
      assert words == [words[0]] + words[1..];
    }
  }

  /** A normalized query has the characters of the query, and whitespace exactly where it had any
      between them. */
  lemma {:induction false} QueryKeepsOpenings(query: string)
    ensures SameOpenings(NormalizeQuery(query), query, true, true)
    decreases |query|
  {
    hide IsSpace, SameOpenings, Words, Ink, Gaps, JoinWith;
    if query == "" {
      EmptyQuery();
    } else if IsSpace(query[0]) {
      QueryKeepsOpenings(query[1..]);
      GapsOfSpace(query, true);
      Mirrored(NormalizeQuery(query[1..]), query[1..], true, true);
      assert query == [query[0]] + query[1..];
      SpaceInFront(query[1..], NormalizeQuery(query[1..]), query[0]);
      Mirrored(query, NormalizeQuery(query[1..]), true, true);
    } else {
      QueryKeepsOpenings(query[1..]);
      WordInFront(query);
    }
  }

  lemma EmptyQuery()
    ensures SameOpenings(NormalizeQuery(""), "", true, true)
  {
  }

  lemma WordInFront(query: string)
    requires query != "" && !IsSpace(query[0]) && SameOpenings(NormalizeQuery(query[1..]), query[1..], true, true)
    ensures SameOpenings(NormalizeQuery(query), query, true, true)
  {
    hide IsSpace, SameOpenings, Words, Ink, Gaps, JoinWith;
    var c, rest := query[0], query[1..];
    var words := Words(rest);
    assert query == [c] + rest;
    WordsOfInk(query);
    NoWordsLeft(rest);
    SameInk(NormalizeQuery(rest), rest, true, true);
    if words == [] {
      BlankHasNoWords(rest);
      InkOfBlank(rest);
      SingleWord([c]);
      assert [[c]] + words == [[c]];
      NormalizedBlank(rest);
      InkInFront(NormalizeQuery(rest), rest, c);
      assert [c] + "" == [c];
    } else {
      JoinedHead(words, c);
      if rest == "" || IsSpace(rest[0]) {
        SpaceIsSpace();
        SpaceInFront(NormalizeQuery(rest), rest, ' ');
        InkInFront(" " + NormalizeQuery(rest), rest, c);
      } else {
        FirstOfJoined(words);
        InkInFront(NormalizeQuery(rest), rest, c);
      }
    }
  }

  lemma SpaceIsSpace()
    ensures IsSpace(' ')
  {
  }

  lemma NormalizedBlank(s: string)
    requires Words(s) == []
    ensures NormalizeQuery(s) == ""
  {
  }

  lemma SingleWord(word: string)
    ensures JoinWith(" ", [word]) == word
  {
  }

  lemma FirstOfJoined(words: seq<string>)
    requires words != [] && IsWordRun(words[0])
    ensures JoinWith(" ", words) != "" && !IsSpace(JoinWith(" ", words)[0])
  {
    hide IsSpace;
  }
}
