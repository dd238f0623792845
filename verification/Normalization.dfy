/** normalize_document_text: the rewrite chain after Unicode composition (NFC). */
module Normalization {
  import opened Texts
  import opened Spacing

  /** `.replace("\r\n", "\n")` */
  function ReplaceCrLf(s: string): string
    decreases |s|
  {
    if s == "" then ""
    else if |s| >= 2 && s[0] == '\r' && s[1] == '\n' then "\n" + ReplaceCrLf(s[2..])
    else [s[0]] + ReplaceCrLf(s[1..])
  }

  function ReplaceChar(s: string, old_: char, new_: char): (r: string)
    ensures |r| == |s|
    ensures forall i :: 0 <= i < |s| ==> r[i] == if s[i] == old_ then new_ else s[i]
  {
    if s == "" then "" else [if s[0] == old_ then new_ else s[0]] + ReplaceChar(s[1..], old_, new_)
  }

  /** `[ \t]+$` with MULTILINE, replaced by nothing: a blank goes if only blanks separate it from
      a newline or the end. */
  function TrimLineEnds(s: string): string {
    if s == "" then ""
    else
      var rest := TrimLineEnds(s[1..]);
      if IsBlankChar(s[0]) && (rest == "" || rest[0] == '\n') then rest else [s[0]] + rest
  }

  predicate StartsWithThreeNewlines(s: string) {
    |s| >= 3 && s[0] == '\n' && s[1] == '\n' && s[2] == '\n'
  }

  /** `\n{3,}` replaced by two newlines: of a run of newlines at most the last two stay. */
  function CollapseNewlines(s: string): string {
    if s == "" then ""
    else if StartsWithThreeNewlines(s) then CollapseNewlines(s[1..])
    else [s[0]] + CollapseNewlines(s[1..])
  }

  function Rewrite(s: string): string {
    var unified := ReplaceChar(ReplaceCrLf(s), '\r', '\n');
    var spaced := ReplaceChar(unified, NBSP, ' ');
    Strip(CollapseNewlines(TrimLineEnds(spaced)))
  }

  function NormalizeDocumentText(nfc: string -> string, s: string): string {
    Rewrite(nfc(s))
  }

  predicate Absent(s: string, c: char) {
    forall i :: 0 <= i < |s| ==> s[i] != c
  }

  predicate NoTrailingBlanks(s: string) {
    forall i :: 0 <= i < |s| && IsBlankChar(s[i]) ==> i + 1 < |s| && s[i + 1] != '\n'
  }

  predicate NoBlankBeforeNewline(s: string) {
    forall i :: 0 <= i < |s| - 1 && IsBlankChar(s[i]) ==> s[i + 1] != '\n'
  }

  predicate NoTripleNewline(s: string) {
    forall i :: 0 <= i < |s| - 2 ==> !(s[i] == '\n' && s[i + 1] == '\n' && s[i + 2] == '\n')
  }

  /** What the chain is for. */
  predicate Normal(s: string) {
    && Absent(s, '\r') && Absent(s, NBSP)
    && NoBlankBeforeNewline(s) && NoTripleNewline(s) && Stripped(s)
  }

  lemma InkOfStripLeft(s: string)
    ensures Ink(StripLeft(s)) == Ink(s)
  {
    var left := StripLeft(s);
    var head := s[..|s| - |left|];
    InkOfBlank(head);
    InkConcat(head, left);
    hide Ink, IsSpace, StripLeft;
    assert s == head + left;
  }

  lemma InkOfStripRight(s: string)
    ensures Ink(StripRight(s)) == Ink(s)
  {
    var body := StripRight(s);
    var tail := s[|body|..];
    InkOfBlank(tail);
    InkConcat(body, tail);
    hide Ink, IsSpace, StripRight;
    assert s == body + tail;
  }

  lemma InkOfStrip(s: string)
    ensures Ink(Strip(s)) == Ink(s)
  {
    InkOfStripLeft(s);
    InkOfStripRight(StripLeft(s));
  }

  lemma {:induction false} InkOfReplaceCrLf(s: string)
    ensures Ink(ReplaceCrLf(s)) == Ink(s)
    decreases |s|
  {
    if s == "" {
    } else if |s| >= 2 && s[0] == '\r' && s[1] == '\n' {
      InkOfReplaceCrLf(s[2..]);
      assert ReplaceCrLf(s)[1..] == ReplaceCrLf(s[2..]);
      assert s[1..][1..] == s[2..];
    } else {
      InkOfReplaceCrLf(s[1..]);
      assert ReplaceCrLf(s)[1..] == ReplaceCrLf(s[1..]);
    }
  }

  lemma {:induction false} InkOfReplaceChar(s: string, old_: char, new_: char)
    requires IsSpace(old_) && IsSpace(new_)
    ensures Ink(ReplaceChar(s, old_, new_)) == Ink(s)
  {
    if s != "" {
      InkOfReplaceChar(s[1..], old_, new_);
      assert ReplaceChar(s, old_, new_)[1..] == ReplaceChar(s[1..], old_, new_);
    }
  }

  lemma {:induction false} InkOfTrim(s: string)
    ensures Ink(TrimLineEnds(s)) == Ink(s)
  {
    if s != "" {
      InkOfTrim(s[1..]);
      var rest := TrimLineEnds(s[1..]);
      assert ([s[0]] + rest)[1..] == rest;
    }
  }

  lemma {:induction false} InkOfCollapse(s: string)
    ensures Ink(CollapseNewlines(s)) == Ink(s)
  {
    if s != "" {
      InkOfCollapse(s[1..]);
      var rest := CollapseNewlines(s[1..]);
      assert ([s[0]] + rest)[1..] == rest;
    }
  }

  /** Rewriting keeps the sequence of non-whitespace characters. */
  lemma RewriteKeepsInk(s: string)
    ensures Ink(Rewrite(s)) == Ink(s)
  {
    var plain := ReplaceCrLf(s);
    var unified := ReplaceChar(plain, '\r', '\n');
    var spaced := ReplaceChar(unified, NBSP, ' ');
    InkOfReplaceCrLf(s);
    InkOfReplaceChar(plain, '\r', '\n');
    InkOfReplaceChar(unified, NBSP, ' ');
    InkOfTrim(spaced);
    InkOfCollapse(TrimLineEnds(spaced));
    InkOfStrip(CollapseNewlines(TrimLineEnds(spaced)));
  }

  /** Every character of a is one of b. */
  predicate DrawnFrom(a: string, b: string) {
    forall i :: 0 <= i < |a| ==> a[i] in b
  }

  lemma {:induction false} TrimProperties(s: string)
    ensures NoTrailingBlanks(TrimLineEnds(s)) && DrawnFrom(TrimLineEnds(s), s)
    ensures NoTrailingBlanks(s) ==> TrimLineEnds(s) == s
  {
    if s != "" {
      TrimProperties(s[1..]);
      var rest := TrimLineEnds(s[1..]);
      var r := TrimLineEnds(s);
      if r != rest {
        forall i | 0 <= i < |r| && IsBlankChar(r[i]) ensures i + 1 < |r| && r[i + 1] != '\n' {
          if i > 0 { assert IsBlankChar(rest[i - 1]); }
        }
      }
      if NoTrailingBlanks(s) {
        forall i | 0 <= i < |s[1..]| && IsBlankChar(s[1..][i]) ensures i + 1 < |s[1..]| && s[1..][i + 1] != '\n' {
          assert IsBlankChar(s[i + 1]);
        }
      }
    }
  }

  lemma {:induction false} CollapseKeepsHead(s: string)
    ensures var r := CollapseNewlines(s);
            && (r == "" <==> s == "") && (s != "" ==> r[0] == s[0])
            && (|s| >= 2 && s[0] == '\n' ==> |r| >= 2 && r[1] == s[1])
            && DrawnFrom(r, s)
  {
    if s != "" {
      CollapseKeepsHead(s[1..]);
      var r, rest := CollapseNewlines(s), CollapseNewlines(s[1..]);
      forall i | 0 <= i < |r| ensures r[i] in s {
        assert StartsWithThreeNewlines(s) ==> r[i] == rest[i];
        assert !StartsWithThreeNewlines(s) && i > 0 ==> r[i] == rest[i - 1];
        assert forall c :: c in s[1..] ==> c in s;
      }
    }
  }

  lemma {:induction false} CollapseHasNoTriple(s: string)
    ensures NoTripleNewline(CollapseNewlines(s))
  {
    if s != "" {
      CollapseHasNoTriple(s[1..]);
      if !StartsWithThreeNewlines(s) {
        var r, rest := CollapseNewlines(s), CollapseNewlines(s[1..]);
        CollapseKeepsHead(s[1..]);
        forall i | 0 <= i < |r| - 2 ensures !(r[i] == '\n' && r[i + 1] == '\n' && r[i + 2] == '\n') {
          if i > 0 {
            assert r[i] == rest[i - 1] && r[i + 1] == rest[i] && r[i + 2] == rest[i + 1];
          } else {
            assert r[1] == rest[0] && r[2] == rest[1];
          }
        }
      }
    }
  }

  lemma {:induction false} CollapseKeepsLineEnds(s: string)
    requires NoBlankBeforeNewline(s)
    ensures NoBlankBeforeNewline(CollapseNewlines(s))
  {
    if s != "" {
      forall i | 0 <= i < |s[1..]| - 1 && IsBlankChar(s[1..][i]) ensures s[1..][i + 1] != '\n' {
        assert IsBlankChar(s[i + 1]);
      }
      CollapseKeepsLineEnds(s[1..]);
      CollapseKeepsHead(s[1..]);
      if !StartsWithThreeNewlines(s) {
        var r, rest := CollapseNewlines(s), CollapseNewlines(s[1..]);
        forall i | 0 <= i < |r| - 1 && IsBlankChar(r[i]) ensures r[i + 1] != '\n' {
          if i > 0 { assert r[i] == rest[i - 1]; }
        }
      }
    }
  }

  lemma {:induction false} CollapseIdentity(s: string)
    requires NoTripleNewline(s)
    ensures CollapseNewlines(s) == s
  {
    if s != "" {
      forall i | 0 <= i < |s[1..]| - 2
        ensures !(s[1..][i] == '\n' && s[1..][i + 1] == '\n' && s[1..][i + 2] == '\n')
      {
        assert !(s[i + 1] == '\n' && s[i + 2] == '\n' && s[i + 3] == '\n');
      }
      CollapseIdentity(s[1..]);
      assert !StartsWithThreeNewlines(s);
    }
  }

  lemma {:induction false} ReplaceCrLfIdentity(s: string)
    requires Absent(s, '\r')
    ensures ReplaceCrLf(s) == s
  {
    if s != "" {
      ReplaceCrLfIdentity(s[1..]);
    }
  }

  lemma StripSlice(s: string) returns (from: nat)
    ensures from + |Strip(s)| <= |s| && Strip(s) == s[from..from + |Strip(s)|]
  {
    hide IsSpace;
    from := |s| - |StripLeft(s)|;
  }

  lemma StripKeepsShape(s: string)
    requires NoBlankBeforeNewline(s) && NoTripleNewline(s)
    requires Absent(s, '\r') && Absent(s, NBSP)
    ensures Normal(Strip(s))
  {
    StripIsStripped(s);
    hide IsSpace, Strip;
    var from := StripSlice(s);
    var r := Strip(s);
    assert forall i :: 0 <= i < |r| ==> r[i] == s[from + i];
    forall i | 0 <= i < |r| - 1 && IsBlankChar(r[i]) ensures r[i + 1] != '\n' {
      assert IsBlankChar(s[from + i]);
    }
    forall i | 0 <= i < |r| - 2 ensures !(r[i] == '\n' && r[i + 1] == '\n' && r[i + 2] == '\n') {
      assert !(s[from + i] == '\n' && s[from + i + 1] == '\n' && s[from + i + 2] == '\n');
    }
  }

  lemma DrawnFromLacks(a: string, b: string, c: char)
    requires DrawnFrom(a, b) && Absent(b, c)
    ensures Absent(a, c)
  {
  }

  /** Whatever the text, the chain leaves no carriage return, no no-break space, no blank before
      a newline, no three newlines in a row and no outer whitespace. */
  lemma RewriteIsNormal(s: string)
    ensures Normal(Rewrite(s))
  {
    hide IsSpace, Strip, Normal;
    var unified := ReplaceChar(ReplaceCrLf(s), '\r', '\n');
    var spaced := ReplaceChar(unified, NBSP, ' ');
    var trimmed := TrimLineEnds(spaced);
    var collapsed := CollapseNewlines(trimmed);
    assert Absent(unified, '\r');
    assert Absent(spaced, '\r') && Absent(spaced, NBSP);
    TrimProperties(spaced);
    DrawnFromLacks(trimmed, spaced, '\r');
    DrawnFromLacks(trimmed, spaced, NBSP);
    CollapseKeepsHead(trimmed);
    DrawnFromLacks(collapsed, trimmed, '\r');
    DrawnFromLacks(collapsed, trimmed, NBSP);
    CollapseHasNoTriple(trimmed);
    CollapseKeepsLineEnds(trimmed);
    StripKeepsShape(collapsed);
  }

  lemma NormalHasNoTrailingBlanks(s: string)
    requires Normal(s)
    ensures NoTrailingBlanks(s)
  {
    forall i | 0 <= i < |s| && IsBlankChar(s[i]) ensures i + 1 < |s| && s[i + 1] != '\n' {
      assert IsSpace(s[i]);
      assert !IsSpace(s[|s| - 1]);
    }
  }

  /** The chain changes nothing just when the text already has the shape it promises; so it is
      idempotent. */
  lemma RewriteFixpoints(s: string)
    ensures Rewrite(s) == s <==> Normal(s)
    ensures Rewrite(Rewrite(s)) == Rewrite(s)
  {
    RewriteIsNormal(s);
    if Normal(s) { RewriteOfNormal(s); }
    RewriteOfNormal(Rewrite(s));
  }

  lemma ReplaceCharIdentity(s: string, old_: char, new_: char)
    requires Absent(s, old_)
    ensures ReplaceChar(s, old_, new_) == s
  {
    hide ReplaceChar;
  }

  lemma RewriteOfNormal(s: string)
    requires Normal(s)
    ensures Rewrite(s) == s
  {
    NormalHasNoTrailingBlanks(s);
    StripIsStripped(s);
    ReplaceCrLfIdentity(s);
    ReplaceCharIdentity(s, '\r', '\n');
    ReplaceCharIdentity(s, NBSP, ' ');
    TrimProperties(s);
    CollapseIdentity(s);
    hide Strip, ReplaceChar, ReplaceCrLf, TrimLineEnds, CollapseNewlines;
  }

  /** A section survives normalization exactly when it holds a non-whitespace character, given
      that composition neither adds nor removes the last one. */
  lemma NormalizationKeepsContent(nfc: string -> string, s: string)
    requires IsBlank(nfc(s)) <==> IsBlank(s)
    ensures NormalizeDocumentText(nfc, s) == "" <==> IsBlank(s)
    ensures Ink(NormalizeDocumentText(nfc, s)) == Ink(nfc(s))
    ensures Normal(NormalizeDocumentText(nfc, s))
  {
    var composed := nfc(s);
    var r := Rewrite(composed);
    RewriteKeepsInk(composed);
    RewriteIsNormal(composed);
    InkOfBlank(composed);
    InkOfBlank(r);
    hide Rewrite, Ink, IsSpace;
    if r != "" { assert !IsSpace(r[0]); }
  }

  // ---- the chain in one pass

  predicate StartsWithTwoNewlines(s: string) {
    |s| >= 2 && s[0] == '\n' && s[1] == '\n'
  }

  /** What one pass from the end makes of the text: a line end, be it LF, CR or CR LF, becomes a
      newline unless two stand behind it already; a blank goes in front of a newline or the end, and
      a no-break space is a space; all else stays. */
  function Tidy(s: string): string {
    if s == "" then ""
    else
      var rest := Tidy(s[1..]);
      if EndsLine(s, true) then if StartsWithTwoNewlines(rest) then rest else "\n" + rest
      else if s[0] == '\r' then rest
      else if IsBlankChar(s[0]) || s[0] == NBSP then
        if rest == "" || rest[0] == '\n' then rest else [if s[0] == NBSP then ' ' else s[0]] + rest
      else [s[0]] + rest
  }

  /** The first three passes. */
  function Spaced(s: string): string {
    ReplaceChar(ReplaceChar(ReplaceCrLf(s), '\r', '\n'), NBSP, ' ')
  }

  function SpacedChar(c: char): char {
    if c == '\r' then '\n' else if c == NBSP then ' ' else c
  }

  lemma ReplaceCharUnfolds(c: char, s: string, old_: char, new_: char)
    ensures ReplaceChar([c] + s, old_, new_) == [if c == old_ then new_ else c] + ReplaceChar(s, old_, new_)
  {
    assert ([c] + s)[1..] == s;
  }

  lemma SpacedUnfolds(s: string)
    requires s != ""
    ensures |s| >= 2 && s[0] == '\r' && s[1] == '\n' ==> Spaced(s) == "\n" + Spaced(s[2..])
    ensures !(|s| >= 2 && s[0] == '\r' && s[1] == '\n') ==> Spaced(s) == [SpacedChar(s[0])] + Spaced(s[1..])
  {
    var pair := |s| >= 2 && s[0] == '\r' && s[1] == '\n';
    var c, rest := if pair then '\n' else s[0], ReplaceCrLf(if pair then s[2..] else s[1..]);
    assert ReplaceCrLf(s) == [c] + rest;
    ReplaceCharUnfolds(c, rest, '\r', '\n');
    ReplaceCharUnfolds(if c == '\r' then '\n' else c, ReplaceChar(rest, '\r', '\n'), NBSP, ' ');
    hide ReplaceChar, ReplaceCrLf;
  }

  /** The last two passes, character by character. */
  lemma TrimmedAndCollapsed(c: char, t: string)
    ensures var rest, r := CollapseNewlines(TrimLineEnds(t)), CollapseNewlines(TrimLineEnds([c] + t));
            && (c == '\n' ==> r == if StartsWithTwoNewlines(rest) then rest else "\n" + rest)
            && (IsBlankChar(c) ==> r == if rest == "" || rest[0] == '\n' then rest else [c] + rest)
            && (c != '\n' && !IsBlankChar(c) ==> r == [c] + rest)
  {
    var u := TrimLineEnds(t);
    assert ([c] + t)[1..] == t;
    CollapseKeepsHead(u);
    CollapseOfTwo(u);
    assert ([c] + u)[1..] == u;
    assert StartsWithThreeNewlines([c] + u) <==> c == '\n' && StartsWithTwoNewlines(u);
    hide CollapseNewlines, TrimLineEnds;
    CollapseUnfolds(c, u);
    TrimUnfolds(c, t);
  }

  lemma CollapseUnfolds(c: char, u: string)
    ensures CollapseNewlines([c] + u) == if StartsWithThreeNewlines([c] + u) then CollapseNewlines(u) else [c] + CollapseNewlines(u)
  {
    assert ([c] + u)[1..] == u;
  }

  lemma TrimUnfolds(c: char, t: string)
    ensures var u := TrimLineEnds(t); TrimLineEnds([c] + t) == if IsBlankChar(c) && (u == "" || u[0] == '\n') then u else [c] + u
  {
    assert ([c] + t)[1..] == t;
  }

  lemma CollapseOfTwo(u: string)
    ensures StartsWithTwoNewlines(u) <==> StartsWithTwoNewlines(CollapseNewlines(u))
  {
    CollapseKeepsHead(u);
    if u != "" && |u| < 2 { assert CollapseNewlines(u[1..]) == ""; }
  }

  lemma {:induction false} ChainIsTidy(s: string)
    ensures CollapseNewlines(TrimLineEnds(Spaced(s))) == Tidy(s)
    decreases |s|
  {
    hide Spaced, CollapseNewlines, TrimLineEnds;
    if s == "" {
      EmptyChain();
    } else if |s| >= 2 && s[0] == '\r' && s[1] == '\n' {
      SpacedUnfolds(s);
      ChainIsTidy(s[2..]);
      TrimmedAndCollapsed('\n', Spaced(s[2..]));
      assert s[1..][1..] == s[2..];
    } else {
      SpacedUnfolds(s);
      ChainIsTidy(s[1..]);
      TrimmedAndCollapsed(SpacedChar(s[0]), Spaced(s[1..]));
    }
  }

  lemma EmptyChain()
    ensures CollapseNewlines(TrimLineEnds(Spaced(""))) == ""
  {
  }

  /** The five passes of the chain are this one pass, stripped. */
  lemma RewriteIsTidy(s: string)
    ensures Rewrite(s) == Strip(Tidy(s))
  {
    ChainIsTidy(s);
    hide Strip, Tidy, CollapseNewlines, TrimLineEnds, ReplaceChar, ReplaceCrLf;
  }

  // ---- what happens to the gaps

  /** Newlines at the head of the result, from the line ends of the first stretch of the gap. */
  lemma {:induction false} LeadingOfTidy(s: string)
    ensures (Tidy(s) != "" && Tidy(s)[0] == '\n') <==> Gaps(s, true)[0].run >= 1
    ensures StartsWithTwoNewlines(Tidy(s)) <==> Gaps(s, true)[0].run >= 2
    ensures Absent(Tidy(s), '\r')
  {
    if s != "" { LeadingOfTidy(s[1..]); }
  }

  /** A gap may be said to come out right: open where it was, with the line ends it keeps. */
  predicate ComesOut(gap: Gap, out: Gap) {
    out.some == gap.some && out.ends == gap.kept
  }

  /** All gaps of a text but the last come out right. */
  ghost predicate AllComeOut(s: string, out: string) {
    Ink(out) == Ink(s) && forall k :: 0 <= k < |Ink(s)| ==> ComesOut(Gaps(s, true)[k], Gaps(out, true)[k])
  }

  lemma InkComesOut(s: string, rest: string)
    requires s != "" && !IsSpace(s[0]) && AllComeOut(s[1..], rest)
    ensures AllComeOut(s, [s[0]] + rest)
  {
    hide IsSpace, Ink, Gaps;
    var out := [s[0]] + rest;
    assert out[1..] == rest;
    GapsOfInk(s, true);
    GapsOfInk(out, true);
    forall k | 0 <= k < |Ink(s)| ensures ComesOut(Gaps(s, true)[k], Gaps(out, true)[k]) {
      if k > 0 { assert ComesOut(Gaps(s[1..], true)[k - 1], Gaps(rest, true)[k - 1]); }
    }
  }

  lemma WidenedGaps(s: string)
    requires s != "" && IsSpace(s[0])
    ensures Ink(s) == Ink(s[1..])
    ensures Gaps(s, true) == [Widen(s, true, Gaps(s[1..], true)[0])] + Gaps(s[1..], true)[1..]
  {
    hide IsSpace, Widen;
  }

  /** Whitespace that goes: what stands behind it opens the gap and accounts for it. */
  lemma SpaceGoes(s: string, rest: string)
    requires s != "" && IsSpace(s[0]) && AllComeOut(s[1..], rest)
    requires Ink(s[1..]) != "" ==> Gaps(rest, true)[0].some && Widen(s, true, Gaps(s[1..], true)[0]).kept == Gaps(s[1..], true)[0].kept
    ensures AllComeOut(s, rest)
  {
    hide IsSpace, Ink, Gaps, Widen;
    WidenedGaps(s);
    forall k | 0 <= k < |Ink(s)| ensures ComesOut(Gaps(s, true)[k], Gaps(rest, true)[k]) {
      assert ComesOut(Gaps(s[1..], true)[k], Gaps(rest, true)[k]);
      if k == 0 { assert Widen(s, true, Gaps(s[1..], true)[0]).some by { WidenOpens(s, Gaps(s[1..], true)[0]); } }
    }
  }

  lemma WidenOpens(s: string, gap: Gap)
    requires s != ""
    ensures Widen(s, true, gap).some
  {
  }

  /** Whitespace that stays, as c. */
  lemma SpaceStays(s: string, rest: string, c: char)
    requires s != "" && IsSpace(s[0]) && IsSpace(c) && AllComeOut(s[1..], rest)
    requires Ink(s[1..]) != "" ==>
               var gap, out := Gaps(s[1..], true)[0], Gaps(rest, true)[0];
               Widen([c] + rest, true, out).ends - out.ends == Widen(s, true, gap).kept - gap.kept
    ensures AllComeOut(s, [c] + rest)
  {
    hide IsSpace, Ink, Gaps, Widen;
    var out := [c] + rest;
    assert out[1..] == rest;
    WidenedGaps(s);
    WidenedGaps(out);
    forall k | 0 <= k < |Ink(s)| ensures ComesOut(Gaps(s, true)[k], Gaps(out, true)[k]) {
      assert ComesOut(Gaps(s[1..], true)[k], Gaps(rest, true)[k]);
      if k == 0 {
        WidenOpens(s, Gaps(s[1..], true)[0]);
        WidenOpens(out, Gaps(rest, true)[0]);
      }
    }
  }

  lemma {:induction false} GapsOfTidy(s: string)
    ensures AllComeOut(s, Tidy(s))
  {
    if s != "" {
      var rest := Tidy(s[1..]);
      GapsOfTidy(s[1..]);
      LeadingOfTidy(s[1..]);
      FirstGap(rest, true);
      hide AllComeOut, Gaps, Ink;
      if !IsSpace(s[0]) {
        InkComesOut(s, rest);
      } else if EndsLine(s, true) {
        if StartsWithTwoNewlines(rest) { SpaceGoes(s, rest); } else { SpaceStays(s, rest, '\n'); }
      } else if s[0] == '\r' {
        assert s[1] == '\n';
        NewlineBehind(s);
        SpaceGoes(s, rest);
      } else if (IsBlankChar(s[0]) || s[0] == NBSP) && (rest == "" || rest[0] == '\n') {
        if rest == "" { NothingBehind(s[1..], rest); }
        SpaceGoes(s, rest);
      } else {
        SpaceStays(s, rest, Tidy(s)[0]);
      }
    }
  }

  /** Behind the CR of a CR LF the result has a newline. */
  lemma NewlineBehind(s: string)
    requires |s| > 1 && s[1] == '\n'
    ensures Tidy(s[1..]) != "" && Tidy(s[1..])[0] == '\n'
  {
  }

  lemma NothingBehind(s: string, rest: string)
    requires AllComeOut(s, rest) && rest == ""
    ensures Ink(s) == ""
  {
  }

  lemma {:induction false} GapsOfStripLeft(s: string)
    ensures Ink(StripLeft(s)) == Ink(s) && Gaps(StripLeft(s), true)[1..] == Gaps(s, true)[1..]
  {
    hide IsSpace, Widen;
    if s != "" && IsSpace(s[0]) { GapsOfStripLeft(s[1..]); }
  }

  lemma {:induction false} GapsWithTail(body: string, tail: string)
    requires IsBlank(tail) && Absent(body, '\r')
    ensures Ink(body + tail) == Ink(body)
    ensures forall k :: 0 <= k < |Ink(body)| ==> Gaps(body + tail, true)[k] == Gaps(body, true)[k]
  {
    hide IsSpace;
    var all := body + tail;
    if body == "" {
      assert all == tail;
      InkOfBlank(tail);
    } else {
      assert all[1..] == body[1..] + tail;
      assert Absent(body[1..], '\r');
      GapsWithTail(body[1..], tail);
    }
  }

  lemma GapsOfStripRight(s: string)
    requires Absent(s, '\r')
    ensures Ink(StripRight(s)) == Ink(s)
    ensures forall k :: 0 <= k < |Ink(s)| ==> Gaps(s, true)[k] == Gaps(StripRight(s), true)[k]
  {
    hide IsSpace, Gaps, Ink, StripRight;
    var body := StripRight(s);
    var tail := s[|body|..];
    assert s == body + tail;
    assert IsBlank(tail);
    GapsWithTail(body, tail);
  }

  lemma StripLeftLacks(s: string, c: char)
    requires Absent(s, c)
    ensures Absent(StripLeft(s), c)
  {
    hide IsSpace, StripLeft;
    var left := StripLeft(s);
    assert forall i :: 0 <= i < |left| ==> left[i] == s[|s| - |left| + i];
  }

  lemma GapsOfStrip(s: string)
    requires Absent(s, '\r')
    ensures Ink(Strip(s)) == Ink(s)
    ensures forall k :: 0 < k < |Ink(s)| ==> Gaps(Strip(s), true)[k] == Gaps(s, true)[k]
  {
    hide IsSpace, Gaps, Ink, StripLeft, StripRight;
    var left := StripLeft(s);
    GapsOfStripLeft(s);
    StripLeftLacks(s, '\r');
    GapsOfStripRight(left);
    forall k | 0 < k < |Ink(s)| ensures Gaps(Strip(s), true)[k] == Gaps(s, true)[k] {
      assert Gaps(left, true)[k] == Gaps(left, true)[1..][k - 1];
      assert Gaps(s, true)[k] == Gaps(s, true)[1..][k - 1];
    }
  }

  /** Rewriting keeps separations: between two neighbouring non-whitespace characters there is
      whitespace afterwards exactly if there was before, and of the line ends between them, LF, CR and
      CR LF each being one, at most two remain of each stretch of blanks and line ends; so two at
      most of all, unless other whitespace stands between them. */
  lemma RewriteKeepsGaps(s: string, k: nat)
    requires 0 < k < |Ink(s)|
    ensures Ink(Rewrite(s)) == Ink(s)
    ensures var gap, out := Gaps(s, true)[k], Gaps(Rewrite(s), true)[k];
            && out.some == gap.some && out.ends == gap.kept
            && (gap.plain ==> out.ends == if gap.ends < 2 then gap.ends else 2)
  {
    RewriteIsTidy(s);
    GapsOfTidy(s);
    LeadingOfTidy(s);
    GapsOfStrip(Tidy(s));
    PlainGaps(s, true);
    hide Rewrite, Tidy, Strip, Gaps, Ink;
    assert ComesOut(Gaps(s, true)[k], Gaps(Tidy(s), true)[k]);
  }

  /** Other whitespace between the line ends lets more than two remain. */
  lemma MoreThanTwoLineEnds()
    ensures var s := "a\n\U{b}\n\nb"; Rewrite(s) == s && Gaps(s, true)[1].ends == 3 && Gaps(s, true)[1].kept == 3
  {
    var s := "a\n\U{b}\n\nb";
    hide Rewrite, Gaps, Ink, Normal;
    ExampleIsNormal(s);
    RewriteOfNormal(s);
    GapsOfExample(s);
  }

  lemma ExampleIsNormal(s: string)
    requires s == "a\n\U{b}\n\nb"
    ensures Normal(s)
  {
  }

  lemma GapsOfExample(s: string)
    requires s == "a\n\U{b}\n\nb"
    ensures Gaps(s, true)[1].ends == 3 && Gaps(s, true)[1].kept == 3
  {
    var s5, s4, s3, s2, s1 := "b", "\nb", "\n\nb", "\U{b}\n\nb", "\n\U{b}\n\nb";
    assert s5[1..] == "" && Gaps(s5, true)[0] == NoGap;
    assert s4[1..] == s5 && Gaps(s4, true)[0] == Gap(true, 1, true, 1, 1);
    assert s3[1..] == s4 && Gaps(s3, true)[0] == Gap(true, 2, true, 2, 2);
    assert s2[1..] == s3 && Gaps(s2, true)[0] == Gap(true, 2, false, 0, 2);
    assert s1[1..] == s2 && Gaps(s1, true)[0] == Gap(true, 3, false, 1, 3);
    assert s[1..] == s1;
  }

  /** The words of the text are kept, and so is what parts them. */
  lemma WordsAreKept(s: string)
    ensures Words(Rewrite(s)) == Words(s)
  {
    RewriteKeepsInk(s);
    hide Rewrite, Words, Gaps;
    forall k | 0 < k < |Ink(s)| ensures Gaps(Rewrite(s), true)[k].some == Gaps(s, true)[k].some {
      RewriteKeepsGaps(s, k);
    }
    SameWords(Rewrite(s), s, true, true);
  }
}
