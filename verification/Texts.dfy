/** Character classes and the string operations the service takes from Python. */
module Texts {

  /** The characters for which Python's str.isspace() holds; `\s` and strip() use the same set. */
  predicate IsSpace(c: char) {
    || '\t' <= c <= '\r'
    || '\U{1c}' <= c <= ' '
    || c == '\U{85}' || c == '\U{a0}' || c == '\U{1680}'
    || '\U{2000}' <= c <= '\U{200a}'
    || c == '\U{2028}' || c == '\U{2029}' || c == '\U{202f}' || c == '\U{205f}' || c == '\U{3000}'
  }

  /** `not s.strip()` */
  predicate IsBlank(s: string) {
    forall i :: 0 <= i < |s| ==> IsSpace(s[i])
  }

  function StripLeft(s: string): (r: string)
    ensures |r| <= |s| && r == s[|s| - |r|..]
    ensures forall i :: 0 <= i < |s| - |r| ==> IsSpace(s[i])
    ensures r != "" ==> !IsSpace(r[0])
  {
    if s == "" || !IsSpace(s[0]) then s else StripLeft(s[1..])
  }

  function StripRight(s: string): (r: string)
    ensures |r| <= |s| && r == s[..|r|]
    ensures forall i :: |r| <= i < |s| ==> IsSpace(s[i])
    ensures r != "" ==> !IsSpace(r[|r| - 1])
  {
    if s == "" || !IsSpace(s[|s| - 1]) then s else StripRight(s[..|s| - 1])
  }

  /** `s.strip()` */
  function Strip(s: string): string {
    StripRight(StripLeft(s))
  }

  /** A text without outer whitespace. */
  predicate Stripped(s: string) {
    s != "" ==> !IsSpace(s[0]) && !IsSpace(s[|s| - 1])
  }

  lemma StripIsStripped(s: string)
    ensures Stripped(Strip(s))
    ensures Stripped(s) ==> Strip(s) == s
    ensures Strip(s) == "" <==> IsBlank(s)
  {
    var left := StripLeft(s);
    var both := StripRight(left);
    if both != "" {
      assert both[0] == left[0];
      assert left[0] == s[|s| - |left|];
    }
  }

  /** The maximal runs of non-whitespace characters: `s.split()`. */
  function Words(s: string): (words: seq<string>)
    ensures forall i :: 0 <= i < |words| ==> IsWordRun(words[i])
    decreases |s|
  {
    if s == "" then []
    else if IsSpace(s[0]) then Words(s[1..])
    else
      var n := RunLength(s);
      [s[..n]] + Words(s[n..])
  }

  predicate IsWordRun(w: string) {
    w != "" && forall i :: 0 <= i < |w| ==> !IsSpace(w[i])
  }

  /** Length of the leading run of non-whitespace characters. */
  function RunLength(s: string): (n: nat)
    ensures n <= |s|
    ensures forall i :: 0 <= i < n ==> !IsSpace(s[i])
    ensures n < |s| ==> IsSpace(s[n])
  {
    if s == "" || IsSpace(s[0]) then 0 else 1 + RunLength(s[1..])
  }

  function JoinWith(separator: string, parts: seq<string>): string {
    if parts == [] then ""
    else if |parts| == 1 then parts[0]
    else parts[0] + separator + JoinWith(separator, parts[1..])
  }

  /** `" ".join(query.split())` */
  function NormalizeQuery(query: string): string {
    JoinWith(" ", Words(query))
  }

  lemma RunLengthOfRun(w: string, rest: string)
    requires IsWordRun(w)
    requires rest == "" || IsSpace(rest[0])
    ensures RunLength(w + rest) == |w|
  {
    assert forall i :: 0 <= i < |w| ==> (w + rest)[i] == w[i];
    assert rest != "" ==> (w + rest)[|w|] == rest[0];
  }

  /** Splitting undoes joining, so a normalized query determines its words. */
  lemma {:induction false} WordsOfJoin(words: seq<string>)
    requires forall i :: 0 <= i < |words| ==> IsWordRun(words[i])
    ensures Words(JoinWith(" ", words)) == words
  {
    if words != [] {
      var w := words[0];
      var tail := if |words| == 1 then "" else " " + JoinWith(" ", words[1..]);
      var joined := JoinWith(" ", words);
      assert joined == w + tail;
      RunLengthOfRun(w, tail);
      assert joined[0] == w[0];
      assert joined[..|w|] == w && joined[|w|..] == tail;
      if |words| == 1 {
        assert words == [w];
      } else {
        assert tail[1..] == JoinWith(" ", words[1..]);
        WordsOfJoin(words[1..]);
        assert words == [w] + words[1..];
      }
    }
  }

  /** Query normalization keeps exactly the words: it is idempotent, and it identifies two
      queries just when they have the same words. */
  lemma QueryNormalization(a: string, b: string)
    ensures NormalizeQuery(NormalizeQuery(a)) == NormalizeQuery(a)
    ensures NormalizeQuery(a) == NormalizeQuery(b) <==> Words(a) == Words(b)
    ensures NormalizeQuery(a) == "" <==> IsBlank(a)
  {
    WordsOfJoin(Words(a));
    WordsOfJoin(Words(b));
    BlankHasNoWords(a);
  }

  lemma {:induction false} BlankHasNoWords(s: string)
    ensures Words(s) == [] <==> IsBlank(s)
    decreases |s|
  {
    if s != "" && IsSpace(s[0]) {
      BlankHasNoWords(s[1..]);
      assert IsBlank(s[1..]) ==> IsBlank(s) by {
        if IsBlank(s[1..]) {
          forall i | 0 <= i < |s| ensures IsSpace(s[i]) { if i > 0 { assert s[i] == s[1..][i - 1]; } }
        }
      }
    }
  }
}
