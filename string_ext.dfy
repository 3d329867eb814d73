/**
 * The two String extensions used to clean process output before display:
 * `removeANSIColorCodes()` deletes every "Select Graphic Rendition" control sequence
 * (ECMA-48, section 8.3.117) of the form ESC `[` params `m`, where params is one or more
 * characters from `0-9;`, scanning left to right as a regex replace does;
 * `trim()` drops whitespace and newline characters from both ends.
 */
module StringCleanup {

  const ESC: char := '\U{1B}'

  predicate IsParamChar(c: char) {
    '0' <= c <= '9' || c == ';'
  }

  predicate NoEscape(s: string) {
    forall k :: 0 <= k < |s| ==> s[k] != ESC
  }

  /** Number of consecutive parameter characters in `s` starting at `i`. */
  function ParamRun(s: string, i: nat): (n: nat)
    requires i <= |s|
    ensures i + n <= |s|
    ensures forall k :: i <= k < i + n ==> IsParamChar(s[k])
    ensures i + n == |s| || !IsParamChar(s[i + n])
    decreases |s| - i
  {
    if i < |s| && IsParamChar(s[i]) then 1 + ParamRun(s, i + 1) else 0
  }

  /** Length of the match of `ESC\[[0-9;]+m` anchored at the start of `s`; 0 when there is
      none. Since `m` is not a parameter character, the greedy run must be followed by it. */
  function SgrLength(s: string): (n: nat)
    ensures n <= |s|
    ensures n > 0 ==> n >= 4 && s[0] == ESC && s[1] == '[' && s[n - 1] == 'm'
    ensures n > 0 ==> forall k :: 2 <= k < n - 1 ==> IsParamChar(s[k])
    ensures |s| > 0 && s[0] != ESC ==> n == 0
  {
    if |s| >= 2 && s[0] == ESC && s[1] == '[' then
      var run := ParamRun(s, 2);
      if run > 0 && 2 + run < |s| && s[2 + run] == 'm' then run + 3 else 0
    else 0
  }

  /** `removeANSIColorCodes()`: at each position, a match is deleted and scanning resumes
      after it; otherwise the character is kept and scanning moves one on. */
  function RemoveANSIColorCodes(s: string): (r: string)
    ensures |r| <= |s|
    decreases |s|
  {
    if s == [] then []
    else
      var n := SgrLength(s);
      if n > 0 then RemoveANSIColorCodes(s[n..])
      else [s[0]] + RemoveANSIColorCodes(s[1..])
  }

  /** `a` can be obtained from `b` by deleting characters. */
  predicate IsSubsequence(a: string, b: string)
    decreases |b|
  {
    a == [] || (b != [] && ((a[0] == b[0] && IsSubsequence(a[1..], b[1..])) || IsSubsequence(a, b[1..])))
  }

  lemma {:induction false} SubsequenceOfLonger(a: string, p: string, b: string)
    requires IsSubsequence(a, b)
    ensures IsSubsequence(a, p + b)
    decreases |p|
  {
    if p != [] {
      SubsequenceOfLonger(a, p[1..], b);
      var pb := p + b;
      assert pb[1..] == p[1..] + b;
      assert IsSubsequence(a, pb[1..]);
    } else {
      assert p + b == b;
    }
  }

  /** The cleaned text is the input with characters deleted: nothing is added or reordered. */
  lemma {:induction false} RemoveIsSubsequence(s: string)
    ensures IsSubsequence(RemoveANSIColorCodes(s), s)
    decreases |s|
  {
    if s != [] {
      var n := SgrLength(s);
      if n > 0 {
        RemoveIsSubsequence(s[n..]);
        SubsequenceOfLonger(RemoveANSIColorCodes(s[n..]), s[..n], s[n..]);
        assert s[..n] + s[n..] == s;
      } else {
        RemoveIsSubsequence(s[1..]);
      }
    }
  }

  /** A character other than ESC never starts a match, so it is kept. */
  lemma RemoveKeepsNonEscape(s: string)
    requires s != [] && s[0] != ESC
    ensures RemoveANSIColorCodes(s) == [s[0]] + RemoveANSIColorCodes(s[1..])
  {
    assert SgrLength(s) == 0;
  }

  /** Text without ESC passes through unchanged, whatever follows it. */
  lemma {:induction false} RemoveKeepsPlainPrefix(t: string, rest: string)
    requires NoEscape(t)
    ensures RemoveANSIColorCodes(t + rest) == t + RemoveANSIColorCodes(rest)
    decreases |t|
  {
    if t != [] {
      var s := t + rest;
      assert NoEscape(t[1..]) by {
        forall k | 0 <= k < |t[1..]| ensures t[1..][k] != ESC {
          assert t[1..][k] == t[k + 1];
        }
      }
      calc {
        RemoveANSIColorCodes(s);
      == { RemoveKeepsNonEscape(s); }
        [t[0]] + RemoveANSIColorCodes(s[1..]);
      == { assert s[1..] == t[1..] + rest; }
        [t[0]] + RemoveANSIColorCodes(t[1..] + rest);
      == { RemoveKeepsPlainPrefix(t[1..], rest); }
        [t[0]] + (t[1..] + RemoveANSIColorCodes(rest));
      == { assert [t[0]] + t[1..] == t; }
        t + RemoveANSIColorCodes(rest);
      }
    } else {
      assert t + rest == rest;
    }
  }

  /** A string with no ESC at all is returned unchanged. */
  lemma RemoveWithoutEscapeIsIdentity(s: string)
    requires NoEscape(s)
    ensures RemoveANSIColorCodes(s) == s
  {
    RemoveKeepsPlainPrefix(s, []);
    assert s + [] == s;
  }

  /** The SGR sequence for the parameters `p`. */
  function Sgr(p: string): string {
    [ESC, '['] + p + ['m']
  }

  predicate ValidParams(p: string) {
    |p| >= 1 && forall k :: 0 <= k < |p| ==> IsParamChar(p[k])
  }

  lemma {:induction false} ParamRunOver(p: string, s: string, i: nat)
    requires forall k :: 0 <= k < |p| ==> IsParamChar(p[k])
    requires i + |p| < |s| && s[i..i + |p|] == p && s[i + |p|] == 'm'
    ensures ParamRun(s, i) == |p|
    decreases |p|
  {
    if p != [] {
      assert s[i] == p[0];
      assert s[i + 1..i + 1 + |p[1..]|] == p[1..];
      ParamRunOver(p[1..], s, i + 1);
    }
  }

  /** A well-formed colour sequence in front of any text is deleted. */
  lemma RemoveDropsSgr(p: string, rest: string)
    requires ValidParams(p)
    ensures RemoveANSIColorCodes(Sgr(p) + rest) == RemoveANSIColorCodes(rest)
  {
    var s := Sgr(p) + rest;
    assert s[2..2 + |p|] == p;
    ParamRunOver(p, s, 2);
    assert SgrLength(s) == |p| + 3;
    assert s[|p| + 3..] == rest;
  }

  /** Coloured output: runs of plain text interleaved with SGR sequences. */
  datatype Piece = Text(text: string) | Code(params: string)

  function Render(ps: seq<Piece>): string {
    if ps == [] then []
    else
      match ps[0]
      case Text(t) => t + Render(ps[1..])
      case Code(p) => Sgr(p) + Render(ps[1..])
  }

  /** The text a reader sees: the plain runs only. */
  function PlainText(ps: seq<Piece>): string {
    if ps == [] then []
    else
      match ps[0]
      case Text(t) => t + PlainText(ps[1..])
      case Code(_) => PlainText(ps[1..])
  }

  predicate WellFormedPieces(ps: seq<Piece>) {
    forall k :: 0 <= k < |ps| ==>
      match ps[k]
      case Text(t) => NoEscape(t)
      case Code(p) => ValidParams(p)
  }

  /** Stripping coloured output leaves exactly its plain text. */
  lemma {:induction false} RemoveRecoversPlainText(ps: seq<Piece>)
    requires WellFormedPieces(ps)
    ensures RemoveANSIColorCodes(Render(ps)) == PlainText(ps)
  {
    if ps != [] {
      assert WellFormedPieces(ps[1..]) by {
        forall k | 0 <= k < |ps[1..]| ensures ps[1..][k] == ps[k + 1] { }
      }
      RemoveRecoversPlainText(ps[1..]);
      match ps[0]
      case Text(t) =>
        assert NoEscape(t) by { assert ps[0] == Text(t); }
        RemoveKeepsPlainPrefix(t, Render(ps[1..]));
      case Code(p) =>
        assert ValidParams(p) by { assert ps[0] == Code(p); }
        RemoveDropsSgr(p, Render(ps[1..]));
    }
  }

  /** The example of a red error message: `ESC[1;31mErr ESC[0m` becomes `Err`. */
  lemma RemoveRedErrorExample()
    ensures RemoveANSIColorCodes(Sgr("1;31") + "Err" + Sgr("0")) == "Err"
  {
    assert ValidParams("1;31") && ValidParams("0") && NoEscape("Err");
    assert Sgr("1;31") + "Err" + Sgr("0") == Sgr("1;31") + ("Err" + Sgr("0"));
    RemoveDropsSgr("1;31", "Err" + Sgr("0"));
    RemoveKeepsPlainPrefix("Err", Sgr("0"));
    assert Sgr("0") == Sgr("0") + [];
    RemoveDropsSgr("0", []);
    assert "Err" + [] == "Err";
  }

  /** Escape sequences of other shapes are kept: no parameters (`ESC[m`), no final `m`
      (`ESC[31` at the end), or another final byte (`ESC[2K`). */
  lemma RemoveKeepsOtherEscapes()
    ensures RemoveANSIColorCodes("\U{1B}[m") == "\U{1B}[m"
    ensures RemoveANSIColorCodes("\U{1B}[31") == "\U{1B}[31"
    ensures RemoveANSIColorCodes("\U{1B}[2K") == "\U{1B}[2K"
  {
    var a := "\U{1B}[m";
    assert ParamRun(a, 2) == 0;
    UnmatchedEscapeKept(a);
    var b := "\U{1B}[31";
    assert ParamRun(b, 4) == 0 && ParamRun(b, 3) == 1 && ParamRun(b, 2) == 2;
    UnmatchedEscapeKept(b);
    var c := "\U{1B}[2K";
    assert ParamRun(c, 3) == 0 && ParamRun(c, 2) == 1;
    UnmatchedEscapeKept(c);
  }

  /** A leading ESC that starts no match, followed by text without ESC, is kept with it. */
  lemma UnmatchedEscapeKept(s: string)
    requires s != [] && SgrLength(s) == 0 && NoEscape(s[1..])
    ensures RemoveANSIColorCodes(s) == s
  {
    RemoveWithoutEscapeIsIdentity(s[1..]);
    assert [s[0]] + s[1..] == s;
  }

  /** A character that starts no match is kept. */
  lemma RemoveKeepsUnmatched(s: string)
    requires s != [] && SgrLength(s) == 0
    ensures RemoveANSIColorCodes(s) == [s[0]] + RemoveANSIColorCodes(s[1..])
  {
  }

  /** `ESC[` directly followed by another ESC starts no match, so both characters are kept. */
  lemma EscapeBracketKept(s: string)
    requires |s| >= 3 && s[0] == ESC && s[1] == '[' && s[2] == ESC
    ensures RemoveANSIColorCodes(s) == s[..2] + RemoveANSIColorCodes(s[2..])
  {
    assert ParamRun(s, 2) == 0;
    RemoveKeepsUnmatched(s);
    RemoveKeepsUnmatched(s[1..]);
    assert s[1..][1..] == s[2..];
    assert s[..2] == [s[0]] + [s[1..][0]];
  }

  /** One pass is not always enough: deleting an inner sequence can join the characters
      around it into a new one, which a second call then deletes. */
  lemma RemoveNotIdempotent(p: string, q: string)
    requires ValidParams(p) && ValidParams(q)
    ensures RemoveANSIColorCodes([ESC, '['] + Sgr(p) + q + "m") == Sgr(q)
    ensures RemoveANSIColorCodes(Sgr(q)) == ""
  {
    var s := [ESC, '['] + Sgr(p) + q + "m";
    SplitAfterBracket(p, q);
    EscapeBracketKept(s);
    SgrThenPlain(p, q + "m");
    assert [ESC, '['] + (q + "m") == Sgr(q);
    RemoveDropsSgr(q, "");
    assert Sgr(q) + "" == Sgr(q);
  }

  lemma SplitAfterBracket(p: string, q: string)
    ensures var s := [ESC, '['] + Sgr(p) + q + "m";
      && |s| >= 3 && s[0] == ESC && s[1] == '[' && s[2] == ESC
      && s[..2] == [ESC, '['] && s[2..] == Sgr(p) + (q + "m")
  {
    var s := [ESC, '['] + Sgr(p) + q + "m";
    assert s[2..] == Sgr(p) + (q + "m");
  }

  /** A colour sequence followed by text without ESC leaves exactly that text. */
  lemma SgrThenPlain(p: string, t: string)
    requires ValidParams(p) && NoEscape(t)
    ensures RemoveANSIColorCodes(Sgr(p) + t) == t
  {
    RemoveDropsSgr(p, t);
    RemoveWithoutEscapeIsIdentity(t);
  }

  /** `CharacterSet.whitespacesAndNewlines`: general categories Zs, Zl and Zp, the
      controls U+0009 to U+000D, and U+0085. */
  predicate IsWhitespaceOrNewline(c: char) {
    ('\U{9}' <= c <= '\U{D}') || c == '\U{20}' || c == '\U{85}' || c == '\U{A0}' ||
    c == '\U{1680}' || ('\U{2000}' <= c <= '\U{200A}') || c == '\U{2028}' || c == '\U{2029}' ||
    c == '\U{202F}' || c == '\U{205F}' || c == '\U{3000}'
  }

  /** Number of whitespace characters at the start of `s`. */
  function LeadingWhitespace(s: string): (n: nat)
    ensures n <= |s|
    ensures forall k :: 0 <= k < n ==> IsWhitespaceOrNewline(s[k])
    ensures n < |s| ==> !IsWhitespaceOrNewline(s[n])
  {
    if s != [] && IsWhitespaceOrNewline(s[0]) then 1 + LeadingWhitespace(s[1..]) else 0
  }

  /** `s` without its trailing whitespace. */
  function TrimEnd(s: string): (r: string)
    ensures |r| <= |s| && r == s[..|r|]
    ensures forall k :: |r| <= k < |s| ==> IsWhitespaceOrNewline(s[k])
    ensures r == [] || !IsWhitespaceOrNewline(r[|r| - 1])
  {
    if s != [] && IsWhitespaceOrNewline(s[|s| - 1]) then TrimEnd(s[..|s| - 1]) else s
  }

  /** `trim()`: the slice of `s` left after dropping whitespace at both ends. */
  function Trim(s: string): (r: string)
    ensures r == [] || (!IsWhitespaceOrNewline(r[0]) && !IsWhitespaceOrNewline(r[|r| - 1]))
    ensures LeadingWhitespace(s) + |r| <= |s|
    ensures r == s[LeadingWhitespace(s)..LeadingWhitespace(s) + |r|]
    ensures forall k :: LeadingWhitespace(s) + |r| <= k < |s| ==> IsWhitespaceOrNewline(s[k])
  {
    var start := LeadingWhitespace(s);
    var r := TrimEnd(s[start..]);
    assert r == [] || r[0] == s[start];
    r
  }

  /** A string with no whitespace at either end is its own trim. */
  lemma TrimIdentity(s: string)
    requires s == [] || (!IsWhitespaceOrNewline(s[0]) && !IsWhitespaceOrNewline(s[|s| - 1]))
    ensures Trim(s) == s
  {
    assert LeadingWhitespace(s) == 0;
    assert s[0..] == s;
  }

  /** Trimming twice is trimming once. */
  lemma TrimIdempotent(s: string)
    ensures Trim(Trim(s)) == Trim(s)
  {
    TrimIdentity(Trim(s));
  }
}
