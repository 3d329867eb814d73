/**
 * The non-visual helpers of the trade statistics view: the colour chosen for a winrate
 * and for a profit-or-loss amount, the token metadata used to format an amount, and the
 * ascending order in which per-token rows are listed.
 */
module TradeStatsHelpers {
  import opened Wrappers
  import opened SwiftInt

  datatype StatColor = Green | Red | Primary

  /** Winrates are in basis points: above 50% is green, below is red, exactly 50% neutral. */
  function WinrateColor(ratio: int): (c: StatColor)
    ensures c == Green <==> ratio > 5000
    ensures c == Red <==> ratio < 5000
  {
    if ratio > 5000 then Green
    else if ratio < 5000 then Red
    else Primary
  }

  /** Index of the first `c` in `s`, or `|s|` when there is none. */
  function IndexOf(s: string, c: char): (i: nat)
    ensures i <= |s|
    ensures i < |s| ==> s[i] == c
    ensures forall k :: 0 <= k < i ==> s[k] != c
  {
    if s == [] then 0
    else if s[0] == c then 0
    else 1 + IndexOf(s[1..], c)
  }

  function Pow10(n: nat): (p: real)
    ensures p >= 1.0
  {
    if n == 0 then 1.0 else 10.0 * Pow10(n - 1)
  }

  /** `Double(amount)` for plain decimal notation: an optional sign, then digits with at
      most one decimal point and at least one digit. */
  function ParseDecimal(s: string): (r: Option<real>)
    ensures r.Some? ==> s != [] && (r.value < 0.0 ==> s[0] == '-')
    ensures s != [] && AllDigits(s) ==> r == Some(DigitsValue(s) as real)
  {
    assert s != [] && AllDigits(s) ==> SplitSign(s) == (false, s) && IndexOf(s, '.') == |s| && s[..|s|] == s;
    var (negative, body) := SplitSign(s);
    var dot := IndexOf(body, '.');
    var intPart := body[..dot];
    var fraction := if dot < |body| then body[dot + 1..] else [];
    if |intPart| + |fraction| == 0 || !AllDigits(intPart) || !AllDigits(fraction) then None
    else
      var magnitude := Magnitude(intPart, fraction);
      Some(if negative then -magnitude else magnitude)
  }

  /** The value of the digits `intPart.fraction`. */
  function Magnitude(intPart: string, fraction: string): (m: real)
    requires AllDigits(intPart) && AllDigits(fraction)
    ensures fraction == [] ==> m == DigitsValue(intPart) as real
  {
    DigitsValue(intPart) as real + ShiftRight(DigitsValue(fraction) as real, |fraction|)
  }

  /** `x / 10^k`, one decimal place at a time. */
  function ShiftRight(x: real, k: nat): (y: real)
    ensures x >= 0.0 ==> y >= 0.0
  {
    if k == 0 then x else ShiftRight(x, k - 1) / 10.0
  }

  /** An integer rendered by string interpolation parses back to the same value. */
  lemma ParseDecimalOfInteger(n: int)
    ensures ParseDecimal(IntToString(n)) == Some(n as real)
  {
    var s := IntToString(n);
    var m: nat := if n < 0 then -n else n;
    var digits := NatToDigits(m);
    assert SplitSign(s) == (n < 0, digits);
    assert forall k :: 0 <= k < |digits| ==> digits[k] != '.';
    assert digits[..|digits|] == digits;
  }

  /** Profit or loss amounts: a positive number is green, a negative one red, zero and
      text that is not a number neutral. */
  function PnlColor(amount: string): (c: StatColor)
    ensures c == Green <==> ParseDecimal(amount).Some? && ParseDecimal(amount).value > 0.0
    ensures c == Red <==> ParseDecimal(amount).Some? && ParseDecimal(amount).value < 0.0
  {
    match ParseDecimal(amount)
    case Some(v) => if v > 0.0 then Green else if v < 0.0 then Red else Primary
    case None => Primary
  }

  /** For an amount interpolated from an integer, the colour follows its sign. */
  lemma PnlColorOfInteger(n: int)
    ensures PnlColor(IntToString(n)) == (if n > 0 then Green else if n < 0 then Red else Primary)
  {
    ParseDecimalOfInteger(n);
  }

  /** Both colourings use one convention: a winrate is coloured like its distance from
      50% would be as a profit. */
  lemma WinrateMatchesPnlConvention(ratio: int)
    ensures WinrateColor(ratio) == PnlColor(IntToString(ratio - 5000))
  {
    PnlColorOfInteger(ratio - 5000);
  }

  datatype TokenInfo = TokenInfo(alias: string, symbol: string, decimals: int)

  /** Metadata for `token`, falling back to the native quote token's when the map has none. */
  function TokenInfoFor(infoMap: map<string, TokenInfo>, native: TokenInfo, token: string): (t: TokenInfo)
    ensures token in infoMap ==> t == infoMap[token]
    ensures token !in infoMap ==> t == native
  {
    if token in infoMap then infoMap[token] else native
  }

  /** `10^d` for a possibly negative exponent. */
  function PowTen(d: int): (p: real)
    ensures p > 0.0
  {
    if d >= 0 then Pow10(d) else 1.0 / Pow10(-d)
  }

  /** A formatted amount: a number in whole tokens with the token's symbol, or the input
      text kept verbatim when it is not a number. */
  datatype TokenAmount = Scaled(value: real, symbol: string) | Verbatim(text: string)

  function FormatTokenAmount(amount: string, token: string, infoMap: map<string, TokenInfo>, native: TokenInfo): (r: TokenAmount)
    ensures r.Verbatim? <==> ParseDecimal(amount).None?
    ensures r.Verbatim? ==> r.text == amount + " " + TokenInfoFor(infoMap, native, token).symbol
    ensures r.Scaled? ==> r.symbol == TokenInfoFor(infoMap, native, token).symbol
    ensures r.Scaled? ==> r.value == InWholeTokens(ParseDecimal(amount).value, TokenInfoFor(infoMap, native, token).decimals)
  {
    var info := TokenInfoFor(infoMap, native, token);
    match ParseDecimal(amount)
    case Some(v) => Scaled(InWholeTokens(v, info.decimals), info.symbol)
    case None => Verbatim(amount + " " + info.symbol)
  }

  /** `amount / pow(10, decimals)`: a raw amount in whole tokens, the number that times
      `10^decimals` gives the raw amount back. */
  function InWholeTokens(v: real, decimals: int): (x: real)
    ensures x * PowTen(decimals) == v
  {
    var p := PowTen(decimals);
    QuotientTimesDivisor(v / p, v, p);
    v / p
  }

  lemma QuotientTimesDivisor(x: real, v: real, p: real)
    requires p > 0.0 && x == v / p
    ensures x * p == v
  {
  }

  /** Lexicographic order on strings, character by character. */
  predicate LexLess(a: string, b: string)
    decreases |a|
  {
    if a == [] then b != []
    else if b == [] then false
    else a[0] < b[0] || (a[0] == b[0] && LexLess(a[1..], b[1..]))
  }

  predicate LexLessEq(a: string, b: string) {
    a == b || LexLess(a, b)
  }

  lemma {:induction false} LexIrreflexive(a: string)
    ensures !LexLess(a, a)
    decreases |a|
  {
    if a != [] {
      LexIrreflexive(a[1..]);
    }
  }

  lemma {:induction false} LexTransitive(a: string, b: string, c: string)
    requires LexLess(a, b) && LexLess(b, c)
    ensures LexLess(a, c)
    decreases |a|
  {
    if a != [] && a[0] == b[0] && b[0] == c[0] {
      LexTransitive(a[1..], b[1..], c[1..]);
    }
  }

  lemma {:induction false} LexTotal(a: string, b: string)
    ensures a == b || LexLess(a, b) || LexLess(b, a)
    decreases |a|
  {
    if a != [] && b != [] && a[0] == b[0] {
      LexTotal(a[1..], b[1..]);
      if a[1..] == b[1..] {
        assert a == [a[0]] + a[1..] && b == [b[0]] + b[1..];
      }
    }
  }

  lemma LexAsymmetric(a: string, b: string)
    requires LexLess(a, b)
    ensures !LexLess(b, a)
  {
    if LexLess(b, a) {
      LexTransitive(a, b, a);
      LexIrreflexive(a);
    }
  }

  predicate Ascending(s: seq<string>) {
    forall i, j :: 0 <= i < j < |s| ==> LexLessEq(s[i], s[j])
  }

  /** Inserts `x` into an ascending sequence before the first element not less than it. */
  function Insert(x: string, s: seq<string>): (r: seq<string>)
    requires Ascending(s)
    ensures Ascending(r)
    ensures multiset(r) == multiset(s) + multiset{x}
  {
    if s == [] then [x]
    else if LexLessEq(x, s[0]) then
      assert forall j :: 0 <= j < |s| ==> LexLessEq(x, s[j]) by {
        forall j | 0 <= j < |s| ensures LexLessEq(x, s[j]) {
          if x != s[0] && s[0] != s[j] { LexTransitive(x, s[0], s[j]); }
        }
      }
      [x] + s
    else
      var rest := Insert(x, s[1..]);
      LexTotal(x, s[0]);
      assert forall j :: 0 <= j < |rest| ==> LexLessEq(s[0], rest[j]) by {
        forall j | 0 <= j < |rest| ensures LexLessEq(s[0], rest[j]) {
          assert rest[j] in multiset(rest);
          assert rest[j] == x || rest[j] in multiset(s[1..]);
          if rest[j] != x {
            var k :| 0 <= k < |s[1..]| && s[1..][k] == rest[j];
            assert s[k + 1] == rest[j];
          }
        }
      }
      assert s == [s[0]] + s[1..];
      [s[0]] + rest
  }

  /** `Array(keys).sorted()`: the keys in ascending order, whatever order they came in. */
  function SortedKeys(keys: seq<string>): (r: seq<string>)
    ensures Ascending(r)
    ensures multiset(r) == multiset(keys)
  {
    if keys == [] then []
    else
      assert keys == keys[..|keys| - 1] + [keys[|keys| - 1]];
      Insert(keys[|keys| - 1], SortedKeys(keys[..|keys| - 1]))
  }

  /** Two ascending sequences with the same elements are equal. */
  lemma {:induction false} AscendingUnique(a: seq<string>, b: seq<string>)
    requires Ascending(a) && Ascending(b) && multiset(a) == multiset(b)
    ensures a == b
    decreases |a|
  {
    if a != [] {
      assert b != [] by { assert a[0] in multiset(b); }
      AscendingHeadsEqual(a, b);
      TailMultiset(a);
      TailMultiset(b);
      AscendingUnique(a[1..], b[1..]);
      assert a == [a[0]] + a[1..] && b == [b[0]] + b[1..];
    }
  }

  lemma AscendingHeadsEqual(a: seq<string>, b: seq<string>)
    requires a != [] && b != [] && Ascending(a) && Ascending(b) && multiset(a) == multiset(b)
    ensures a[0] == b[0]
  {
    assert a[0] in multiset(b);
    assert b[0] in multiset(a);
    var i :| 0 <= i < |b| && b[i] == a[0];
    var j :| 0 <= j < |a| && a[j] == b[0];
    assert LexLessEq(b[0], a[0]) && LexLessEq(a[0], b[0]);
    if a[0] != b[0] {
      LexAsymmetric(a[0], b[0]);
    }
  }

  lemma TailMultiset(a: seq<string>)
    requires a != []
    ensures multiset(a[1..]) == multiset(a) - multiset{a[0]}
  {
    assert a == [a[0]] + a[1..];
  }

  /** The rows do not depend on the (unspecified) order in which the dictionary yields
      its keys. */
  lemma SortedKeysIndependentOfOrder(a: seq<string>, b: seq<string>)
    requires multiset(a) == multiset(b)
    ensures SortedKeys(a) == SortedKeys(b)
  {
    AscendingUnique(SortedKeys(a), SortedKeys(b));
  }

  /** The per-token profit-and-loss rows: one per key, in ascending key order, each with
      its formatted amount and its colour. */
  datatype PnlRow = PnlRow(token: string, value: TokenAmount, color: StatColor)

  /** The tokens of the rows, in row order. */
  function Tokens(rows: seq<PnlRow>): (ts: seq<string>)
    ensures |ts| == |rows|
    ensures forall i :: 0 <= i < |rows| ==> ts[i] == rows[i].token
  {
    seq(|rows|, i requires 0 <= i < |rows| => rows[i].token)
  }

  function PnlRows(pnlMap: map<string, string>, keys: seq<string>, infoMap: map<string, TokenInfo>, native: TokenInfo): (rows: seq<PnlRow>)
    requires forall k :: k in keys <==> k in pnlMap
    ensures |rows| == |keys|
    ensures multiset(Tokens(rows)) == multiset(keys)
    ensures forall i, j :: 0 <= i < j < |rows| ==> LexLessEq(rows[i].token, rows[j].token)
    ensures forall i :: 0 <= i < |rows| ==>
      (rows[i].token in pnlMap &&
       rows[i].value == FormatTokenAmount(pnlMap[rows[i].token], rows[i].token, infoMap, native) &&
       rows[i].color == PnlColor(pnlMap[rows[i].token]))
  {
    var order := SortedKeys(keys);
    assert |order| == |multiset(order)| == |keys|;
    assert forall i :: 0 <= i < |order| ==> order[i] in pnlMap by {
      forall i | 0 <= i < |order| ensures order[i] in pnlMap {
        assert order[i] in multiset(keys);
      }
    }
    var rows := seq(|order|, i requires 0 <= i < |order| =>
      PnlRow(order[i], FormatTokenAmount(pnlMap[order[i]], order[i], infoMap, native), PnlColor(pnlMap[order[i]])));
    assert Tokens(rows) == order;
    rows
  }
}
