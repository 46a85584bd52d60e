/**
 * The few Python `str` operations the modelled code relies on, stated over
 * `seq<char>`: `strip`, `startswith`/`endswith`, `in`, `join`, `replace`,
 * slicing, `split(sep)[-1]`, ASCII `lower`/`upper` and integer formatting.
 */
module Text {
  import opened Wrappers

  /** Python's `str.isspace` for a single character. */
  predicate IsSpace(c: char) {
    || c == ' ' || ('\t' <= c <= '\r') || ('\U{1C}' <= c <= '\U{1F}')
    || c == '\U{85}' || c == '\U{A0}' || c == '\U{1680}'
    || ('\U{2000}' <= c <= '\U{200A}') || c == '\U{2028}' || c == '\U{2029}'
    || c == '\U{202F}' || c == '\U{205F}' || c == '\U{3000}'
  }

  /** No leading and no trailing whitespace. */
  predicate IsStripped(s: string) {
    s == [] || (!IsSpace(s[0]) && !IsSpace(s[|s| - 1]))
  }

  predicate AllSpace(w: string) {
    forall i :: 0 <= i < |w| ==> IsSpace(w[i])
  }

  function TrimLeft(s: string): (r: string)
    ensures |r| <= |s|
    ensures r == [] || !IsSpace(r[0])
    ensures AllSpace(s[..|s| - |r|])
  {
    if s != [] && IsSpace(s[0]) then TrimLeft(s[1..]) else s
  }

  function TrimRight(s: string): (r: string)
    ensures |r| <= |s| && r == s[..|r|]
    ensures r == [] || !IsSpace(r[|r| - 1])
    ensures forall i :: |r| <= i < |s| ==> IsSpace(s[i])
  {
    if s != [] && IsSpace(s[|s| - 1]) then TrimRight(s[..|s| - 1]) else s
  }

  /** Python's `s.strip()`: drop leading and trailing whitespace. */
  function Strip(s: string): (r: string)
    ensures IsStripped(r)
    ensures |r| <= |s|
  {
    TrimRight(TrimLeft(s))
  }

  lemma {:induction false} TrimLeftPadded(w: string, t: string)
    requires AllSpace(w)
    requires t == [] || !IsSpace(t[0])
    ensures TrimLeft(w + t) == t
    decreases |w|
  {
    if w == [] {
      assert w + t == t;
    } else {
      assert (w + t)[1..] == w[1..] + t;
      TrimLeftPadded(w[1..], t);
    }
  }

  lemma {:induction false} TrimRightPadded(t: string, w: string)
    requires AllSpace(w)
    requires t == [] || !IsSpace(t[|t| - 1])
    ensures TrimRight(t + w) == t
    decreases |w|
  {
    if w == [] {
      assert t + w == t;
    } else {
      assert (t + w)[..|t + w| - 1] == t + w[..|w| - 1];
      TrimRightPadded(t, w[..|w| - 1]);
    }
  }

  /** Stripping removes exactly the whitespace padding around a stripped text. */
  lemma StripPadded(w1: string, b: string, w2: string)
    requires AllSpace(w1) && AllSpace(w2) && IsStripped(b)
    ensures Strip(w1 + b + w2) == b
  {
    if b == [] {
      assert w1 + b + w2 == w1 + w2;
      TrimLeftPadded(w1 + w2, []);
      assert w1 + w2 + [] == w1 + w2;
    } else {
      assert w1 + b + w2 == w1 + (b + w2);
      TrimLeftPadded(w1, b + w2);
      TrimRightPadded(b, w2);
    }
  }

  lemma StripOfStripped(s: string)
    requires IsStripped(s)
    ensures Strip(s) == s
  {
    StripPadded([], s, []);
    assert [] + s + [] == s;
  }

  predicate StartsWith(s: string, prefix: string) {
    |prefix| <= |s| && s[..|prefix|] == prefix
  }

  predicate EndsWith(s: string, suffix: string) {
    |suffix| <= |s| && s[|s| - |suffix|..] == suffix
  }

  /** Python's `sub in s`. */
  predicate Contains(s: string, sub: string)
    decreases |s|
  {
    StartsWith(s, sub) || (s != [] && Contains(s[1..], sub))
  }

  lemma {:induction false} ContainsAt(s: string, sub: string, i: nat)
    requires i + |sub| <= |s| && s[i..i + |sub|] == sub
    ensures Contains(s, sub)
    decreases i
  {
    if i > 0 {
      assert s[1..][i - 1..i - 1 + |sub|] == sub;
      ContainsAt(s[1..], sub, i - 1);
    }
  }

  lemma ContainsInfix(a: string, sub: string, b: string)
    ensures Contains(a + sub + b, sub)
  {
    var s := a + sub + b;
    assert s[|a|..|a| + |sub|] == sub;
    ContainsAt(s, sub, |a|);
  }

  /** Python's `sep.join(parts)`. */
  function Join(sep: string, parts: seq<string>): (r: string)
    ensures parts == [] ==> r == []
    ensures |parts| == 1 ==> r == parts[0]
  {
    if parts == [] then []
    else if |parts| == 1 then parts[0]
    else parts[0] + sep + Join(sep, parts[1..])
  }

  lemma {:induction false} JoinContainsPart(sep: string, parts: seq<string>, k: nat)
    requires k < |parts|
    ensures Contains(Join(sep, parts), parts[k])
  {
    if |parts| == 1 {
      ContainsInfix([], parts[0], []);
    } else if k == 0 {
      ContainsInfix([], parts[0], sep + Join(sep, parts[1..]));
      assert Join(sep, parts) == [] + parts[0] + (sep + Join(sep, parts[1..]));
    } else {
      JoinContainsPart(sep, parts[1..], k - 1);
      ContainsSuffix(parts[0] + sep, Join(sep, parts[1..]), parts[k]);
    }
  }

  lemma JoinContainsAll(sep: string, parts: seq<string>)
    ensures forall k :: 0 <= k < |parts| ==> Contains(Join(sep, parts), parts[k])
  {
    forall k | 0 <= k < |parts|
      ensures Contains(Join(sep, parts), parts[k])
    {
      JoinContainsPart(sep, parts, k);
    }
  }

  /** `"".join(parts)`: the pieces of an f-string laid end to end. */
  function Concat(parts: seq<string>): (r: string)
    ensures |parts| == 1 ==> r == parts[0]
  {
    if parts == [] then [] else parts[0] + Concat(parts[1..])
  }

  lemma {:induction false} ConcatContainsPart(parts: seq<string>, k: nat)
    requires k < |parts|
    ensures Contains(Concat(parts), parts[k])
  {
    if k == 0 {
      ContainsInfix([], parts[0], Concat(parts[1..]));
      assert Concat(parts) == [] + parts[0] + Concat(parts[1..]);
    } else {
      ConcatContainsPart(parts[1..], k - 1);
      ContainsSuffix(parts[0], Concat(parts[1..]), parts[k]);
    }
  }

  lemma {:induction false} ContainsSuffix(a: string, b: string, sub: string)
    requires Contains(b, sub)
    ensures Contains(a + b, sub)
    decreases |a|
  {
    if a == [] {
      assert a + b == b;
    } else {
      ContainsSuffix(a[1..], b, sub);
      assert (a + b)[1..] == a[1..] + b;
      assert Contains((a + b)[1..], sub);
    }
  }

  lemma JoinPrefix(sep: string, parts: seq<string>)
    requires |parts| >= 1
    ensures StartsWith(Join(sep, parts), parts[0])
  {
  }

  /** `sep.join(parts)` ends with the last part. */
  lemma {:induction false} JoinSuffix(sep: string, parts: seq<string>)
    requires |parts| >= 1
    ensures EndsWith(Join(sep, parts), parts[|parts| - 1])
  {
    if |parts| > 1 {
      JoinSuffix(sep, parts[1..]);
      var rest := Join(sep, parts[1..]);
      var whole := parts[0] + sep + rest;
      assert Join(sep, parts) == whole;
      var last := parts[|parts| - 1];
      assert rest[|rest| - |last|..] == last;
      assert whole[|whole| - |last|..] == rest[|rest| - |last|..];
    }
  }

  /** Python's `s.replace(pat, rep)` for a non-empty pattern: left to right, without overlaps. */
  function ReplaceAll(s: string, pat: string, rep: string): (r: string)
    requires |pat| > 0
    decreases |s|
  {
    if s == [] then []
    else if StartsWith(s, pat) then rep + ReplaceAll(s[|pat|..], pat, rep)
    else [s[0]] + ReplaceAll(s[1..], pat, rep)
  }

  /** Python's `s[:n]` for `n >= 0`. */
  function Take(s: string, n: nat): (r: string)
    ensures |r| <= n && |r| <= |s|
    ensures StartsWith(s, r)
    ensures |s| <= n ==> r == s
  {
    if |s| <= n then s else s[..n]
  }

  /** Python's `s.split(sep)[-1]`: what follows the last occurrence of `sep`, or `s` itself. */
  function AfterLast(s: string, sep: string): string
    requires |sep| > 0
  {
    PieceAfter(s, sep, [])
  }

  function PieceAfter(s: string, sep: string, acc: string): string
    requires |sep| > 0
    decreases |s|
  {
    if StartsWith(s, sep) then PieceAfter(s[|sep|..], sep, [])
    else if s == [] then acc
    else PieceAfter(s[1..], sep, acc + [s[0]])
  }

  function LowerChar(c: char): char {
    if 'A' <= c <= 'Z' then (c as int + 32) as char else c
  }

  function UpperChar(c: char): char {
    if 'a' <= c <= 'z' then (c as int - 32) as char else c
  }

  /** Python's `s.lower()` on ASCII letters. */
  function Lower(s: string): (r: string)
    ensures |r| == |s|
    ensures forall i :: 0 <= i < |s| ==> r[i] == LowerChar(s[i])
  {
    seq(|s|, i requires 0 <= i < |s| => LowerChar(s[i]))
  }

  /** Python's `s.upper()` on ASCII letters. */
  function Upper(s: string): (r: string)
    ensures |r| == |s|
    ensures forall i :: 0 <= i < |s| ==> r[i] == UpperChar(s[i])
  {
    seq(|s|, i requires 0 <= i < |s| => UpperChar(s[i]))
  }

  function DigitChar(d: nat): char
    requires d < 10
  {
    ('0' as int + d) as char
  }

  /** Python's `str(n)` for a natural number. */
  function NatToString(n: nat): (r: string)
    ensures |r| >= 1
    ensures forall i :: 0 <= i < |r| ==> '0' <= r[i] <= '9'
  {
    if n < 10 then [DigitChar(n)] else NatToString(n / 10) + [DigitChar(n % 10)]
  }

  /** Python's `str(i)` for an integer. */
  function IntToString(i: int): string {
    if i < 0 then "-" + NatToString(-i) else NatToString(i)
  }

  predicate IsDigit(c: char) {
    '0' <= c <= '9'
  }

  function DigitsValue(ds: string): nat
    requires forall i :: 0 <= i < |ds| ==> IsDigit(ds[i]) || ds[i] == '_'
  {
    if ds == [] then 0
    else if ds[|ds| - 1] == '_' then DigitsValue(ds[..|ds| - 1])
    else
      assert IsDigit(ds[|ds| - 1]);
      DigitsValue(ds[..|ds| - 1]) * 10 + (ds[|ds| - 1] as int - '0' as int)
  }

  /** Decimal digits, optionally grouped by single underscores, as Python's `int(str)` accepts them. */
  predicate IsDigitGroup(ds: string) {
    && ds != []
    && IsDigit(ds[0]) && IsDigit(ds[|ds| - 1])
    && (forall i :: 0 <= i < |ds| ==> IsDigit(ds[i]) || ds[i] == '_')
    && (forall i :: 0 <= i < |ds| - 1 ==> !(ds[i] == '_' && ds[i + 1] == '_'))
  }

  /** `str(n)` has no leading zero, except `"0"` itself. */
  lemma {:induction false} NatToStringLeading(n: nat)
    ensures n == 0 <==> NatToString(n) == "0"
    ensures n > 0 ==> NatToString(n)[0] != '0'
  {
    if n >= 10 {
      NatToStringLeading(n / 10);
      assert NatToString(n)[0] == NatToString(n / 10)[0];
    }
  }

  /** `10 ** k`. */
  function Pow10(k: nat): (r: nat)
    ensures r >= 1
  {
    if k == 0 then 1 else 10 * Pow10(k - 1)
  }

  /** `str(n)` has at most `k` digits when `n < 10 ** k`. */
  lemma {:induction false} NatToStringLength(n: nat, k: nat)
    requires k >= 1 && n < Pow10(k)
    ensures |NatToString(n)| <= k
  {
    if n >= 10 {
      assert n / 10 < Pow10(k - 1);
      NatToStringLength(n / 10, k - 1);
    }
  }

  predicate AllDigits(s: string) {
    forall i :: 0 <= i < |s| ==> IsDigit(s[i])
  }

  /** A digit string of length `k` stands for less than `10 ** k`. */
  lemma {:induction false} DigitsValueBound(ds: string)
    requires AllDigits(ds)
    ensures DigitsValue(ds) < Pow10(|ds|)
  {
    if ds != [] {
      DigitsValueBound(ds[..|ds| - 1]);
    }
  }

  /** Reading back the digits of `str(n)` gives `n`. */
  lemma {:induction false} DigitsValueOfNatToString(n: nat)
    ensures IsDigitGroup(NatToString(n))
    ensures DigitsValue(NatToString(n)) == n
  {
    var s := NatToString(n);
    if n >= 10 {
      DigitsValueOfNatToString(n / 10);
      assert s[..|s| - 1] == NatToString(n / 10);
    }
  }

  /** Python's `s.lstrip("0")`. */
  function DropLeadingZeros(s: string): (r: string)
    ensures |r| <= |s| && (AllDigits(s) ==> AllDigits(r))
    ensures r == [] || r[0] != '0'
  {
    if s != [] && s[0] == '0' then DropLeadingZeros(s[1..]) else s
  }

  /** Python's `s.rstrip("0")`. */
  function DropTrailingZeros(s: string): (r: string)
    ensures |r| <= |s| && (AllDigits(s) ==> AllDigits(r))
    ensures r == [] || r[|r| - 1] != '0'
  {
    if s != [] && s[|s| - 1] == '0' then DropTrailingZeros(s[..|s| - 1]) else s
  }

  /** Python's `s.find(c)`, with `|s|` standing for "not found". */
  function IndexOf(s: string, c: char): (r: nat)
    ensures r <= |s|
    ensures r < |s| ==> s[r] == c
    ensures forall i :: 0 <= i < r ==> s[i] != c
  {
    if s == [] then 0
    else if s[0] == c then 0
    else 1 + IndexOf(s[1..], c)
  }

  /** Python's `int(s)` for a string in base 10: `None` stands for the `ValueError`. */
  function ParseInt(s: string): Option<int> {
    IntLiteral(Strip(s))
  }

  /** An optionally signed group of decimal digits, read as an integer. */
  function IntLiteral(t: string): Option<int> {
    if t != [] && (t[0] == '+' || t[0] == '-') then
      if IsDigitGroup(t[1..]) then
        Some(if t[0] == '-' then -(DigitsValue(t[1..]) as int) else DigitsValue(t[1..]) as int)
      else None
    else if IsDigitGroup(t) then Some(DigitsValue(t) as int)
    else None
  }

  /** On a string without surrounding whitespace, `int(s)` reads the literal itself. */
  lemma ParseIntOfStripped(t: string)
    requires IsStripped(t)
    ensures ParseInt(t) == IntLiteral(t)
  {
    StripOfStripped(t);
  }

  /** The first `c` in `s` is at `k`. */
  lemma {:induction false} IndexOfAt(s: string, c: char, k: nat)
    requires k <= |s| && (k < |s| ==> s[k] == c)
    requires forall i :: 0 <= i < k ==> s[i] != c
    ensures IndexOf(s, c) == k
  {
    if s != [] && s[0] != c {
      IndexOfAt(s[1..], c, k - 1);
    }
  }

  /** An integer literal holds no point. */
  lemma IntLiteralRejectsPoint(t: string, k: nat)
    requires k < |t| && t[k] == '.'
    ensures IntLiteral(t).None?
  {
    if k > 0 {
      assert t[1..][k - 1] == '.';
    }
  }

  /** A signed literal of digits around a point has no surrounding whitespace. */
  lemma PointLiteralStripped(sign: string, w: string, f: string)
    requires sign == [] || sign == "-"
    requires AllDigits(w) && AllDigits(f) && w != [] && f != []
    ensures IsStripped(sign + w + "." + f)
  {
  }

  /** A signed run of digits has no surrounding whitespace. */
  lemma DigitLiteralStripped(sign: string, w: string)
    requires sign == [] || sign == "-"
    requires AllDigits(w) && w != []
    ensures IsStripped(sign + w)
  {
  }

  /** The digits of `str(i)`, after its sign. */
  lemma IntToStringDigits(i: int)
    ensures IsStripped(IntToString(i))
    ensures forall c :: 0 <= c < |IntToString(i)| ==> IntToString(i)[c] != '.'
    ensures i < 0 ==> IntToString(i)[0] == '-' && IntToString(i)[1..] == NatToString(-i)
    ensures i >= 0 ==> IntToString(i) == NatToString(i)
  {
    if i < 0 {
      assert IntToString(i)[1..] == NatToString(-i);
    }
  }

  /** `int(str(i)) == i`. */
  lemma ParseIntOfIntToString(i: int)
    ensures ParseInt(IntToString(i)) == Some(i)
  {
    var s := IntToString(i);
    var n: nat := if i < 0 then -i else i;
    DigitsValueOfNatToString(n);
    IntToStringDigits(i);
    ParseIntOfStripped(s);
  }

  /** `str(n)` of a natural below `10 ** 15`: at most 15 digits, without a leading zero unless `n` is 0. */
  lemma NatToStringShape(n: nat)
    requires n < Pow10(15)
    ensures AllDigits(NatToString(n)) && |NatToString(n)| <= 15
    ensures n != 0 ==> NatToString(n)[0] != '0'
    ensures DigitsValue(NatToString(n)) == n
  {
    NatToStringLeading(n);
    NatToStringLength(n, 15);
    DigitsValueOfNatToString(n);
  }

  /** `str(i)` of an integer below `10 ** 15` in magnitude: a sign, then the digits of its magnitude. */
  lemma IntToStringShape(i: int)
    requires -(Pow10(15) as int) < i < Pow10(15)
    ensures var n := if i < 0 then -i else i;
            && IntToString(i) == (if i < 0 then "-" else "") + NatToString(n)
            && AllDigits(NatToString(n)) && NatToString(n) != [] && |NatToString(n)| <= 15
            && (i != 0 ==> NatToString(n)[0] != '0')
            && DigitsValue(NatToString(n)) == n
  {
    NatToStringShape(if i < 0 then -i else i);
    IntToStringSign(i);
  }

  lemma IntToStringSign(i: int)
    ensures IntToString(i) == (if i < 0 then "-" else "") + NatToString(if i < 0 then -i else i)
  {
  }
}
