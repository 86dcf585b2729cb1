/**
 * Decimal text as the program reads and writes it: Python's int() and float()
 * on a string, str() of an int, the "%.1f" rendering of a float, and str.strip().
 *
 * The grammar is restricted to an optional sign, ASCII digits and at most one
 * '.'; whitespace inside the number, '_' separators, exponents, "inf" and "nan"
 * are not part of this model.
 */
module NumText {
  import opened Outcomes

  predicate IsDigit(c: char) { '0' <= c <= '9' }

  predicate AllDigits(s: string) { forall i :: 0 <= i < |s| ==> IsDigit(s[i]) }

  function DigitValue(c: char): (d: nat)
    requires IsDigit(c)
    ensures d < 10
  {
    c as int - '0' as int
  }

  function Digit(d: nat): (c: char)
    requires d < 10
    ensures IsDigit(c) && DigitValue(c) == d
  {
    ('0' as int + d) as char
  }

  /** The value of a run of decimal digits, most significant digit first */
  function DigitsValue(s: string): nat
    requires AllDigits(s)
  {
    if s == [] then 0 else DigitsValue(s[..|s| - 1]) * 10 + DigitValue(s[|s| - 1])
  }

  function Pow10(n: nat): (p: nat)
    ensures p >= 1
  {
    if n == 0 then 1 else 10 * Pow10(n - 1)
  }

  /** Splits off a leading '-' or '+': (is negative, the rest) */
  function SignSplit(s: string): (bool, string)
  {
    if |s| > 0 && s[0] == '-' then (true, s[1..])
    else if |s| > 0 && s[0] == '+' then (false, s[1..])
    else (false, s)
  }

  /** The position of the first occurrence of c in s */
  function IndexOf(s: string, c: char): (k: nat)
    requires c in s
    ensures k < |s| && s[k] == c && c !in s[..k]
  {
    if s[0] == c then 0 else 1 + IndexOf(s[1..], c)
  }

  /** int(s): an optional sign followed by at least one digit */
  function ParseInt(s: string): Option<int>
  {
    var (neg, body) := SignSplit(s);
    if |body| > 0 && AllDigits(body) then
      Some(if neg then -(DigitsValue(body) as int) else DigitsValue(body))
    else None
  }

  /** The unsigned part of float(s): digits, or digits '.' digits with at least one digit in all */
  function ParseUnsignedDecimal(body: string): Option<real>
  {
    if '.' in body then
      var k := IndexOf(body, '.');
      var whole, frac := body[..k], body[k + 1..];
      if |whole| + |frac| > 0 && AllDigits(whole) && AllDigits(frac) then
        Some(DigitsValue(whole) as real + DigitsValue(frac) as real / Pow10(|frac|) as real)
      else None
    else if |body| > 0 && AllDigits(body) then Some(DigitsValue(body) as real)
    else None
  }

  /** float(s) */
  function ParseDecimal(s: string): Option<real>
  {
    var (neg, body) := SignSplit(s);
    match ParseUnsignedDecimal(body)
    case None => None
    case Some(m) => Some(if neg then -m else m)
  }

  /** str(n) for a natural number */
  function NatText(n: nat): (s: string)
    ensures |s| > 0 && AllDigits(s)
  {
    if n < 10 then [Digit(n)] else NatText(n / 10) + [Digit(n % 10)]
  }

  /** str(n) for an int */
  function IntText(n: int): string
  {
    if n < 0 then "-" + NatText(-n) else NatText(n)
  }

  /** The text of m/10 for m >= 0: whole part, '.', one decimal digit */
  function TenthsBody(m: nat): string
  {
    NatText(m / 10) + "." + [Digit(m % 10)]
  }

  /** The "%.1f" text of t/10: sign, whole part, '.', one decimal digit */
  function TenthsText(t: int): string
  {
    (if t < 0 then "-" else "") + TenthsBody(if t < 0 then -t else t)
  }

  /** The text of m/100 for m >= 0: whole part, '.', two decimal digits */
  function HundredthsBody(m: nat): string
  {
    NatText(m / 100) + "." + [Digit(m % 100 / 10), Digit(m % 10)]
  }

  /** The text of t/100 with two decimals: sign, whole part, '.', two decimal digits */
  function HundredthsText(t: int): string
  {
    (if t < 0 then "-" else "") + HundredthsBody(if t < 0 then -t else t)
  }

  /** int(x) on a float: truncation toward zero */
  function Trunc(x: real): (n: int)
    ensures x >= 0.0 ==> n as real <= x < n as real + 1.0
    ensures x < 0.0 ==> n as real - 1.0 < x <= n as real
  {
    if x >= 0.0 then x.Floor else -((-x).Floor)
  }

  /** x rounded to the nearest tenth, as a count of tenths (ties go up) */
  function RoundTenths(x: real): (t: int)
    ensures t as real - 0.5 <= x * 10.0 < t as real + 0.5
  {
    (x * 10.0 + 0.5).Floor
  }

  /** The characters str.strip() removes */
  predicate IsSpace(c: char)
  {
    c == ' ' || c == '\t' || c == '\n' || c == '\r' || c == '\U{000B}' || c == '\U{000C}'
  }

  function TrimStart(s: string): (r: string)
    ensures |r| <= |s|
  {
    if s != [] && IsSpace(s[0]) then TrimStart(s[1..]) else s
  }

  function TrimEnd(s: string): (r: string)
    ensures |r| <= |s|
  {
    if s != [] && IsSpace(s[|s| - 1]) then TrimEnd(s[..|s| - 1]) else s
  }

  /** TrimStart drops a run of leading white space and keeps the rest, which starts with no white space */
  lemma {:induction false} TrimStartSpec(s: string)
    ensures var r := TrimStart(s);
      && r == s[|s| - |r|..]
      && (r == [] || !IsSpace(r[0]))
      && forall i :: 0 <= i < |s| - |r| ==> IsSpace(s[i])
  {
    if s != [] && IsSpace(s[0]) {
      TrimStartSpec(s[1..]);
    }
  }

  /** TrimEnd drops a run of trailing white space and keeps the rest, which ends with no white space */
  lemma {:induction false} TrimEndSpec(s: string)
    ensures var r := TrimEnd(s);
      && r == s[..|r|]
      && (r == [] || !IsSpace(r[|r| - 1]))
      && forall i :: |r| <= i < |s| ==> IsSpace(s[i])
  {
    if s != [] && IsSpace(s[|s| - 1]) {
      TrimEndSpec(s[..|s| - 1]);
    }
  }

  /** strip() keeps a middle slice of s, and removes only white space */
  lemma StripSpec(s: string)
    ensures exists a, b :: (0 <= a <= b <= |s| && Strip(s) == s[a..b]
      && (forall i :: 0 <= i < a ==> IsSpace(s[i])) && (forall i :: b <= i < |s| ==> IsSpace(s[i])))
    ensures Strip(s) == [] || (!IsSpace(Strip(s)[0]) && !IsSpace(Strip(s)[|Strip(s)| - 1]))
  {
    var t := TrimStart(s);
    TrimStartSpec(s);
    TrimEndSpec(t);
    var a := |s| - |t|;
    var b := a + |TrimEnd(t)|;
    assert Strip(s) == s[a..b];
  }

  /** s.strip(): s without its leading and trailing white space */
  function Strip(s: string): string
  {
    TrimEnd(TrimStart(s))
  }

  lemma {:induction false} NatTextValue(n: nat)
    ensures DigitsValue(NatText(n)) == n
  {
    if n >= 10 {
      NatTextValue(n / 10);
      var s := NatText(n);
      assert s[..|s| - 1] == NatText(n / 10);
    }
  }

  /** What str() writes for an int, int() reads back unchanged, and it holds no '.' */
  lemma IntTextRoundTrip(n: int)
    ensures ParseInt(IntText(n)) == Some(n)
    ensures '.' !in IntText(n)
  {
    if n < 0 {
      NegIntText(n);
    } else {
      NatTextValue(n);
      assert SignSplit(IntText(n)) == (false, NatText(n));
    }
  }

  /** int() reads '-' before the digits of -n back as n, for n < 0 */
  lemma NegIntText(n: int)
    requires n < 0
    ensures ParseInt(IntText(n)) == Some(n)
    ensures '.' !in IntText(n)
  {
    var s := "-" + NatText(-n);
    assert IntText(n) == s;
    NatTextValue(-n);
    assert s[1..] == NatText(-n);
    assert SignSplit(s) == (true, NatText(-n));
  }

  /** The first position holding c is the one IndexOf finds */
  lemma {:induction false} IndexOfFirst(s: string, c: char, k: nat)
    requires k < |s| && s[k] == c && c !in s[..k]
    ensures IndexOf(s, c) == k
  {
    if k > 0 {
      assert s[0] == s[..k][0];
      assert s[1..][..k - 1] == s[..k][1..];
      IndexOfFirst(s[1..], c, k - 1);
    }
  }

  /** The unsigned body "%.1f" writes for m/10 reads back as m/10 */
  lemma UnsignedTenthsValue(m: nat)
    ensures ParseUnsignedDecimal(TenthsBody(m)) == Some(m as real / 10.0)
    ensures IsDigit(TenthsBody(m)[0]) && '.' in TenthsBody(m)
  {
    var whole, last := NatText(m / 10), [Digit(m % 10)];
    var body := whole + "." + last;
    assert body[0] == whole[0];
    assert body[|whole|] == '.';
    assert '.' !in whole;
    assert body[..|whole|] == whole;
    IndexOfFirst(body, '.', |whole|);
    assert body[..|whole|] == whole;
    assert body[|whole| + 1..] == last;
    NatTextValue(m / 10);
    assert DigitsValue(last) == m % 10 by { assert last[..0] == []; }
    assert Pow10(|last|) == 10 by { assert Pow10(0) == 1; }
    assert AllDigits(whole) && AllDigits(last);
    assert ParseUnsignedDecimal(body)
      == Some(DigitsValue(whole) as real + DigitsValue(last) as real / 10.0);
    assert m == (m / 10) * 10 + m % 10;
    assert (m / 10) as real + (m % 10) as real / 10.0 == m as real / 10.0;
  }

  /** A body starting with a digit is read by float() as its unsigned value */
  lemma PlainDecimal(body: string, x: real)
    requires body != [] && IsDigit(body[0]) && ParseUnsignedDecimal(body) == Some(x)
    ensures ParseDecimal(body) == Some(x)
  {
    assert SignSplit(body) == (false, body);
  }

  /** A '-' before a body starting with a digit negates its value, and keeps its '.' */
  lemma NegDecimal(body: string, x: real)
    requires body != [] && IsDigit(body[0]) && ParseUnsignedDecimal(body) == Some(x)
    ensures ParseDecimal("-" + body) == Some(-x)
    ensures '.' in body ==> '.' in "-" + body
  {
    var s := "-" + body;
    assert s[1..] == body;
    assert SignSplit(s) == (true, body);
    if '.' in body {
      var k :| 0 <= k < |body| && body[k] == '.';
      assert s[k + 1] == '.';
    }
  }

  /** What "%.1f" writes for t/10, float() reads back as exactly t/10, and it holds a '.' */
  lemma TenthsTextRoundTrip(t: int)
    ensures ParseDecimal(TenthsText(t)) == Some(t as real / 10.0)
    ensures '.' in TenthsText(t)
  {
    if t < 0 {
      NegTenthsText(t);
    } else {
      NatTenthsText(t);
    }
  }

  /** float() reads the unsigned body of m/10 back as m/10 */
  lemma TenthsBodyDecimal(m: nat)
    ensures ParseDecimal(TenthsBody(m)) == Some(m as real / 10.0)
    ensures '.' in TenthsBody(m) && IsDigit(TenthsBody(m)[0])
  {
    UnsignedTenthsValue(m);
    PlainDecimal(TenthsBody(m), m as real / 10.0);
  }

  /** The "%.1f" text of m/10 for m >= 0 is its body, read back as m/10 */
  lemma NatTenthsText(m: nat)
    ensures ParseDecimal(TenthsText(m)) == Some(m as real / 10.0)
    ensures '.' in TenthsText(m)
  {
    assert TenthsText(m) == TenthsBody(m);
    TenthsBodyDecimal(m);
  }

  /** The "%.1f" text of t/10 for t < 0 is '-' and the body of -t, read back as t/10 */
  lemma NegTenthsText(t: int)
    requires t < 0
    ensures ParseDecimal(TenthsText(t)) == Some(t as real / 10.0)
    ensures '.' in TenthsText(t)
  {
    var m := -t;
    assert TenthsText(t) == "-" + TenthsBody(m);
    NegTenthsBodyDecimal(m);
    assert -(m as real / 10.0) == t as real / 10.0;
  }

  /** float() reads '-' before the body of m/10 back as -m/10 */
  lemma NegTenthsBodyDecimal(m: nat)
    ensures ParseDecimal("-" + TenthsBody(m)) == Some(-(m as real / 10.0))
    ensures '.' in "-" + TenthsBody(m)
  {
    UnsignedTenthsValue(m);
    NegDecimal(TenthsBody(m), m as real / 10.0);
  }

  lemma TwoDigitsValue(a: nat, b: nat)
    requires a < 10 && b < 10
    ensures DigitsValue([Digit(a), Digit(b)]) == a * 10 + b
  {
    var s := [Digit(a), Digit(b)];
    assert s[..1] == [Digit(a)];
    assert [Digit(a)][..0] == [];
    assert DigitsValue([Digit(a)]) == a;
    assert DigitsValue(s) == DigitsValue(s[..1]) * 10 + DigitValue(s[1]);
  }

  lemma TenUnique(m: nat, k: nat, d: nat)
    requires m == k * 10 + d && d < 10
    ensures m % 10 == d
  {
  }

  /** m splits into its hundreds, its tens digit and its units digit */
  lemma HundredsSplit(m: nat)
    ensures m == (m / 100) * 100 + (m % 100 / 10) * 10 + m % 10
  {
    var q, r := m / 100, m % 100;
    assert m == q * 100 + r;
    assert r == (r / 10) * 10 + r % 10;
    assert m == (q * 10 + r / 10) * 10 + r % 10;
    TenUnique(m, q * 10 + r / 10, r % 10);
  }

  /** The unsigned body of a two-decimal text for m/100 reads back as m/100 */
  lemma UnsignedHundredthsValue(m: nat)
    ensures ParseUnsignedDecimal(HundredthsBody(m)) == Some(m as real / 100.0)
    ensures IsDigit(HundredthsBody(m)[0]) && '.' in HundredthsBody(m)
  {
    var a, b := m % 100 / 10, m % 10;
    var whole, last := NatText(m / 100), [Digit(a), Digit(b)];
    var body := whole + "." + last;
    assert body[0] == whole[0];
    assert body[|whole|] == '.';
    assert '.' !in whole;
    assert body[..|whole|] == whole;
    IndexOfFirst(body, '.', |whole|);
    assert body[|whole| + 1..] == last;
    NatTextValue(m / 100);
    TwoDigitsValue(a, b);
    assert Pow10(|last|) == 100 by { assert Pow10(0) == 1; }
    assert AllDigits(whole) && AllDigits(last);
    assert ParseUnsignedDecimal(body)
      == Some(DigitsValue(whole) as real + DigitsValue(last) as real / 100.0);
    HundredsSplit(m);
    assert (m / 100) as real + (a * 10 + b) as real / 100.0 == m as real / 100.0;
  }

  /** A two-decimal text for t/100 reads back as exactly t/100, and it holds a '.' */
  lemma HundredthsTextRoundTrip(t: int)
    ensures ParseDecimal(HundredthsText(t)) == Some(t as real / 100.0)
    ensures '.' in HundredthsText(t)
  {
    if t < 0 {
      NegHundredthsText(t);
    } else {
      NatHundredthsText(t);
    }
  }

  /** float() reads the unsigned body of m/100 back as m/100 */
  lemma HundredthsBodyDecimal(m: nat)
    ensures ParseDecimal(HundredthsBody(m)) == Some(m as real / 100.0)
    ensures '.' in HundredthsBody(m) && IsDigit(HundredthsBody(m)[0])
  {
    UnsignedHundredthsValue(m);
    PlainDecimal(HundredthsBody(m), m as real / 100.0);
  }

  /** The two-decimal text of m/100 for m >= 0 is its body, read back as m/100 */
  lemma NatHundredthsText(m: nat)
    ensures ParseDecimal(HundredthsText(m)) == Some(m as real / 100.0)
    ensures '.' in HundredthsText(m)
  {
    assert HundredthsText(m) == HundredthsBody(m);
    HundredthsBodyDecimal(m);
  }

  /** The two-decimal text of t/100 for t < 0 is '-' and the body of -t, read back as t/100 */
  lemma NegHundredthsText(t: int)
    requires t < 0
    ensures ParseDecimal(HundredthsText(t)) == Some(t as real / 100.0)
    ensures '.' in HundredthsText(t)
  {
    var m := -t;
    assert HundredthsText(t) == "-" + HundredthsBody(m);
    NegHundredthsBodyDecimal(m);
    assert -(m as real / 100.0) == t as real / 100.0;
  }

  /** float() reads '-' before the body of m/100 back as -m/100 */
  lemma NegHundredthsBodyDecimal(m: nat)
    ensures ParseDecimal("-" + HundredthsBody(m)) == Some(-(m as real / 100.0))
    ensures '.' in "-" + HundredthsBody(m)
  {
    UnsignedHundredthsValue(m);
    NegDecimal(HundredthsBody(m), m as real / 100.0);
  }

  /** float() reads any int text as the same value */
  lemma IntTextAsDecimal(n: int)
    ensures ParseDecimal(IntText(n)) == Some(n as real)
  {
    if n < 0 {
      var m := -n;
      assert IntText(n) == "-" + NatText(m);
      NatDecimal(m);
      NegDecimal(NatText(m), m as real);
    } else {
      NatDecimal(n);
      PlainDecimal(NatText(n), n as real);
    }
  }

  /** The unsigned decimal reading of str(m) is m */
  lemma NatDecimal(m: nat)
    ensures NatText(m) != [] && IsDigit(NatText(m)[0])
    ensures ParseUnsignedDecimal(NatText(m)) == Some(m as real)
  {
    NatTextValue(m);
  }

  /** Strip leaves text with no white space at either end as it is */
  lemma StripKept(s: string)
    requires s != [] && !IsSpace(s[0]) && !IsSpace(s[|s| - 1])
    ensures Strip(s) == s
  {
  }

  /** str() of a natural number starts and ends with a digit */
  lemma NatTextEnds(n: nat)
    ensures IsDigit(NatText(n)[0]) && IsDigit(NatText(n)[|NatText(n)| - 1])
  {
  }

  /** str() of an int is kept by strip() */
  lemma IntTextStripped(n: int)
    ensures Strip(IntText(n)) == IntText(n)
  {
    var m := if n < 0 then -n else n;
    NatTextEnds(m);
    if n < 0 {
      assert IntText(n)[|IntText(n)| - 1] == NatText(m)[|NatText(m)| - 1];
    }
    StripKept(IntText(n));
  }

  /** "%.1f" text is kept by strip() */
  lemma TenthsTextStripped(t: int)
    ensures Strip(TenthsText(t)) == TenthsText(t)
  {
    var m := if t < 0 then -t else t;
    NatTextEnds(m / 10);
    var s := TenthsText(t);
    assert s[|s| - 1] == Digit(m % 10);
    if t >= 0 {
      assert s[0] == NatText(m / 10)[0];
    }
    StripKept(s);
  }

  /** Two-decimal text is kept by strip() */
  lemma HundredthsTextStripped(t: int)
    ensures Strip(HundredthsText(t)) == HundredthsText(t)
  {
    var m := if t < 0 then -t else t;
    NatTextEnds(m / 100);
    var s := HundredthsText(t);
    assert s[|s| - 1] == Digit(m % 10);
    if t >= 0 {
      assert s[0] == NatText(m / 100)[0];
    }
    StripKept(s);
  }
}
