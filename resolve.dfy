/**
 * The parameter resolver of hydro_master.py: num(), which coerces a raw config
 * value to an int or a float and never fails, and the lookups the builders make
 * in the flat value mapping (a missing key is Python's KeyError, a float count
 * handed to range() is its TypeError).
 */
module Resolve {
  import opened Outcomes
  import opened NumText

  /** A number as Python holds it after num(): an int or a float */
  datatype Num = IntV(i: int) | FloatV(r: real)

  /** A config value as json.load gives it: a JSON integer, a JSON float, or a string */
  datatype Raw = RawInt(i: int) | RawFloat(r: real) | RawText(s: string)

  /** The "values" mapping of the config */
  type Values = map<string, Raw>

  /** Why a builder stops: a key it reads is absent, or a count is not an int */
  datatype BuildError = MissingKey(key: string) | NotAnInteger(key: string)

  /** A Python int or float as a real, as the host receives it */
  function ToReal(n: Num): real
  {
    match n
    case IntV(i) => i as real
    case FloatV(r) => r
  }

  /**
   * Python writes 0 and every magnitude from 1e-4 up to but excluding 1e16
   * positionally ("0.0001", "123.0"), and the rest in exponent form.
   */
  predicate PositionalFloat(r: real)
  {
    r == 0.0 || (0.0001 <= Abs(r) && Abs(r) < 10000000000000000.0)
  }

  function Abs(r: real): real
  {
    if r < 0.0 then -r else r
  }

  /** x times ten until it reaches [1, 10) */
  function ScaleUp(x: real): real
    requires 0.0 < x < 10.0
    decreases (1.0 / x).Floor
  {
    if x >= 1.0 then x
    else
      ScaleUpShrinks(x);
      ScaleUp(x * 10.0)
  }

  lemma ScaleUpShrinks(x: real)
    requires 0.0 < x < 1.0
    ensures 0 <= (1.0 / (x * 10.0)).Floor < (1.0 / x).Floor
  {
    var y := 1.0 / x;
    assert y > 1.0;
    assert 1.0 / (x * 10.0) == y / 10.0;
  }

  /** x divided by ten until it falls into [1, 10) */
  function ScaleDown(x: real): real
    requires x >= 1.0
    decreases x.Floor
  {
    if x < 10.0 then x else ScaleDown(x / 10.0)
  }

  /** The mantissa of the exponent form of a positive x: x times a power of ten, in [1, 10) */
  function Mantissa(x: real): real
    requires x > 0.0
  {
    if x < 1.0 then ScaleUp(x) else ScaleDown(x)
  }

  /**
   * Whether str() of a float holds a '.': always in positional form; in
   * exponent form exactly when the mantissa has a fractional digit ("1.5e-05",
   * "2.5e+16"), so not for a one-digit mantissa ("1e-05", "3e+16").
   */
  predicate StrHasDot(r: real)
  {
    PositionalFloat(r) || Mantissa(Abs(r)).Floor as real != Mantissa(Abs(r))
  }

  /**
   * num(v): a value whose str() holds a '.' is read by float(), any other by
   * int(), and a failure of either gives the int 1. A JSON int is kept; a JSON
   * float is kept when its str() holds a '.' and truncated by int() otherwise.
   * Text is read as int() and float() read it, ignoring surrounding white space.
   */
  function NumOf(v: Raw): Num
  {
    match v
    case RawInt(i) => IntV(i)
    case RawFloat(r) => if StrHasDot(r) then FloatV(r) else IntV(Trunc(r))
    case RawText(s) =>
      if '.' in s then
        match ParseDecimal(Strip(s))
        case Some(x) => FloatV(x)
        case None => IntV(1)
      else
        match ParseInt(Strip(s))
        case Some(n) => IntV(n)
        case None => IntV(1)
  }

  /**
   * Text with a '.' becomes the float float() reads from it, or 1 when float()
   * rejects it; text without one becomes the int int() reads from it, or 1.
   */
  lemma NumOfText(s: string)
    ensures NumOf(RawText(s)).FloatV? <==> '.' in s && ParseDecimal(Strip(s)).Some?
    ensures '.' in s ==> NumOf(RawText(s)) == (if ParseDecimal(Strip(s)).Some? then FloatV(ParseDecimal(Strip(s)).value) else IntV(1))
    ensures '.' !in s ==> NumOf(RawText(s)) == IntV(if ParseInt(Strip(s)).Some? then ParseInt(Strip(s)).value else 1)
    ensures ParseInt(Strip(s)).None? && ParseDecimal(Strip(s)).None? ==> NumOf(RawText(s)) == IntV(1)
  {
  }

  /** The fallback to 1: "abc", "1.2.3", and "1e5" (no '.', so int() is tried and fails); " 7 " is read as 7 */
  lemma NumOfFallbackExamples()
    ensures NumOf(RawText("abc")) == IntV(1)
    ensures NumOf(RawText("1.2.3")) == IntV(1)
    ensures NumOf(RawText("1e5")) == IntV(1)
    ensures NumOf(RawText(" 7 ")) == IntV(7)
  {
    NumOfLetters();
    NumOfTwoDots();
    NumOfExponentText();
    NumOfPadded();
  }

  lemma NumOfLetters()
    ensures NumOf(RawText("abc")) == IntV(1)
  {
    StripKept("abc");
    assert ParseInt("abc").None? by { assert !IsDigit("abc"[0]); }
  }

  lemma NumOfTwoDots()
    ensures NumOf(RawText("1.2.3")) == IntV(1)
  {
    StripKept("1.2.3");
    assert IndexOf("1.2.3", '.') == 1;
    assert "1.2.3"[2..] == "2.3" && !IsDigit("2.3"[1]);
  }

  lemma NumOfExponentText()
    ensures NumOf(RawText("1e5")) == IntV(1)
  {
    StripKept("1e5");
    assert ParseInt("1e5").None? by { assert !IsDigit("1e5"[1]); }
  }

  lemma NumOfPadded()
    ensures NumOf(RawText(" 7 ")) == IntV(7)
  {
    assert TrimStart(" 7 ") == "7 " by { assert " 7 "[1..] == "7 "; }
    assert TrimEnd("7 ") == "7" by { assert "7 "[..1] == "7"; }
    assert DigitsValue("7") == 7 by { assert "7"[..0] == []; }
  }

  /** An int written as text resolves to that int; a tenths value written by "%.1f" to that float */
  lemma NumOfRoundTrip(n: int, t: int)
    ensures NumOf(RawText(IntText(n))) == IntV(n)
    ensures NumOf(RawText(TenthsText(t))) == FloatV(t as real / 10.0)
  {
    IntTextRoundTrip(n);
    IntTextStripped(n);
    TenthsTextRoundTrip(t);
    TenthsTextStripped(t);
  }

  /** The JSON form a resolved number is written back as */
  function ToRaw(n: Num): Raw
  {
    match n
    case IntV(i) => RawInt(i)
    case FloatV(r) => RawFloat(r)
  }

  /**
   * Resolving numeric values: an int and a positionally written float come
   * back unchanged, and a float in exponent form becomes int() of it.
   */
  lemma NumOfNumeric(v: Values)
    ensures forall k :: k in v && v[k].RawInt? ==> ToRaw(NumOf(v[k])) == v[k]
    ensures forall k :: k in v && v[k].RawFloat? && StrHasDot(v[k].r) ==> ToRaw(NumOf(v[k])) == v[k]
    ensures forall k :: k in v && v[k].RawFloat? && !StrHasDot(v[k].r) ==> NumOf(v[k]) == IntV(Trunc(v[k].r))
  {
  }

  /**
   * The floats Python writes in exponent form: 1e-05 and -1e-05 resolve to the
   * int 0 and 1e+16 and -3e+16 to ints of the same value, while 1.5e-05 and
   * 2.5e+16 hold a '.' and stay floats; 0.0001 is positional and stays a float.
   */
  lemma NumOfExponentFloats()
    ensures NumOf(RawFloat(0.00001)) == IntV(0)
    ensures NumOf(RawFloat(-0.00001)) == IntV(0)
    ensures NumOf(RawFloat(0.000015)) == FloatV(0.000015)
    ensures NumOf(RawFloat(10000000000000000.0)) == IntV(10000000000000000)
    ensures NumOf(RawFloat(-30000000000000000.0)) == IntV(-30000000000000000)
    ensures NumOf(RawFloat(25000000000000000.0)) == FloatV(25000000000000000.0)
    ensures NumOf(RawFloat(0.0001)) == FloatV(0.0001)
  {
    assert ScaleUp(0.00001) == 1.0;
    assert ScaleUp(0.000015) == 1.5;
    assert Tens(4) == 10000.0;
    TensAdd(4, 4);
    TensAdd(8, 8);
    ScaleDownTens(1.0, 16);
    ScaleDownTens(3.0, 16);
    ScaleDownTens(2.5, 16);
  }

  /** 10^k as a real */
  function Tens(k: nat): (t: real)
    ensures t >= 1.0
  {
    if k == 0 then 1.0 else 10.0 * Tens(k - 1)
  }

  lemma {:induction false} TensAdd(j: nat, k: nat)
    ensures Tens(j + k) == Tens(j) * Tens(k)
  {
    if j > 0 {
      TensAdd(j - 1, k);
      assert Tens(j + k) == 10.0 * Tens(j - 1 + k);
    }
  }

  /** The mantissa of m * 10^k is m itself, for m in [1, 10) */
  lemma {:induction false} ScaleDownTens(m: real, k: nat)
    requires 1.0 <= m < 10.0
    ensures ScaleDown(m * Tens(k)) == m
  {
    if k > 0 {
      ScaleDownTens(m, k - 1);
      var p := Tens(k - 1);
      assert m * Tens(k) == 10.0 * (m * p);
      assert m * p >= 1.0;
      assert m * Tens(k) / 10.0 == m * p;
    }
  }

  /** A positive x whose mantissa is whole is itself whole from 1 up */
  lemma {:induction false} ScaleDownWhole(x: real)
    requires x >= 1.0 && ScaleDown(x).Floor as real == ScaleDown(x)
    ensures x.Floor as real == x
  {
    if x >= 10.0 {
      ScaleDownWhole(x / 10.0);
      var k := (x / 10.0).Floor;
      assert x == (10 * k) as real;
    }
  }

  /**
   * num keeps the value of every float except one below 1e-4 in magnitude
   * whose str() has no '.', which int() truncates to 0; a float from 1e16 up
   * written without '.' is whole, so int() keeps its value.
   */
  lemma NumOfFloatValue(r: real)
    ensures ToReal(NumOf(RawFloat(r))) == r || (0.0 < Abs(r) < 0.0001 && NumOf(RawFloat(r)) == IntV(0))
  {
    if !StrHasDot(r) && Abs(r) >= 1.0 {
      ScaleDownWhole(Abs(r));
    }
  }

  /**
   * A range whose floats num() resolves within it: it holds 0 or excludes every
   * magnitude below 1e-4.
   */
  predicate FaithfulRange(lo: real, hi: real)
  {
    lo <= 0.0 <= hi || 0.0001 <= lo || hi <= -0.0001
  }

  lemma FloatResolvesInRange(r: real, lo: real, hi: real)
    requires lo <= r <= hi && FaithfulRange(lo, hi)
    ensures lo <= ToReal(NumOf(RawFloat(r))) <= hi
    ensures ToReal(NumOf(RawFloat(r))) == r || NumOf(RawFloat(r)) == IntV(0)
  {
    NumOfFloatValue(r);
  }

  /** The first of keys that v lacks, in order */
  function FirstMissing(v: Values, keys: seq<string>): Option<string>
  {
    if keys == [] then None
    else if keys[0] !in v then Some(keys[0])
    else FirstMissing(v, keys[1..])
  }

  /** FirstMissing finds nothing exactly when every key is present, and otherwise the earliest absent one */
  lemma {:induction false} FirstMissingIsFirst(v: Values, keys: seq<string>)
    ensures FirstMissing(v, keys).None? <==> forall k :: k in keys ==> k in v
    ensures FirstMissing(v, keys).Some? ==>
              exists i :: 0 <= i < |keys| && keys[i] == FirstMissing(v, keys).value && keys[i] !in v
                          && forall j :: 0 <= j < i ==> keys[j] in v
  {
    if keys != [] && keys[0] in v {
      var rest := keys[1..];
      FirstMissingIsFirst(v, rest);
      forall i | 0 < i < |keys| ensures keys[i] == rest[i - 1] { }
      assert forall k :: k in keys ==> k == keys[0] || k in rest;
      if FirstMissing(v, rest).Some? {
        var i :| 0 <= i < |rest| && rest[i] == FirstMissing(v, rest).value && rest[i] !in v
                 && forall j :: 0 <= j < i ==> rest[j] in v;
        assert keys[i + 1] == rest[i];
      }
    }
  }

  /** Reading keys a then keys b fails at a's first missing key, or else at b's */
  lemma {:induction false} FirstMissingAppend(v: Values, a: seq<string>, b: seq<string>)
    ensures FirstMissing(v, a + b) == if FirstMissing(v, a).Some? then FirstMissing(v, a) else FirstMissing(v, b)
  {
    if a != [] {
      assert (a + b)[0] == a[0];
      assert (a + b)[1..] == a[1..] + b;
      FirstMissingAppend(v, a[1..], b);
    } else {
      assert a + b == b;
    }
  }

  /** The value of a present key, as a real */
  function Real(v: Values, key: string): real
    requires key in v
  {
    ToReal(NumOf(v[key]))
  }

  /** Whether range() accepts the resolved value of a present key */
  predicate IsCount(v: Values, key: string)
    requires key in v
  {
    NumOf(v[key]).IntV?
  }

  /** The resolved value of a present key that range() accepts */
  function CountOf(v: Values, key: string): int
    requires key in v && IsCount(v, key)
  {
    NumOf(v[key]).i
  }

  /** len(range(n)): how many times a loop over range(n) runs */
  function Count(n: int): nat
  {
    if n > 0 then n else 0
  }

  /** The KeyError raised by reading keys in order from v, if any */
  function Need(v: Values, keys: seq<string>): Option<BuildError>
  {
    match FirstMissing(v, keys)
    case Some(k) => Some(MissingKey(k))
    case None => None
  }

  /** Reading keys raises nothing exactly when all are present, and otherwise names one of them that is absent */
  lemma NeedSpec(v: Values, keys: seq<string>)
    ensures Need(v, keys).None? <==> forall k :: k in keys ==> k in v
    ensures Need(v, keys).Some? ==>
              Need(v, keys).value.MissingKey? && Need(v, keys).value.key in keys && Need(v, keys).value.key !in v
  {
    FirstMissingIsFirst(v, keys);
  }

  /** num(v[k]) for each of keys, in order */
  function ReadAll(v: Values, keys: seq<string>): (r: seq<Num>)
    requires forall k :: k in keys ==> k in v
    ensures |r| == |keys|
    ensures forall i :: 0 <= i < |keys| ==> r[i] == NumOf(v[keys[i]])
  {
    if keys == [] then [] else [NumOf(v[keys[0]])] + ReadAll(v, keys[1..])
  }

  /** What range(num(v[key])) raises before its first iteration: the KeyError, or the TypeError of a float */
  function CountNeed(v: Values, key: string): (r: Option<BuildError>)
    ensures r.None? <==> key in v && IsCount(v, key)
    ensures r == Some(MissingKey(key)) <==> key !in v
    ensures r == Some(NotAnInteger(key)) <==> key in v && NumOf(v[key]).FloatV?
  {
    if key !in v then Some(MissingKey(key))
    else if !IsCount(v, key) then Some(NotAnInteger(key))
    else None
  }
}
