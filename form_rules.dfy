/**
 * The rules the parameter form of ui_app.py applies to the text of its
 * entries: validation against a field's type and range, the up/down step of
 * the spin buttons, the conversion that builds the config's "values", and the
 * form that show_component lays out from FIELDS.
 *
 * Numbers are exact reals: the step of 0.1 and the "%.1f" rendering are exact,
 * with ties rounded up.
 */
module FormRules {
  import opened Outcomes
  import opened NumText
  import opened Resolve
  import opened Fields

  /** The bootstyle of an entry: green after a passed check, red after a failed one */
  datatype Style = SuccessStyle | DangerStyle

  /** An entry widget: the text it holds and its style */
  datatype Entry = Entry(text: string, style: Style)

  /** validate_field's verdict on a text: it parses as the field's type and lies in its range; other types pass */
  predicate Accepts(f: Field, text: string)
  {
    match f.dtype
    case IntT =>
      (match ParseInt(Strip(text))
       case None => false
       case Some(i) => f.lo <= i as real <= f.hi)
    case FloatT =>
      (match ParseDecimal(Strip(text))
       case None => false
       case Some(x) => f.lo <= x <= f.hi)
    case OtherT(_) => true
  }

  /** The entry after validate_field: restyled by the verdict, untouched for other types */
  function Restyle(f: Field, e: Entry): (r: Entry)
    ensures r.text == e.text
    ensures f.dtype.OtherT? ==> r == e
    ensures !f.dtype.OtherT? ==> (r.style == SuccessStyle <==> Accepts(f, e.text))
  {
    if f.dtype.OtherT? then e
    else e.(style := if Accepts(f, e.text) then SuccessStyle else DangerStyle)
  }

  /** The entries after validate_field has run on each key of ks in turn */
  function RestyleKeys(ks: seq<string>, entries: map<string, Entry>, specs: map<string, Field>): map<string, Entry>
  {
    if ks == [] then entries
    else
      var m, k := RestyleKeys(ks[..|ks| - 1], entries, specs), ks[|ks| - 1];
      if k in m && k in specs then m[k := Restyle(specs[k], m[k])] else m
  }

  /** Every key of ks that has an entry and validation data is accepted */
  predicate AllAccepted(ks: seq<string>, entries: map<string, Entry>, specs: map<string, Field>)
  {
    ks == [] ||
    var k := ks[|ks| - 1];
    AllAccepted(ks[..|ks| - 1], entries, specs) && (k in entries && k in specs ==> Accepts(specs[k], entries[k].text))
  }

  /** Restyling twice by the same field is restyling once */
  lemma RestyleTwice(f: Field, e: Entry)
    ensures Restyle(f, Restyle(f, e)) == Restyle(f, e)
  {
  }

  /** Validating the keys of ks one by one restyles exactly those entries, each once */
  lemma {:induction false} RestyleKeysEach(ks: seq<string>, entries: map<string, Entry>, specs: map<string, Field>)
    ensures RestyleKeys(ks, entries, specs).Keys == entries.Keys
    ensures forall k :: k in entries ==>
      RestyleKeys(ks, entries, specs)[k] == if k in ks && k in specs then Restyle(specs[k], entries[k]) else entries[k]
  {
    if ks != [] {
      var init, last := ks[..|ks| - 1], ks[|ks| - 1];
      RestyleKeysEach(init, entries, specs);
      assert forall k :: k in ks <==> k in init || k == last;
      if last in entries && last in specs {
        RestyleTwice(specs[last], entries[last]);
      }
    }
  }

  /** AllAccepted says, key by key, that each entry of ks is accepted */
  lemma {:induction false} AllAcceptedEach(ks: seq<string>, entries: map<string, Entry>, specs: map<string, Field>)
    ensures AllAccepted(ks, entries, specs) <==>
      forall k :: k in ks && k in entries && k in specs ==> Accepts(specs[k], entries[k].text)
  {
    if ks != [] {
      AllAcceptedEach(ks[..|ks| - 1], entries, specs);
      assert forall k :: k in ks <==> k in ks[..|ks| - 1] || k == ks[|ks| - 1];
    }
  }

  /** One more validate_field call: the next key's entry, still with its old text, is restyled, and its verdict joins the others */
  lemma RestyleStep(ks: seq<string>, i: nat, entries: map<string, Entry>, specs: map<string, Field>)
    requires i < |ks| && ks[i] in entries && ks[i] in specs
    ensures var m, k := RestyleKeys(ks[..i], entries, specs), ks[i];
      && k in m && m[k].text == entries[k].text
      && RestyleKeys(ks[..i + 1], entries, specs) == m[k := Restyle(specs[k], m[k])]
      && (AllAccepted(ks[..i + 1], entries, specs) <==> AllAccepted(ks[..i], entries, specs) && Accepts(specs[k], m[k].text))
  {
    assert ks[..i + 1][..i] == ks[..i];
    RestyleKeysEach(ks[..i], entries, specs);
  }

  /** Validating every key of a consistent form restyles every entry, and the form is valid exactly when each entry is accepted */
  lemma RestyleKeysAll(keys: seq<string>, entries: map<string, Entry>, specs: map<string, Field>)
    requires FormOk(keys, entries, specs)
    ensures RestyleKeys(keys, entries, specs) == RestyleAll(entries, specs)
    ensures AllAccepted(keys, entries, specs) <==> forall k :: k in keys ==> Accepts(specs[k], entries[k].text)
  {
    RestyleKeysEach(keys, entries, specs);
    AllAcceptedEach(keys, entries, specs);
  }

  /** Every entry restyled by its field, as validate_all_fields leaves them */
  function RestyleAll(entries: map<string, Entry>, specs: map<string, Field>): (r: map<string, Entry>)
    ensures r.Keys == entries.Keys
  {
    map k | k in entries :: if k in specs then Restyle(specs[k], entries[k]) else entries[k]
  }

  /** new_value < min_val gives min_val, new_value > max_val gives max_val */
  function Clamp(x: real, lo: real, hi: real): real
  {
    if x < lo then lo else if x > hi then hi else x
  }

  /**
   * The value one press of a spin button moves a text to, before it is kept
   * inside the range: the stripped text read as the field's type (empty text
   * counts as 0), plus direction steps of 1 for an int field and 0.1 otherwise.
   * None when the text does not parse.
   */
  function Moved(f: Field, text: string, direction: int): Option<real>
  {
    var v := Strip(text);
    if f.dtype == IntT then
      if v == [] then Some(direction as real)
      else match ParseInt(v)
        case None => None
        case Some(i) => Some((i + direction) as real)
    else
      if v == [] then Some(direction as real * 0.1)
      else match ParseDecimal(v)
        case None => None
        case Some(x) => Some(x + direction as real * 0.1)
  }

  /** The moved value kept inside the range */
  function StepOf(f: Field, text: string, direction: int): Option<real>
  {
    match Moved(f, text, direction)
    case None => None
    case Some(x) => Some(Clamp(x, f.lo, f.hi))
  }

  /** The text a spin button writes: str(int(x)) for an int field, "%.1f" otherwise */
  function Render(f: Field, x: real): string
  {
    if f.dtype == IntT then IntText(Trunc(x)) else TenthsText(RoundTenths(x))
  }

  /** The middle of the range, written when the text does not parse */
  function Midpoint(f: Field): real
  {
    (f.lo + f.hi) / 2.0
  }

  /** The entry after one press of a spin button */
  function Stepped(f: Field, e: Entry, direction: int): Entry
  {
    match StepOf(f, e.text, direction)
    case Some(x) => Restyle(f, e.(text := Render(f, x)))
    case None => e.(text := Render(f, Midpoint(f)))
  }

  /**
   * A number as the config holds it: an int stays an int, a float a float.
   * num gives it back unchanged unless it is a float whose str() has no '.',
   * which num truncates.
   */
  function RawOf(n: Num): (r: Raw)
    ensures r.RawInt? <==> n.IntV?
    ensures n.IntV? || StrHasDot(n.r) ==> NumOf(r) == n
    ensures n.FloatV? && !StrHasDot(n.r) ==> NumOf(r) == IntV(Trunc(n.r))
  {
    match n
    case IntV(i) => RawInt(i)
    case FloatV(x) => RawFloat(x)
  }

  /** The value generate_model stores for an entry: the parsed text, or the default when parsing fails; none for other types */
  function Convert(f: Field, text: string): Option<Raw>
  {
    match f.dtype
    case IntT =>
      (match ParseInt(Strip(text))
       case Some(i) => Some(RawInt(i))
       case None => Some(RawOf(f.default)))
    case FloatT =>
      (match ParseDecimal(Strip(text))
       case Some(x) => Some(RawFloat(x))
       case None => Some(RawOf(f.default)))
    case OtherT(_) => None
  }

  /** The "values" of the config: one converted value per entry whose field has a known type */
  function ValuesOf(entries: map<string, Entry>, specs: map<string, Field>): (r: Values)
    ensures forall k :: k in r <==> k in entries && k in specs && !specs[k].dtype.OtherT?
  {
    map k | k in entries && k in specs && Convert(specs[k], entries[k].text).Some? :: Convert(specs[k], entries[k].text).value
  }

  /** The values collected from the entries of ks, in order, each key converted as generate_model does */
  function Collected(ks: seq<string>, entries: map<string, Entry>, specs: map<string, Field>): Values
    requires forall k :: k in ks ==> k in entries && k in specs
  {
    if ks == [] then map[]
    else
      var k := ks[|ks| - 1];
      var rest := Collected(ks[..|ks| - 1], entries, specs);
      match Convert(specs[k], entries[k].text)
      case Some(v) => rest[k := v]
      case None => rest
  }

  /** Collecting over ks stores a value for exactly the keys of ks with a known type, each converted from its own entry */
  lemma {:induction false} CollectedEach(ks: seq<string>, entries: map<string, Entry>, specs: map<string, Field>)
    requires forall k :: k in ks ==> k in entries && k in specs
    ensures forall k :: k in Collected(ks, entries, specs) <==> k in ks && !specs[k].dtype.OtherT?
    ensures forall k :: k in Collected(ks, entries, specs) ==>
      Collected(ks, entries, specs)[k] == Convert(specs[k], entries[k].text).value
  {
    if ks != [] {
      var init := ks[..|ks| - 1];
      assert forall k :: k in init ==> k in ks;
      CollectedEach(init, entries, specs);
      assert forall k :: k in ks <==> k in init || k == ks[|ks| - 1];
    }
  }

  /** Collecting over the keys of a consistent form gives exactly the values of its entries */
  lemma CollectedAll(ks: seq<string>, entries: map<string, Entry>, specs: map<string, Field>)
    requires FormOk(ks, entries, specs)
    ensures Collected(ks, entries, specs) == ValuesOf(entries, specs)
  {
    CollectedEach(ks, entries, specs);
  }

  /** The keys of a dict after inserting key: a new key goes last, a present one keeps its place */
  function Insert(keys: seq<string>, key: string): (r: seq<string>)
    ensures key in r && forall k :: k in r <==> k in keys || k == key
    ensures key in keys ==> r == keys
    ensures key !in keys ==> |r| == |keys| + 1 && r[..|keys|] == keys && r[|keys|] == key
  {
    if key in keys then keys else keys + [key]
  }

  /** The key order of the entries show_component makes from fs */
  function ShownKeys(fs: seq<Field>): seq<string>
  {
    if fs == [] then [] else Insert(ShownKeys(fs[..|fs| - 1]), fs[|fs| - 1].key)
  }

  /** The entries show_component makes from fs: str(default), styled as passed */
  function ShownEntries(fs: seq<Field>): map<string, Entry>
  {
    if fs == [] then map[]
    else
      var f := fs[|fs| - 1];
      ShownEntries(fs[..|fs| - 1])[f.key := Entry(Str(f.default), SuccessStyle)]
  }

  /** The validation data show_component records from fs */
  function ShownSpecs(fs: seq<Field>): map<string, Field>
  {
    if fs == [] then map[] else ShownSpecs(fs[..|fs| - 1])[fs[|fs| - 1].key := fs[|fs| - 1]]
  }

  /** No key occurs twice */
  predicate NoDup(keys: seq<string>)
  {
    forall i, j :: 0 <= i < j < |keys| ==> keys[i] != keys[j]
  }

  /** What the form keeps consistent: its key order lists each entry once, and every entry has validation data */
  ghost predicate FormOk(keys: seq<string>, entries: map<string, Entry>, specs: map<string, Field>)
  {
    && (forall k :: k in keys <==> k in entries)
    && entries.Keys == specs.Keys
    && NoDup(keys)
  }

  /** Laying out any list of fields gives a consistent form: each key once, with its entry and its data */
  lemma {:induction false} ShownOk(fs: seq<Field>)
    ensures FormOk(ShownKeys(fs), ShownEntries(fs), ShownSpecs(fs))
  {
    if fs != [] {
      var init, last := fs[..|fs| - 1], fs[|fs| - 1];
      ShownOk(init);
      var ks := ShownKeys(init);
      if last.key !in ks {
        NoDupAppend(ks, last.key);
      }
    }
  }

  lemma NoDupAppend(ks: seq<string>, k: string)
    requires NoDup(ks) && k !in ks
    ensures NoDup(ks + [k])
  {
  }

  /** The keys of the fields before the last one do not hold the last key when keys are unique */
  lemma LastKeyNew(fs: seq<Field>)
    requires UniqueKeys(fs) && fs != []
    ensures fs[|fs| - 1].key !in KeysOf(fs[..|fs| - 1])
  {
    var n := |fs| - 1;
    var ks := KeysOf(fs[..n]);
    forall j | 0 <= j < |ks|
      ensures ks[j] != fs[n].key
    {
      assert ks[j] == fs[j].key;
    }
  }

  /** Appending a field appends its key */
  lemma {:induction false} KeysOfSnoc(a: seq<Field>, f: Field)
    ensures KeysOf(a + [f]) == KeysOf(a) + [f.key]
  {
    if a == [] {
      assert a + [f] == [f];
    } else {
      assert (a + [f])[1..] == a[1..] + [f];
      KeysOfSnoc(a[1..], f);
    }
  }

  /** With unique keys, the form lists the keys in the order of the fields */
  lemma {:induction false} ShownKeysExact(fs: seq<Field>)
    requires UniqueKeys(fs)
    ensures ShownKeys(fs) == KeysOf(fs)
  {
    if fs != [] {
      var init, last := fs[..|fs| - 1], fs[|fs| - 1];
      assert UniqueKeys(init);
      ShownKeysExact(init);
      LastKeyNew(fs);
      assert fs == init + [last];
      KeysOfSnoc(init, last);
    }
  }

  /** With unique keys, each field gets the entry str(default), styled as passed, and its own validation data */
  lemma {:induction false} ShownMapsExact(fs: seq<Field>)
    requires UniqueKeys(fs)
    ensures forall i :: 0 <= i < |fs| ==>
      && fs[i].key in ShownEntries(fs) && ShownEntries(fs)[fs[i].key] == Entry(Str(fs[i].default), SuccessStyle)
      && fs[i].key in ShownSpecs(fs) && ShownSpecs(fs)[fs[i].key] == fs[i]
  {
    if fs != [] {
      var init, last := fs[..|fs| - 1], fs[|fs| - 1];
      assert UniqueKeys(init);
      ShownMapsExact(init);
      var es, ss := ShownEntries(init), ShownSpecs(init);
      assert ShownEntries(fs) == es[last.key := Entry(Str(last.default), SuccessStyle)];
      assert ShownSpecs(fs) == ss[last.key := last];
      forall i | 0 <= i < |init|
        ensures fs[i].key in ShownEntries(fs) && ShownEntries(fs)[fs[i].key] == Entry(Str(fs[i].default), SuccessStyle)
        ensures fs[i].key in ShownSpecs(fs) && ShownSpecs(fs)[fs[i].key] == fs[i]
      {
        assert fs[i] == init[i] && fs[i].key != last.key;
      }
    }
  }

  /** str() of a float with at most two decimals is kept by strip() */
  lemma FloatTextStripped(x: real)
    ensures Strip(FloatText(x)) == FloatText(x)
  {
    if Integral(x * 10.0) {
      var t := (x * 10.0).Floor;
      assert FloatText(x) == TenthsText(t);
      TenthsTextStripped(t);
    } else {
      var t := (x * 100.0).Floor;
      assert FloatText(x) == HundredthsText(t);
      HundredthsTextStripped(t);
    }
  }

  /** str(default) is kept by strip() */
  lemma StrStripped(n: Num)
    ensures Strip(Str(n)) == Str(n)
  {
    if n.IntV? {
      IntTextStripped(n.i);
    } else {
      FloatTextStripped(n.r);
    }
  }

  /** The text a well-formed field starts with passes its own check */
  lemma DefaultAccepted(f: Field)
    requires FieldOk(f)
    ensures Accepts(f, Str(f.default))
  {
    StrStripped(f.default);
    StrRoundTrip(f.default);
  }

  /** A field the spin buttons keep valid: a non-empty range, whole bounds for an int field, and bounds that rounding to tenths does not leave */
  predicate StepReady(f: Field)
  {
    && f.lo <= f.hi
    && (f.dtype == IntT ==> Integral(f.lo) && Integral(f.hi))
    && (f.dtype != IntT ==> f.lo * 10.0 <= RoundTenths(f.lo) as real && RoundTenths(f.hi) as real <= f.hi * 10.0)
  }

  /** A step always lands inside the range */
  lemma StepInRange(f: Field, text: string, direction: int)
    requires f.lo <= f.hi
    ensures StepOf(f, text, direction).Some? ==> f.lo <= StepOf(f, text, direction).value <= f.hi
  {
  }

  /**
   * A press moves the value the text reads as (Moved with no step) by exactly
   * one step, 1 for an int field and 0.1 otherwise, and once clamped never moves
   * a value inside the range against the direction pressed.
   */
  lemma StepDirection(f: Field, text: string, direction: int)
    requires f.lo <= f.hi
    ensures Moved(f, text, direction).Some? <==> Moved(f, text, 0).Some?
    ensures Moved(f, text, 0).Some? ==>
      Moved(f, text, direction).value == Moved(f, text, 0).value + direction as real * (if f.dtype == IntT then 1.0 else 0.1)
    ensures Moved(f, text, 0).Some? && f.lo <= Moved(f, text, 0).value <= f.hi ==>
      && (direction >= 0 ==> StepOf(f, text, direction).value >= Moved(f, text, 0).value)
      && (direction <= 0 ==> StepOf(f, text, direction).value <= Moved(f, text, 0).value)
  {
  }

  /** Truncation keeps a value between whole bounds */
  lemma TruncInside(x: real, lo: real, hi: real)
    requires Integral(lo) && Integral(hi) && lo <= x <= hi
    ensures lo <= Trunc(x) as real <= hi
  {
    var n, l, h := Trunc(x), lo.Floor, hi.Floor;
    assert l as real == lo && h as real == hi;
    if x >= 0.0 {
      assert n as real <= x < n as real + 1.0;
      assert l < n + 1;
    } else {
      assert n as real - 1.0 < x <= n as real;
      assert n - 1 < h;
    }
  }

  lemma RoundTenthsMono(x: real, y: real)
    requires x <= y
    ensures RoundTenths(x) <= RoundTenths(y)
  {
  }

  lemma IntRenderAccepted(f: Field, x: real)
    requires f.dtype == IntT && Integral(f.lo) && Integral(f.hi) && f.lo <= x <= f.hi
    ensures Accepts(f, IntText(Trunc(x)))
  {
    var n := Trunc(x);
    TruncInside(x, f.lo, f.hi);
    IntParsed(n);
  }

  /** "%.1f" text of a value inside a float field's range passes its check */
  lemma TenthsAccepted(f: Field, t: int)
    requires f.dtype == FloatT && f.lo <= t as real / 10.0 <= f.hi
    ensures Accepts(f, TenthsText(t))
  {
    TenthsParsed(t);
  }

  /** float() reads the stripped "%.1f" text of t/10 as t/10 */
  lemma TenthsParsed(t: int)
    ensures ParseDecimal(Strip(TenthsText(t))) == Some(t as real / 10.0)
  {
    TenthsTextStripped(t);
    TenthsTextRoundTrip(t);
  }

  /** int() reads the stripped str() of n as n */
  lemma IntParsed(n: int)
    ensures ParseInt(Strip(IntText(n))) == Some(n)
  {
    IntTextStripped(n);
    IntTextRoundTrip(n);
  }

  lemma FloatRenderAccepted(f: Field, x: real)
    requires f.dtype == FloatT && f.lo <= x <= f.hi
    requires f.lo * 10.0 <= RoundTenths(f.lo) as real && RoundTenths(f.hi) as real <= f.hi * 10.0
    ensures Accepts(f, TenthsText(RoundTenths(x)))
  {
    var t := RoundTenths(x);
    RoundTenthsMono(f.lo, x);
    RoundTenthsMono(x, f.hi);
    assert f.lo * 10.0 <= t as real <= f.hi * 10.0;
    TenthsAccepted(f, t);
  }

  /** What a spin button writes for a value inside the range passes the field's check */
  lemma RenderAccepted(f: Field, x: real)
    requires StepReady(f) && f.lo <= x <= f.hi
    ensures Accepts(f, Render(f, x))
  {
    if f.dtype == IntT {
      IntRenderAccepted(f, x);
    } else if f.dtype == FloatT {
      FloatRenderAccepted(f, x);
    }
  }

  /** A press of a spin button leaves a text that passes the check: a step is restyled as passed, a fallback to the midpoint keeps its style */
  lemma SteppedAccepted(f: Field, e: Entry, direction: int)
    requires StepReady(f)
    ensures Accepts(f, Stepped(f, e, direction).text)
    ensures StepOf(f, e.text, direction).Some? && !f.dtype.OtherT? ==> Stepped(f, e, direction).style == SuccessStyle
    ensures StepOf(f, e.text, direction).None? ==> Stepped(f, e, direction).style == e.style
  {
    match StepOf(f, e.text, direction)
    case Some(x) =>
      StepInRange(f, e.text, direction);
      RenderAccepted(f, x);
    case None =>
      RenderAccepted(f, Midpoint(f));
  }

  /** Only an unparsable text falls back to the default: a text that passed the check is stored as the number it reads as */
  lemma ConvertAccepted(f: Field, text: string)
    requires Accepts(f, text) && !f.dtype.OtherT?
    ensures Convert(f, text).Some?
    ensures f.dtype == IntT ==> ParseInt(Strip(text)).Some? && Convert(f, text) == Some(RawInt(ParseInt(Strip(text)).value))
    ensures f.dtype == FloatT ==> ParseDecimal(Strip(text)).Some? && Convert(f, text) == Some(RawFloat(ParseDecimal(Strip(text)).value))
    ensures f.dtype == IntT ==> f.lo <= ParseInt(Strip(text)).value as real <= f.hi
    ensures f.dtype == FloatT ==> f.lo <= ParseDecimal(Strip(text)).value <= f.hi
    ensures FaithfulRange(f.lo, f.hi) ==> f.lo <= ToReal(NumOf(Convert(f, text).value)) <= f.hi
  {
    if f.dtype == FloatT && FaithfulRange(f.lo, f.hi) {
      FloatResolvesInRange(ParseDecimal(Strip(text)).value, f.lo, f.hi);
    }
  }

  lemma GeneratorStepReady()
    ensures forall i :: 0 <= i < |GeneratorFields| ==> StepReady(GeneratorFields[i])
  {
  }

  lemma TurbineStepReady()
    ensures forall i :: 0 <= i < |TurbineFields| ==> StepReady(TurbineFields[i])
  {
  }

  lemma IntakeStepReady()
    ensures forall i :: 0 <= i < |IntakeFields| ==> StepReady(IntakeFields[i])
  {
  }

  /** Every field of FIELDS is one the spin buttons keep valid */
  lemma FieldsStepReady(comp: string)
    requires comp in FIELDS
    ensures forall i :: 0 <= i < |FIELDS[comp]| ==> StepReady(FIELDS[comp][i])
  {
    GeneratorStepReady();
    TurbineStepReady();
    IntakeStepReady();
  }
}
