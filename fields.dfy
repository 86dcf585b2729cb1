/**
 * The parameter schema of ui_app.py: for each component of the sidebar, the
 * fields its form shows, each with a label, the config key, the type its text
 * must parse as, a default, and an inclusive range.
 */
module Fields {
  import opened Outcomes
  import opened NumText
  import opened Resolve

  /** The dtype column: "int", "float", or any other name, which validation lets through */
  datatype DType = IntT | FloatT | OtherT(name: string)

  /** One row of FIELDS: (label, key, dtype, default, min, max), the label kept as caption */
  datatype Field = Field(caption: string, key: string, dtype: DType, default: Num, lo: real, hi: real)

  const GeneratorName := "⚡ Generator"
  const TurbineName := "🌪 Turbine"
  const IntakeName := "🌊 Intake Structure"

  const GeneratorFields := [
    Field("Stator Radius", "stator_radius", FloatT, FloatV(5.0), 0.1, 20.0),
    Field("Stator Height", "stator_height", FloatT, FloatV(3.0), 0.1, 10.0),
    Field("Rotor Radius", "rotor_radius", FloatT, FloatV(3.0), 0.1, 15.0),
    Field("Rotor Height", "rotor_height", FloatT, FloatV(2.0), 0.1, 8.0),
    Field("Shaft Radius", "shaft_radius", FloatT, FloatV(0.5), 0.1, 3.0),
    Field("Shaft Height", "shaft_height", FloatT, FloatV(8.0), 1.0, 20.0),
    Field("Base Radius", "base_radius", FloatT, FloatV(7.0), 1.0, 15.0),
    Field("Base Height", "base_height", FloatT, FloatV(1.0), 0.1, 5.0)]

  const TurbineFields := [
    Field("Spiral Major Radius", "spiral_major_radius", FloatT, FloatV(4.0), 1.0, 10.0),
    Field("Spiral Minor Radius", "spiral_minor_radius", FloatT, FloatV(0.8), 0.1, 3.0),
    Field("Stay Vane Count", "stay_vane_count", IntT, IntV(12), 4.0, 24.0),
    Field("Guide Vane Count", "guide_vane_count", IntT, IntV(16), 8.0, 32.0),
    Field("Runner Radius", "runner_radius", FloatT, FloatV(1.5), 0.5, 5.0),
    Field("Runner Depth", "runner_depth", FloatT, FloatV(1.0), 0.2, 3.0),
    Field("Blade Count", "blade_count", IntT, IntV(6), 3.0, 12.0),
    Field("Blade Radius", "blade_radius", FloatT, FloatV(0.3), 0.1, 1.0),
    Field("Blade Depth", "blade_depth", FloatT, FloatV(0.4), 0.1, 2.0),
    Field("Shaft Radius", "shaft_radius", FloatT, FloatV(0.4), 0.1, 2.0),
    Field("Shaft Height", "shaft_height", FloatT, FloatV(6.0), 2.0, 15.0),
    Field("Draft Tube Radius1", "draft_radius1", FloatT, FloatV(1.2), 0.5, 3.0),
    Field("Draft Tube Radius2", "draft_radius2", FloatT, FloatV(2.0), 0.5, 5.0),
    Field("Draft Tube Depth", "draft_depth", FloatT, FloatV(3.0), 1.0, 8.0)]

  const IntakeFields := [
    Field("Bay Count", "bay_count", IntT, IntV(3), 1.0, 10.0),
    Field("Bay Width", "bay_width", FloatT, FloatV(4.0), 2.0, 10.0),
    Field("Pier Thickness", "pier_thick", FloatT, FloatV(1.0), 0.5, 3.0),
    Field("Intake Height", "intake_height", FloatT, FloatV(8.0), 4.0, 20.0),
    Field("Sill Elevation", "sill_elev", FloatT, FloatV(2.0), 1.0, 6.0),
    Field("Deck Elevation", "deck_elev", FloatT, FloatV(10.0), 6.0, 20.0),
    Field("Face Thickness", "face_thick", FloatT, FloatV(0.5), 0.2, 2.0),
    Field("Trash Bar Thickness", "trash_bar_thick", FloatT, FloatV(0.1), 0.05, 0.3),
    Field("Trash Bar Gap", "trash_bar_gap", FloatT, FloatV(0.15), 0.05, 0.4),
    Field("Trash Bar Rows", "trash_bar_rows", IntT, IntV(4), 1.0, 8.0),
    Field("Gate Thickness", "gate_thick", FloatT, FloatV(0.3), 0.1, 1.0),
    Field("Gate Clearance Top", "gate_clear_top", FloatT, FloatV(2.0), 0.5, 5.0),
    Field("Tunnel Diameter", "tunnel_diam", FloatT, FloatV(2.5), 1.0, 6.0),
    Field("Tunnel Length", "tunnel_len", FloatT, FloatV(10.0), 5.0, 30.0),
    Field("Floor Elevation", "floor_elev", FloatT, FloatV(0.0), -2.0, 2.0),
    Field("Upstream Water Elevation", "water_elev_up", FloatT, FloatV(7.0), 3.0, 15.0),
    Field("Side Wall Extra", "side_wall_extra", FloatT, FloatV(1.0), 0.5, 3.0),
    Field("Structure Depth", "struct_depth", FloatT, FloatV(6.0), 3.0, 12.0),
    Field("Crane Gauge", "crane_gauge", FloatT, FloatV(2.0), 1.0, 4.0),
    Field("Crane Span XPad", "crane_span_xpad", FloatT, FloatV(1.0), 0.5, 3.0)]

  /** FIELDS: the sidebar components and their fields */
  const FIELDS: map<string, seq<Field>> :=
    map[GeneratorName := GeneratorFields, TurbineName := TurbineFields, IntakeName := IntakeFields]

  /** The keys of a list of fields, in order */
  function KeysOf(fs: seq<Field>): (r: seq<string>)
    ensures |r| == |fs| && forall i :: 0 <= i < |fs| ==> r[i] == fs[i].key
  {
    if fs == [] then [] else [fs[0].key] + KeysOf(fs[1..])
  }

  /** x has at most two decimals */
  predicate TwoDecimals(x: real)
  {
    (x * 100.0).Floor as real == x * 100.0
  }

  predicate Integral(x: real)
  {
    x.Floor as real == x
  }

  /** str() of a float with at most two decimals: one decimal when one suffices (5.0), else two (0.15) */
  function FloatText(x: real): string
  {
    if Integral(x * 10.0) then TenthsText((x * 10.0).Floor) else HundredthsText((x * 100.0).Floor)
  }

  /** str(default), the text a field's entry starts with */
  function Str(n: Num): string
  {
    match n
    case IntV(i) => IntText(i)
    case FloatV(x) => FloatText(x)
  }

  /** What str() writes for a float with at most two decimals, float() reads back as the same number */
  lemma FloatTextRoundTrip(x: real)
    requires TwoDecimals(x)
    ensures ParseDecimal(FloatText(x)) == Some(x) && '.' in FloatText(x)
  {
    if Integral(x * 10.0) {
      var t := (x * 10.0).Floor;
      TenthsTextRoundTrip(t);
      assert t as real / 10.0 == x;
    } else {
      var t := (x * 100.0).Floor;
      HundredthsTextRoundTrip(t);
      assert t as real / 100.0 == x;
    }
  }

  /** What str() writes for an int or a float with at most two decimals reads back as the same number */
  lemma StrRoundTrip(n: Num)
    requires n.FloatV? ==> TwoDecimals(n.r)
    ensures n.IntV? ==> ParseInt(Str(n)) == Some(n.i) && '.' !in Str(n)
    ensures n.FloatV? ==> ParseDecimal(Str(n)) == Some(n.r) && '.' in Str(n)
  {
    match n
    case IntV(i) => IntTextRoundTrip(i);
    case FloatV(x) => FloatTextRoundTrip(x);
  }

  /**
   * What the schema promises of a field: its default lies in its range, an int
   * field has an int default and whole bounds, a float field a float default
   * with at most two decimals.
   */
  ghost predicate FieldOk(f: Field)
  {
    && f.lo <= ToReal(f.default) <= f.hi
    && (f.dtype == IntT ==> f.default.IntV? && Integral(f.lo) && Integral(f.hi))
    && (f.dtype == FloatT ==> f.default.FloatV? && TwoDecimals(f.default.r))
    && !f.dtype.OtherT?
    && FaithfulRange(f.lo, f.hi)
  }

  /** No two fields share a key */
  ghost predicate UniqueKeys(fs: seq<Field>)
  {
    forall i, j :: 0 <= i < j < |fs| ==> fs[i].key != fs[j].key
  }

  /** Every field of a component is well formed and no two share a key */
  ghost predicate SchemaOk(fs: seq<Field>)
  {
    && (forall i :: 0 <= i < |fs| ==> FieldOk(fs[i]))
    && UniqueKeys(fs)
  }

  /** Two key-unique lists with no key in common make a key-unique list */
  lemma UniqueKeysAppend(a: seq<Field>, b: seq<Field>)
    requires UniqueKeys(a) && UniqueKeys(b)
    requires forall i, j :: 0 <= i < |a| && 0 <= j < |b| ==> a[i].key != b[j].key
    ensures UniqueKeys(a + b)
  {
    var ab := a + b;
    forall i, j | 0 <= i < j < |ab|
      ensures ab[i].key != ab[j].key
    {
      if j < |a| {
      } else if i >= |a| {
        assert ab[i] == b[i - |a|] && ab[j] == b[j - |a|];
      } else {
        assert ab[j] == b[j - |a|];
      }
    }
  }

  lemma GeneratorFieldsOk()
    ensures forall i :: 0 <= i < |GeneratorFields| ==> FieldOk(GeneratorFields[i])
  {
  }

  lemma GeneratorKeysUnique()
    ensures UniqueKeys(GeneratorFields)
  {
  }

  lemma TurbineFieldsOk()
    ensures forall i :: 0 <= i < |TurbineFields| ==> FieldOk(TurbineFields[i])
  {
  }

  lemma TurbineKeysUnique()
    ensures UniqueKeys(TurbineFields)
  {
    var a, b := TurbineFields[..7], TurbineFields[7..];
    assert UniqueKeys(a);
    assert UniqueKeys(b);
    assert forall i, j :: 0 <= i < |a| && 0 <= j < |b| ==> a[i].key != b[j].key;
    UniqueKeysAppend(a, b);
    assert a + b == TurbineFields;
  }

  lemma IntakeFieldsOk()
    ensures forall i :: 0 <= i < |IntakeFields| ==> FieldOk(IntakeFields[i])
  {
  }

  lemma IntakeKeysUnique()
    ensures UniqueKeys(IntakeFields)
  {
    var a, b := IntakeFields[..10], IntakeFields[10..];
    IntakeHalvesUnique(a, b);
    IntakeKeysApart(a, b);
    UniqueKeysAppend(a, b);
    assert a + b == IntakeFields;
  }

  lemma IntakeHalvesUnique(a: seq<Field>, b: seq<Field>)
    requires a == IntakeFields[..10] && b == IntakeFields[10..]
    ensures UniqueKeys(a) && UniqueKeys(b)
  {
  }

  lemma IntakeKeysApart(a: seq<Field>, b: seq<Field>)
    requires a == IntakeFields[..10] && b == IntakeFields[10..]
    ensures forall i, j :: 0 <= i < |a| && 0 <= j < |b| ==> a[i].key != b[j].key
  {
  }

  /** Every component of FIELDS has a well-formed schema */
  lemma FieldsSchema(comp: string)
    requires comp in FIELDS
    ensures SchemaOk(FIELDS[comp])
  {
    GeneratorFieldsOk();
    GeneratorKeysUnique();
    TurbineFieldsOk();
    TurbineKeysUnique();
    IntakeFieldsOk();
    IntakeKeysUnique();
  }
}
