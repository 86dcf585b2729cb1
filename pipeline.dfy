/**
 * How the two programs meet: generate_model of ui_app.py writes the clean
 * component name and the converted entry values, and hydro_master.py picks
 * its builder from that name and reads its parameters from those values.
 */
module Pipeline {
  import opened Outcomes
  import opened Resolve
  import opened Fields
  import opened FormRules
  import opened Labels
  import opened Dispatch
  import Generator
  import Turbine
  import Intake
  import IntakeFacts

  /** The component names generate_model writes pick the generator and turbine builders; the intake name picks none */
  lemma SidebarDispatch()
    ensures BuilderFor(CleanName(GeneratorName)) == Some(GeneratorBuilder)
    ensures BuilderFor(CleanName(TurbineName)) == Some(TurbineBuilder)
    ensures BuilderFor(CleanName(IntakeName)) == None
  {
    CleanGenerator();
    CleanTurbine();
    CleanIntake();
    BuilderForStrict();
  }

  /** Every field of fs has its validation data and an entry that validate_field accepts */
  ghost predicate Validated(fs: seq<Field>, entries: map<string, Entry>, specs: map<string, Field>)
  {
    forall i :: 0 <= i < |fs| ==>
      && fs[i].key in specs && specs[fs[i].key] == fs[i]
      && fs[i].key in entries && Accepts(fs[i], entries[fs[i].key].text)
  }

  /** The form show_component lays out for a sidebar component passes validation as it stands: every default is accepted */
  lemma ShownValidated(comp: string)
    requires comp in FIELDS
    ensures Validated(FIELDS[comp], ShownEntries(FIELDS[comp]), ShownSpecs(FIELDS[comp]))
  {
    var fs := FIELDS[comp];
    FieldsSchema(comp);
    ShownMapsExact(fs);
    forall i | 0 <= i < |fs|
      ensures Accepts(fs[i], Str(fs[i].default))
    {
      DefaultAccepted(fs[i]);
    }
  }

  /** Every key of keys is the key of some field of fs */
  ghost predicate Covers(fs: seq<Field>, keys: seq<string>)
  {
    forall k :: k in keys ==> exists i :: 0 <= i < |fs| && fs[i].key == k
  }

  /**
   * The config of a validated form holds a value for every int or float field,
   * in the field's range, and an int for every int field.
   */
  lemma ValidatedValues(fs: seq<Field>, entries: map<string, Entry>, specs: map<string, Field>)
    requires Validated(fs, entries, specs)
    requires forall i :: 0 <= i < |fs| ==> FieldOk(fs[i])
    ensures forall i :: 0 <= i < |fs| && !fs[i].dtype.OtherT? ==>
      && fs[i].key in ValuesOf(entries, specs)
      && fs[i].lo <= ToReal(NumOf(ValuesOf(entries, specs)[fs[i].key])) <= fs[i].hi
      && (fs[i].dtype == IntT ==> NumOf(ValuesOf(entries, specs)[fs[i].key]).IntV?)
  {
    var v := ValuesOf(entries, specs);
    forall i | 0 <= i < |fs| && !fs[i].dtype.OtherT?
      ensures fs[i].key in v && fs[i].lo <= ToReal(NumOf(v[fs[i].key])) <= fs[i].hi
      ensures fs[i].dtype == IntT ==> NumOf(v[fs[i].key]).IntV?
    {
      var k := fs[i].key;
      ConvertAccepted(fs[i], entries[k].text);
    }
  }

  /** Every key build_generator reads is a key of the generator form */
  lemma GeneratorKeysShown()
    ensures Covers(GeneratorFields, Generator.GeneratorKeys)
  {
    var fs := GeneratorFields;
    assert Generator.GeneratorKeys == [fs[6].key, fs[7].key, fs[0].key, fs[1].key, fs[2].key, fs[3].key, fs[4].key, fs[5].key];
  }

  /** Every key build_turbine reads is a key of the turbine form, and its three counts are int fields */
  lemma TurbineKeysShown()
    ensures Covers(TurbineFields, Turbine.SpiralKeys + Turbine.RunnerKeys + Turbine.ShaftKeys + Turbine.DraftKeys + Turbine.BladeKeys)
    ensures TurbineFields[2].key == Turbine.StayCountKey && TurbineFields[2].dtype == IntT
    ensures TurbineFields[3].key == Turbine.GuideCountKey && TurbineFields[3].dtype == IntT
    ensures TurbineFields[6].key == Turbine.BladeCountKey && TurbineFields[6].dtype == IntT
  {
    var fs := TurbineFields;
    assert Turbine.SpiralKeys + Turbine.RunnerKeys + Turbine.ShaftKeys + Turbine.DraftKeys + Turbine.BladeKeys
      == [fs[0].key, fs[1].key, fs[4].key, fs[5].key, fs[9].key, fs[10].key, fs[11].key, fs[12].key, fs[13].key, fs[7].key, fs[8].key];
  }

  /** Every key build_intake_structure reads is a key of the intake form, and its two counts are int fields */
  lemma IntakeKeysShown()
    ensures Covers(IntakeFields, Intake.IntakeKeys)
    ensures IntakeFields[0].key == Intake.BayCountKey && IntakeFields[0].dtype == IntT
    ensures IntakeFields[9].key == Intake.RowsKey && IntakeFields[9].dtype == IntT
  {
    var fs, keys := IntakeFields, Intake.IntakeKeys;
    var at := [0, 1, 2, 3, 4, 5, 6, 7, 8, 9, 10, 11, 12, 13, 14, 16, 18, 19];
    forall j | 0 <= j < |keys|
      ensures 0 <= at[j] < |fs| && fs[at[j]].key == keys[j]
    {
    }
  }

  /** The keys of a validated form whose fields cover keys are all in its config */
  lemma CoveredPresent(fs: seq<Field>, keys: seq<string>, entries: map<string, Entry>, specs: map<string, Field>)
    requires Validated(fs, entries, specs) && Covers(fs, keys)
    requires forall i :: 0 <= i < |fs| ==> FieldOk(fs[i])
    ensures forall k :: k in keys ==> k in ValuesOf(entries, specs)
  {
    ValidatedValues(fs, entries, specs);
    forall k | k in keys
      ensures k in ValuesOf(entries, specs)
    {
      var i :| 0 <= i < |fs| && fs[i].key == k;
    }
  }

  /** The config of a validated form holds an int for an int field */
  lemma IntFieldCount(fs: seq<Field>, i: nat, entries: map<string, Entry>, specs: map<string, Field>)
    requires Validated(fs, entries, specs) && i < |fs| && fs[i].dtype == IntT
    ensures fs[i].key in ValuesOf(entries, specs) && IsCount(ValuesOf(entries, specs), fs[i].key)
  {
    ConvertAccepted(fs[i], entries[fs[i].key].text);
  }

  /** Generating from a validated generator form writes a config on which build_generator raises nothing */
  lemma GeneratorFormBuilds(entries: map<string, Entry>, specs: map<string, Field>)
    requires Validated(GeneratorFields, entries, specs)
    ensures DispatchError(CleanName(GeneratorName), ValuesOf(entries, specs)).None?
  {
    SidebarDispatch();
    GeneratorKeysShown();
    GeneratorFieldsOk();
    CoveredPresent(GeneratorFields, Generator.GeneratorKeys, entries, specs);
    Generator.GeneratorPlanReads(ValuesOf(entries, specs));
  }

  /** build_turbine raises nothing once every key it reads is present and its three counts are ints */
  lemma TurbineReady(v: Values)
    requires forall k :: k in Turbine.SpiralKeys + Turbine.RunnerKeys + Turbine.ShaftKeys + Turbine.DraftKeys + Turbine.BladeKeys ==> k in v
    requires Turbine.StayCountKey in v && IsCount(v, Turbine.StayCountKey)
    requires Turbine.GuideCountKey in v && IsCount(v, Turbine.GuideCountKey)
    requires Turbine.BladeCountKey in v && IsCount(v, Turbine.BladeCountKey)
    ensures Turbine.TurbinePlan(v).Success?
  {
    var all := Turbine.SpiralKeys + Turbine.RunnerKeys + Turbine.ShaftKeys + Turbine.DraftKeys + Turbine.BladeKeys;
    assert forall k :: k in Turbine.SpiralKeys + Turbine.RunnerKeys + Turbine.ShaftKeys + Turbine.DraftKeys ==> k in all;
    assert forall k :: k in Turbine.BladeKeys ==> k in all;
    Turbine.TurbineErrorCases(v);
  }

  /** A component that picks the turbine builder raises nothing when build_turbine raises nothing */
  lemma TurbineDispatched(component: string, v: Values)
    requires BuilderFor(component) == Some(TurbineBuilder) && Turbine.TurbinePlan(v).Success?
    ensures DispatchError(component, v).None?
  {
  }

  /** Generating from a validated turbine form writes a config on which build_turbine raises nothing */
  lemma TurbineFormBuilds(entries: map<string, Entry>, specs: map<string, Field>)
    requires Validated(TurbineFields, entries, specs)
    ensures DispatchError(CleanName(TurbineName), ValuesOf(entries, specs)).None?
  {
    var v := ValuesOf(entries, specs);
    SidebarDispatch();
    TurbineKeysShown();
    TurbineFieldsOk();
    CoveredPresent(TurbineFields, Turbine.SpiralKeys + Turbine.RunnerKeys + Turbine.ShaftKeys + Turbine.DraftKeys + Turbine.BladeKeys, entries, specs);
    IntFieldCount(TurbineFields, 2, entries, specs);
    IntFieldCount(TurbineFields, 3, entries, specs);
    IntFieldCount(TurbineFields, 6, entries, specs);
    TurbineReady(v);
    TurbineDispatched(CleanName(TurbineName), v);
  }

  /**
   * The config of a validated intake form would build: build_intake_structure
   * raises nothing on its values. Its component name picks no builder, so the
   * script adds nothing to the scene.
   */
  lemma IntakeFormBuildsNothing(entries: map<string, Entry>, specs: map<string, Field>, base: nat)
    requires Validated(IntakeFields, entries, specs)
    ensures Intake.IntakePlan(ValuesOf(entries, specs)).Success?
    ensures DispatchError(CleanName(IntakeName), ValuesOf(entries, specs)).None?
    ensures DispatchObjs(CleanName(IntakeName), ValuesOf(entries, specs), base) == []
    ensures DispatchAnims(CleanName(IntakeName), ValuesOf(entries, specs), base) == []
  {
    var v := ValuesOf(entries, specs);
    SidebarDispatch();
    IntakeKeysShown();
    IntakeFieldsOk();
    CoveredPresent(IntakeFields, Intake.IntakeKeys, entries, specs);
    IntFieldCount(IntakeFields, 0, entries, specs);
    IntFieldCount(IntakeFields, 9, entries, specs);
    NeedSpec(v, Intake.IntakeKeys);
    IntakeFacts.IntakeErrorCases(v);
    UnmatchedBuildsNothing(CleanName(IntakeName), v, base);
  }
}
