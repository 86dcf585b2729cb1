/**
 * The state of the HydroUI window of ui_app.py that decides what is written to
 * the config: the selected component, the export folder, and one entry per
 * field of the form with the validation data recorded beside it. Widgets,
 * tooltips, the preview drawing, the file write and the script launch are not
 * part of this model.
 */
module Ui {
  import opened Outcomes
  import opened NumText
  import opened Resolve
  import opened Fields
  import opened FormRules
  import opened Labels

  /** The config generate_model writes: the clean component name, the values and the export folder */
  datatype Config = Config(component: string, values: Values, exportFolder: string)

  /** How generate_model ends: one of its three refusals, or the config it writes */
  datatype Generated = NoComponent | NoFolder | NotValid | Written(config: Config)

  class HydroUI {
    /** current_comp: None until a component is shown */
    var current: Option<string>
    /** The text of the export folder entry */
    var exportFolder: string
    /** The keys of self.entries in the dict's order */
    var keys: seq<string>
    /** self.entries: the text and style of each entry */
    var entries: map<string, Entry>
    /** self.validation_data: dtype, range and default of each entry */
    var specs: map<string, Field>

    ghost predicate Valid()
      reads this
    {
      FormOk(keys, entries, specs)
    }

    constructor()
      ensures Valid()
      ensures current == None && exportFolder == [] && keys == [] && entries == map[] && specs == map[]
    {
      current := None;
      exportFolder := [];
      keys := [];
      entries := map[];
      specs := map[];
    }

    /** browse_export: a chosen folder replaces the entry's text; cancelling (an empty choice) keeps it */
    method BrowseExport(folder: string)
      modifies this
      ensures exportFolder == if folder == [] then old(exportFolder) else folder
      ensures current == old(current) && keys == old(keys) && entries == old(entries) && specs == old(specs)
    {
      if folder != [] {
        exportFolder := folder;
      }
    }

    /** The user types into an entry: its text is replaced, its style kept */
    method TypeText(key: string, text: string)
      requires Valid() && key in entries
      modifies this
      ensures Valid()
      ensures entries == old(entries)[key := old(entries)[key].(text := text)]
      ensures current == old(current) && exportFolder == old(exportFolder) && keys == old(keys) && specs == old(specs)
    {
      entries := entries[key := entries[key].(text := text)];
    }

    /** show_component: select comp, clear the form, and lay out one entry per field of FIELDS[comp] */
    method ShowComponent(comp: string)
      modifies this
      ensures Valid()
      ensures current == Some(comp) && exportFolder == old(exportFolder)
      ensures var fs := if comp in FIELDS then FIELDS[comp] else [];
        keys == ShownKeys(fs) && entries == ShownEntries(fs) && specs == ShownSpecs(fs)
    {
      current := Some(comp);
      var fs := if comp in FIELDS then FIELDS[comp] else [];
      LayOut(fs);
    }

    /** The loop of show_component: clear the entries and the validation data, then add each field in turn */
    method LayOut(fs: seq<Field>)
      modifies this
      ensures Valid()
      ensures current == old(current) && exportFolder == old(exportFolder)
      ensures keys == ShownKeys(fs) && entries == ShownEntries(fs) && specs == ShownSpecs(fs)
    {
      keys, entries, specs := [], map[], map[];
      var i := 0;
      while i < |fs|
        invariant 0 <= i <= |fs|
        invariant current == old(current) && exportFolder == old(exportFolder)
        invariant keys == ShownKeys(fs[..i]) && entries == ShownEntries(fs[..i]) && specs == ShownSpecs(fs[..i])
      {
        var f := fs[i];
        assert fs[..i + 1][..i] == fs[..i];
        specs := specs[f.key := f];
        keys := Insert(keys, f.key);
        entries := entries[f.key := Entry(Str(f.default), SuccessStyle)];
        i := i + 1;
      }
      assert fs[..|fs|] == fs;
      ShownOk(fs);
    }

    /** validate_field: check the stripped text against the field's type and range, and restyle the entry */
    method ValidateField(key: string) returns (ok: bool)
      requires Valid() && key in entries
      modifies this
      ensures current == old(current) && exportFolder == old(exportFolder) && keys == old(keys) && specs == old(specs)
      ensures Valid()
      ensures ok == Accepts(old(specs)[key], old(entries)[key].text)
      ensures entries == old(entries)[key := Restyle(old(specs)[key], old(entries)[key])]
    {
      var f, e := specs[key], entries[key];
      var value := Strip(e.text);
      match f.dtype {
        case IntT =>
          var parsed := ParseInt(value);
          ok := parsed.Some? && !(parsed.value as real < f.lo || parsed.value as real > f.hi);
        case FloatT =>
          var parsed := ParseDecimal(value);
          ok := parsed.Some? && !(parsed.value < f.lo || parsed.value > f.hi);
        case OtherT(_) =>
          return true;
      }
      entries := entries[key := e.(style := if ok then SuccessStyle else DangerStyle)];
      KeyKept(old(entries), key, entries[key]);
    }

    /** validate_all_fields: validate every entry, without stopping at the first failure */
    method ValidateAll() returns (valid: bool)
      requires Valid()
      modifies this
      ensures Valid()
      ensures current == old(current) && exportFolder == old(exportFolder) && keys == old(keys) && specs == old(specs)
      ensures valid <==> forall k :: k in keys ==> Accepts(specs[k], old(entries)[k].text)
      ensures entries == RestyleAll(old(entries), specs)
    {
      valid := true;
      var i := 0;
      while i < |keys|
        invariant 0 <= i <= |keys|
        invariant Valid()
        invariant current == old(current) && exportFolder == old(exportFolder) && keys == old(keys) && specs == old(specs)
        invariant entries == RestyleKeys(keys[..i], old(entries), specs)
        invariant valid == AllAccepted(keys[..i], old(entries), specs)
      {
        var key := keys[i];
        RestyleStep(keys, i, old(entries), specs);
        var ok := ValidateField(key);
        if !ok {
          valid := false;
        }
        i := i + 1;
      }
      assert keys[..i] == keys;
      RestyleKeysAll(keys, old(entries), specs);
    }

    /** increment_value: one press of a spin button on the entry of key */
    method IncrementValue(key: string, direction: int)
      requires Valid() && key in entries
      modifies this
      ensures Valid()
      ensures current == old(current) && exportFolder == old(exportFolder) && keys == old(keys) && specs == old(specs)
      ensures entries == old(entries)[key := Stepped(old(specs)[key], old(entries)[key], direction)]
    {
      var f, e := specs[key], entries[key];
      var next := StepOf(f, e.text, direction);
      var moved := e.(text := Render(f, if next.Some? then next.value else Midpoint(f)));
      entries := entries[key := moved];
      KeyKept(old(entries), key, moved);
      if next.Some? {
        var _ := ValidateField(key);
      }
    }

    /** The loop of generate_model that converts every entry into the config's values */
    method CollectValues() returns (values: Values)
      requires Valid()
      ensures values == ValuesOf(entries, specs)
    {
      values := map[];
      var i := 0;
      while i < |keys|
        invariant 0 <= i <= |keys|
        invariant values == Collected(keys[..i], entries, specs)
      {
        var k := keys[i];
        assert keys[..i + 1][..i] == keys[..i];
        var converted := Convert(specs[k], entries[k].text);
        if converted.Some? {
          values := values[k := converted.value];
        }
        i := i + 1;
      }
      assert keys[..i] == keys;
      CollectedAll(keys, entries, specs);
    }

    /** generate_model: refuse without a component, without a folder, or with an invalid entry; otherwise build the config */
    method Generate() returns (out: Generated)
      requires Valid()
      modifies this
      ensures Valid()
      ensures current == old(current) && exportFolder == old(exportFolder) && keys == old(keys) && specs == old(specs)
      ensures old(current) == None || old(current) == Some([]) ==> out == NoComponent && entries == old(entries)
      ensures old(current) != None && old(current) != Some([]) && old(exportFolder) == [] ==>
                out == NoFolder && entries == old(entries)
      ensures old(current) != None && old(current) != Some([]) && old(exportFolder) != [] ==>
                && entries == RestyleAll(old(entries), specs)
                && out == if forall k :: k in keys ==> Accepts(specs[k], old(entries)[k].text)
                          then Written(Config(CleanName(old(current).value), ValuesOf(old(entries), specs), old(exportFolder)))
                          else NotValid
    {
      if current == None || current == Some([]) {
        return NoComponent;
      }
      if exportFolder == [] {
        return NoFolder;
      }
      var valid := ValidateAll();
      if !valid {
        return NotValid;
      }
      var values := CollectValues();
      RestyleKeepsValues(old(entries), specs);
      out := Written(Config(CleanName(current.value), values, exportFolder));
    }
  }

  /** Replacing the entry of a present key keeps the set of keys */
  lemma KeyKept(entries: map<string, Entry>, key: string, e: Entry)
    requires key in entries
    ensures entries[key := e].Keys == entries.Keys
  {
  }

  /** Restyling changes no text, so the values the entries convert to are the same */
  lemma RestyleKeepsValues(entries: map<string, Entry>, specs: map<string, Field>)
    ensures ValuesOf(RestyleAll(entries, specs), specs) == ValuesOf(entries, specs)
  {
  }
}
