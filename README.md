# Hydro plant designer: a Dafny model

This project models the two Python programs of the hydropower plant designer.

`ui_app.py` is the designer's form. It has a parameter schema (`FIELDS`) for
three components: generator, turbine and intake structure. When a component
is shown, the form gets one entry per field. The spin buttons step an entry's
value and keep it in range. `validate_field` checks each entry against its
type and range. `generate_model` refuses to run without a component, without
an export folder, or with an invalid entry. Otherwise it converts the entries
into a config holding the cleaned component name, the values and the folder.

`hydro_master.py` reads that config and coerces each value with `num`. Then
it dispatches on the component string to one of three builders. Each builder
emits a sequence of primitives into the scene, with materials, parents and
cyclic keyframe clips.

Scene and builders:
- The scene is a class (`Scene.Scene`) whose object list, animation commands
  and camera are updated in place.
- The builders are methods on it that append objects and keyframes exactly as
  the Blender calls do.
- Each builder is proved against a pure plan:
  - which error it raises;
  - which objects it appends;
  - which clips it adds.
- Lemmas about those plans state the counts, positions, parent links and
  motions that the code produces.

Form:
- The form is a class (`Ui.HydroUI`) holding the selected component, the
  export-folder text, the entries with their text and style, and the
  validation data.
- Its methods are proved against pure functions in `FormRules`.

`Pipeline` connects the two programs.
- A fully validated generator or turbine form writes a config on which the
  chosen builder raises nothing.
- The intake form writes the component name `"intake_structure"`. The
  dispatcher compares against `"intake"`, so the intake builder is never
  reached from the form, although its values would build.

Modules and files:
- `outcomes.dfy`: Option, Result.
- `num_text.dfy`: the text forms of numbers, `str()`, `"%.1f"`, `int()`,
  `float()` and `strip()`.
- `resolve.dfy`: `num` and reading keys.
- `scene.dfy`: the scene.
- `generator.dfy`, `turbine.dfy`, `intake.dfy`, `intake_facts.dfy`: the
  builders.
- `dispatch.dfy`: the dispatch.
- `fields.dfy`: `FIELDS`.
- `labels.dfy`: the name cleaning and the unit rule.
- `form_rules.dfy`: the form's rules as functions.
- `ui.dfy`: the form.
- `pipeline.dfy`: the connection between the two programs.

## Model

| member | source | states |
|---|---|---|
| Resolve.NumOfText | hydro_master.py:29-36 | num on text: the result is a float exactly when the text holds a '.' and float() accepts it, and then it is the value float() reads, white space around it ignored; text with a '.' that float() rejects gives 1; text without '.' gives the value int() reads, or 1 when int() rejects it |
| Resolve.NumOfFallbackExamples | hydro_master.py:29-36 | num("abc"), num("1.2.3") and num("1e5") are all 1 (the last has no '.', so int() is tried and fails), and num(" 7 ") is 7 |
| Resolve.NumOfRoundTrip | hydro_master.py:29-36 | num of the text str() writes for an int is that int; num of "%.1f" text for t/10 is the float t/10 |
| Resolve.NumOfNumeric | hydro_master.py:29-36 | num keeps a JSON int and a JSON float whose str() holds a '.', and truncates toward zero, by int(), a float whose str() has none |
| Resolve.NumOfExponentFloats | hydro_master.py:32-34 | in exponent form 1e-05 and -1e-05 resolve to the int 0 and 1e+16 and -3e+16 to ints of the same value, while 1.5e-05 and 2.5e+16 hold a '.' and stay floats, as does the positional 0.0001 |
| Resolve.ScaleDownTens | hydro_master.py:32 | the mantissa of the exponent form of m * 10^k is m, for m in [1, 10) |
| Resolve.NumOfFloatValue | hydro_master.py:29-36 | num keeps the value of every float except one below 1e-4 in magnitude written without '.', which becomes the int 0; a float from 1e16 up written without '.' is whole, so int() keeps its value |
| Resolve.FloatResolvesInRange | hydro_master.py:29-36 | a float inside a range that holds 0 or excludes every magnitude below 1e-4 resolves, through num, to a number inside that range |
| Resolve.FirstMissingIsFirst | hydro_master.py:164-181 | reading keys in order stops at the first absent key: none absent exactly when all are present, otherwise the earliest one |
| Resolve.FirstMissingAppend | hydro_master.py:70-82 | reading two groups of keys in turn fails at the first group's missing key, else at the second's |
| Resolve.NeedSpec | hydro_master.py:164-181 | v[k] over keys raises no KeyError exactly when every key is present, and otherwise a KeyError naming an absent key |
| Resolve.ReadAll | hydro_master.py:164-181 | the values read are num(v[k]) for each key, in order |
| Resolve.CountNeed | hydro_master.py:107 | range(num(v[key])) raises KeyError exactly when the key is absent, TypeError exactly when num gives a float, and nothing exactly when it gives an int |
| Scene.Scene.constructor | hydro_master.py:10-11 | the scene after select_all and delete is empty: no objects, no keyframes, no camera |
| Scene.Scene.Add | hydro_master.py:70 | a primitive_*_add appends one new object at the end and returns its index, changing nothing else |
| Scene.Scene.SetScale | hydro_master.py:113 | obj.scale = s changes only that object's scale |
| Scene.Scene.SetRotX | hydro_master.py:224 | rotation_euler[0] = deg changes only that object's x rotation |
| Scene.Scene.SetRotZ | hydro_master.py:114 | rotation_euler[2] = deg changes only that object's z rotation |
| Scene.Scene.SetMaterial | hydro_master.py:72 | materials.append(m) gives that object the material m and changes nothing else |
| Scene.Scene.SetParent | hydro_master.py:142 | obj.parent = p changes only that object's parent |
| Scene.Scene.MoveX | hydro_master.py:233 | location[0] -= d shifts only that object's x |
| Scene.Scene.MoveZ | hydro_master.py:215 | location[2] += d shifts only that object's z |
| Scene.Scene.KeyRotation | hydro_master.py:93 | a rotation keyframe records the object's current rotation at that frame, appended after the others |
| Scene.Scene.KeyLocation | hydro_master.py:214 | a location keyframe records the object's current location at that frame |
| Scene.Scene.AddCycles | hydro_master.py:96 | the CYCLES modifier on the object's first F-curve is appended as a command for that object, changing no object |
| Scene.Scene.SetCamera | hydro_master.py:242 | scene.camera becomes the given camera object |
| Scene.AddPart | hydro_master.py:70-72 | create-then-append-material appends one object with that shape, location, rotation and material, unscaled and unparented |
| Scene.AnimateSpin | hydro_master.py:92-96 | the spin idiom turns the object a full turn about z and appends exactly its clip: key at frame 1, key at frame 100 at 360 degrees, then CYCLES on the object's first F-curve |
| Scene.AnimsOfKeeps | hydro_master.py:93-96 | the commands concerning object i are exactly those of the list that name i |
| Scene.SpinClipOf | hydro_master.py:92-96 | every command of a spin clip concerns its own object only |
| Generator.GeneratorPlanReads | hydro_master.py:69-82 | build_generator succeeds exactly when all eight keys are present; otherwise it raises KeyError for an absent one of them; each of the eight dimensions is num of its own key |
| Generator.GeneratorMissingByStage | hydro_master.py:70-82 | reading the keys cylinder by cylinder fails at the same key as reading all eight in order |
| Generator.GeneratorLayout | hydro_master.py:70-88 | five cylinders in the order base, stator, rotor, shaft, exciter, with their materials; the exciter is fixed at radius 1, depth 0.5, z 3.5 |
| Generator.GeneratorClips | hydro_master.py:91-96 | only the rotor and the shaft are animated, each by exactly one full-turn clip from frame 1 to 100 that ends with a CYCLES command on the object's first F-curve |
| Generator.EmitUpright | hydro_master.py:70-72 | one cylinder: a KeyError at the first of its two keys that is absent, with nothing created; otherwise one cylinder on the axis with the two values num reads, at its height and with its material |
| Generator.EmitGeneratorStack | hydro_master.py:70-88 | the creation part appends the five cylinders when no key is missing, and reports the first missing key |
| Generator.SpinRotorAndShaft | hydro_master.py:91-96 | the loop over [rotor, shaft] leaves both turned a full turn about z, touches no other object, and appends the rotor's clip, then the shaft's |
| Generator.StackTurned | hydro_master.py:91-96 | turning the rotor and the shaft of the created stack gives the cylinders as they stand after the build |
| Generator.BuildGenerator | hydro_master.py:69-96 | build_generator appends exactly the five cylinders and the two spin clips, or reports the KeyError of the plan, and never removes anything |
| Turbine.TurbinePlanParts | hydro_master.py:101-158 | build_turbine fails where its casing part fails, else where its rotor part fails, else where its tail part fails |
| Turbine.TurbineErrorCases | hydro_master.py:101-151 | the build succeeds exactly when every key it reads is present, the three counts are ints, and the blade keys are present when blades are made; a TypeError names a count, a KeyError an absent key |
| Turbine.RingUpTo | hydro_master.py:107-115 | the first k elements of a ring loop are k in number |
| Turbine.Ring | hydro_master.py:107 | a loop over range(n) makes max(0, n) elements, so a count of 0 or less makes none and divides nothing |
| Turbine.RingUpToAt | hydro_master.py:107-115 | element i of a ring is the one made in iteration i |
| Turbine.TurbineCount | hydro_master.py:102-151 | the build emits 1 + max(0,S) + max(0,G) + 1 + max(0,B) + 1 + 1 primitives |
| Turbine.CasingAt | hydro_master.py:102-126 | the casing is the spiral, then the stay vanes, then the guide vanes |
| Turbine.TrainAt | hydro_master.py:129-151 | the drive train is the runner (parented to the shaft), the blades (parented to the runner), the shaft, then the draft cone |
| Turbine.TurbineAt | hydro_master.py:102-151 | the casing comes first and the drive train after it |
| Turbine.StayVanePlacement | hydro_master.py:107-115 | stay vane i is a 0.3 cube on radius 2.5 at z 1.5, at angle i*360/S, turned about z by that same angle |
| Turbine.GuideVanePlacement | hydro_master.py:118-126 | guide vane i is a 0.25 cube on radius 1.8 at z 1.5, at angle i*360/G, turned about z by that angle |
| Turbine.BladePlacement | hydro_master.py:134-141 | blade i is a cylinder of the blade dimensions on radius 0.7 at z 1.5, at angle i*360/B, turned about z by that angle |
| Turbine.TurbineParents | hydro_master.py:142-147 | every blade's parent is the runner, the runner's parent is the shaft, and nothing else has a parent |
| Turbine.TurbineClips | hydro_master.py:154-158 | only the shaft is animated, by one full-turn clip from frame 1 to 100 that ends with a CYCLES command on the shaft's first F-curve |
| Turbine.EmitRing | hydro_master.py:107-115 | one ring loop appends exactly the ring's elements |
| Turbine.EmitCasing | hydro_master.py:102-126 | the casing part appends the spiral and both vane rings, or reports its first error |
| Turbine.EmitRotor | hydro_master.py:129-142 | the runner part appends the runner and its parented blades, or reports its first error |
| Turbine.EmitTail | hydro_master.py:144-158 | the tail part appends shaft and draft cone, parents the runner to the shaft, touches no other earlier object, and adds the shaft's spin |
| Turbine.TurbineAssembly | hydro_master.py:101-158 | the three parts in order make the whole build |
| Turbine.BuildTurbine | hydro_master.py:101-158 | build_turbine appends exactly the planned primitives and the shaft's clip, or reports the plan's error, and never removes anything |
| Intake.IntakeRead | hydro_master.py:164-181 | the eighteen reads succeed exactly when every key is present, and then give num of each key in reading order; otherwise the KeyError names a key of the eighteen that is absent |
| Intake.IntakeCounts | hydro_master.py:164-173 | the first and tenth values read are the bay count and the row count |
| Intake.GroupObjs | hydro_master.py:184-225 | each per-bay loop makes as many objects as its range has elements |
| Intake.Bars | hydro_master.py:198-205 | the bar loops make max(0,N) * max(0,R) bars |
| Intake.AddBlock | hydro_master.py:185-189 | one part of the intake: a size-1 cube appended at the given place with the given scale and the intake material, nothing else changing |
| Intake.EmitFront | hydro_master.py:183-195 | the piers, then the deck over all bays, are appended, and nothing else changes |
| Intake.EmitPiers | hydro_master.py:184-189 | the pier loop appends exactly the piers |
| Intake.EmitBayBars | hydro_master.py:200-205 | the row loop of one bay appends its bars, row by row |
| Intake.EmitBars | hydro_master.py:198-205 | the bay loop appends the bars bay by bay |
| Intake.EmitGate | hydro_master.py:208-217 | one gate is appended raised, and its clip (key at 1, raise, key at 50, CYCLES on its first F-curve) follows the other commands |
| Intake.EmitGates | hydro_master.py:208-217 | the gate loop appends the gates and their clips in bay order |
| Intake.EmitTunnels | hydro_master.py:220-225 | the tunnel loop appends the tunnels |
| Intake.EmitCrane | hydro_master.py:228-235 | the crane is appended moved back and its clip (key at 1, move, key at 100, CYCLES on its first F-curve) follows |
| Intake.EmitView | hydro_master.py:238-248 | the camera and the light are appended and the camera becomes the scene's camera |
| Intake.EmitIntake | hydro_master.py:184-248 | the piers and the deck are appended; then either the row count fails, with no keyframe and no camera, or the rest follows and the whole build, its clips and the camera are exactly the plan's |
| Intake.BuildIntake | hydro_master.py:163-249 | build_intake_structure appends exactly the planned parts and clips and sets the camera, or reports the plan's error with no keyframe added; all eighteen values are read before anything is created, so a KeyError or a float bay count leaves the scene as it was, and a float row count leaves only the piers and the deck |
| Intake.IntakeAssembly | hydro_master.py:183-248 | the three stages in order make the whole build |
| IntakeFacts.IntakeErrorCases | hydro_master.py:164-200 | KeyError of an absent key first; else TypeError exactly when the bay count is a float; else exactly when there is a bay and the row count is a float; success otherwise |
| IntakeFacts.IntakeReads | hydro_master.py:164-184 | a successful build uses the resolved bay count, the row count when it loops over rows, and the bay width |
| IntakeFacts.IntakeCount | hydro_master.py:184-247 | N+1 piers, one deck, N*R bars, N gates, N tunnels, the crane, the camera and the light |
| IntakeFacts.PierPlaced | hydro_master.py:184-189 | pier i stands at x = i*W, with no pier-thickness offset, centred at half the intake height |
| IntakeFacts.DeckPlaced | hydro_master.py:192-195 | the deck spans x from 0 to N*W and its top is at the deck elevation |
| IntakeFacts.BarPlaced | hydro_master.py:198-205 | bar row r of bay i stands at x = i*W + W/2 and z = SILL + r*(T+G), one T+G above the row below |
| IntakeFacts.GatePlaced | hydro_master.py:208-215 | gate i stands at the bay centre i*W + W/2, raised by GATE_CLEAR_TOP above the middle of the opening |
| IntakeFacts.TunnelPlaced | hydro_master.py:220-224 | tunnel i lies at the bay centre behind the piers, resting on the floor, turned 90 degrees about x |
| IntakeFacts.TopPlaced | hydro_master.py:228-248 | the last three parts are the crane, the scene's camera at (N*W, -N*W, 1.2*DECK) and an area light of energy 1000 |
| IntakeFacts.CraneMotion | hydro_master.py:192-235 | the crane is centred at the deck's x, its half-span is the deck's plus CRANE_SPAN_XPAD, it sits on the deck, and its clip changes only x, by -N*W/4, from frame 1 to 100 |
| IntakeFacts.GateMotion | hydro_master.py:210-217 | a gate's clip keys it at frame 1 and 50, only z changing, by GATE_CLEAR_TOP; the lowered gate fills sill to intake height |
| IntakeFacts.GateClipsOf | hydro_master.py:208-217 | among the gate clips, a gate has exactly its own clip and any other object none |
| IntakeFacts.IntakeClips | hydro_master.py:208-235 | only the gates and the crane are animated, each by exactly its own clip, which ends with a CYCLES command on the object's first F-curve |
| Dispatch.BuilderForExact | hydro_master.py:255-260 | a builder runs exactly for "generator", "turbine" and "intake", each picking its own builder |
| Dispatch.BuilderForStrict | hydro_master.py:255-260 | the match is exact: "Generator", " turbine", "intake_structure" and "" pick nothing |
| Dispatch.UnmatchedBuildsNothing | hydro_master.py:255-260 | any other component string raises nothing and adds no objects and no keyframes |
| Dispatch.RunBuilder | hydro_master.py:255-260 | the if/elif chain runs the chosen builder with its effect on the scene, and leaves the scene alone for any other string |
| Dispatch.RunScript | hydro_master.py:10-11 | the script clears the scene and runs the chosen builder, so the saved scene holds exactly that build |
| NumText.TrimStartSpec | ui_app.py:334 | strip() on the left drops a run of white space and keeps the rest |
| NumText.TrimEndSpec | ui_app.py:334 | strip() on the right drops a run of white space and keeps the rest |
| NumText.StripSpec | ui_app.py:534 | strip() keeps a middle slice, removes only white space, and leaves no white space at either end |
| NumText.IntTextRoundTrip | ui_app.py:353 | int() reads back what str() writes for an int, and that text holds no '.' |
| NumText.TenthsTextRoundTrip | ui_app.py:356 | float() reads back exactly t/10 from what "%.1f" writes for it, and that text holds a '.' |
| NumText.HundredthsTextRoundTrip | ui_app.py:291 | float() reads back the two-decimal text of a default, which holds a '.' |
| NumText.IntTextAsDecimal | ui_app.py:547 | float() reads an int text as the same value |
| NumText.Trunc | ui_app.py:353 | int() of a float truncates toward zero |
| NumText.RoundTenths | ui_app.py:356 | "%.1f" rounds to the nearest tenth |
| Fields.KeysOf | ui_app.py:409 | the keys of the fields, in order |
| Fields.FieldsSchema | ui_app.py:13-62 | every field of FIELDS has min <= default <= max, an int default and whole bounds for an int field, a float default with at most two decimals for a float field, a range that holds 0 or excludes every magnitude below 1e-4, and no two fields of a component share a key |
| Fields.StrRoundTrip | ui_app.py:291 | the text str(default) puts in an entry reads back as the default |
| Fields.FloatTextRoundTrip | ui_app.py:291 | str() of a float with at most two decimals reads back as that float |
| Labels.WithoutKeeps | ui_app.py:623 | replace(c, "") keeps exactly the characters other than c |
| Labels.Lower | ui_app.py:623 | lower() maps each character, keeping the length |
| Labels.ReplaceChar | ui_app.py:623 | replace(" ", "_") maps each space to '_' and keeps the rest |
| Labels.StripKeeps | ui_app.py:623 | strip() introduces no character |
| Labels.CleanNameShape | ui_app.py:623 | a clean name holds no emoji of the sidebar, no space and no upper-case letter, and is no longer than the name |
| Labels.CleanNameOf | ui_app.py:623 | the clean name of "emoji, space, title" is the title lower-cased with spaces turned into '_' |
| Labels.CleanGenerator | ui_app.py:623 | "⚡ Generator" cleans to "generator" |
| Labels.CleanTurbine | ui_app.py:623 | "🌪 Turbine" cleans to "turbine" |
| Labels.CleanIntake | ui_app.py:623 | "🌊 Intake Structure" cleans to "intake_structure" |
| Labels.ContainsAt | ui_app.py:449 | `w in key` holds exactly when w occurs at some position of key |
| Labels.AnyInSome | ui_app.py:449 | any(...) holds exactly when one of the words is in the key |
| Labels.UnitRule | ui_app.py:449 | the unit is "m" exactly when one of radius, height, depth, elev, thick, width, length, diam, gap occurs in the key, and "" otherwise |
| FormRules.Restyle | ui_app.py:531-560 | validate_field keeps the text; an int or float entry becomes SUCCESS exactly when the check passes; another dtype is left as it is |
| FormRules.ConvertAccepted | ui_app.py:610-620 | a text that passed the check is stored as the int or float it reads as, never as the default, and that number lies inside the range; when the range holds 0 or excludes every magnitude below 1e-4, num of the stored value lies inside the range too |
| FormRules.ValuesOf | ui_app.py:609-620 | the values hold exactly the entries whose dtype is int or float |
| FormRules.CollectedEach | ui_app.py:609-620 | the conversion loop over the keys stores, for exactly the keys of an int or float field, the converted text of that key's own entry, and nothing for other dtypes |
| FormRules.CollectedAll | ui_app.py:607-620 | over the keys of a consistent form the loop collects exactly the values of the config |
| FormRules.RawOf | ui_app.py:620 | the default is stored as the int or float it is, and num reads it back unchanged unless it is a float whose str() has no '.', which num truncates |
| FormRules.RestyleAll | ui_app.py:585-591 | after validating every field, every entry is still there |
| FormRules.RestyleKeysEach | ui_app.py:588-590 | validating the keys one by one restyles exactly those entries, each once, by its own field |
| FormRules.AllAcceptedEach | ui_app.py:587-590 | the valid flag stays true exactly when every entry validated so far passed |
| FormRules.RestyleStep | ui_app.py:588-590 | one more validate_field call restyles the next entry, whose text is still untouched, and adds its verdict |
| FormRules.RestyleKeysAll | ui_app.py:585-591 | validating all keys of the form restyles every entry, and the result is true exactly when every entry passes |
| FormRules.Insert | ui_app.py:470 | self.entries[key] = entry leaves the key order as it was for a present key, and for a new key keeps every earlier key in its place and puts the new one last |
| FormRules.ShownOk | ui_app.py:387-470 | laying out any field list leaves the form consistent: each key listed once, each with an entry and its validation data |
| FormRules.ShownKeysExact | ui_app.py:409-470 | with unique keys, the entries are listed in the order of the fields |
| FormRules.ShownMapsExact | ui_app.py:459-470 | with unique keys, each field's entry holds str(default) (as inserted at ui_app.py:291) styled SUCCESS, with that field's validation data |
| FormRules.StrStripped | ui_app.py:534 | strip() leaves the str(default) text of ui_app.py:291 unchanged |
| FormRules.DefaultAccepted | ui_app.py:531-560 | the text str(default) inserted at ui_app.py:291 for a well-formed field passes that field's check |
| FormRules.StepInRange | ui_app.py:344-348 | the clamped value is always inside [min, max] |
| FormRules.StepDirection | ui_app.py:334-348 | a press moves the value the text reads as (empty text reads as 0) by one step, 1 for int and 0.1 otherwise, and clamping never moves a value inside the range against the direction pressed |
| FormRules.TruncInside | ui_app.py:353 | truncation keeps a value between whole bounds |
| FormRules.RenderAccepted | ui_app.py:350-356 | what a spin button writes for a value in range passes the field's check |
| FormRules.SteppedAccepted | ui_app.py:331-368 | after a press the entry passes its check: a step is restyled SUCCESS by validate_field; the midpoint written for an unparsable text keeps the old style |
| FormRules.FieldsStepReady | ui_app.py:13-62 | every field of FIELDS has whole bounds when int and bounds that "%.1f" rounding does not leave when float |
| Ui.HydroUI.constructor | ui_app.py:68-74 | the form starts with no component, no entries and no validation data |
| Ui.HydroUI.BrowseExport | ui_app.py:579-583 | a chosen folder replaces the export text; cancelling keeps it; nothing else changes |
| Ui.HydroUI.TypeText | ui_app.py:470 | typing replaces one entry's text and keeps its style and the rest of the form |
| Ui.HydroUI.ShowComponent | ui_app.py:370-470 | selecting a component clears the form and lays out one entry per field of FIELDS[comp] (none for an unknown name), keeping the form consistent |
| Ui.HydroUI.LayOut | ui_app.py:387-470 | the clearing and the field loop of show_component produce the laid-out form of the field list |
| Ui.HydroUI.ValidateField | ui_app.py:531-560 | the result is true exactly when the stripped text parses as the dtype and lies in [min, max] (always true for other dtypes), and only that entry's style changes accordingly |
| Ui.HydroUI.ValidateAll | ui_app.py:585-591 | every entry is validated, with no short-circuit, and the result is true exactly when every entry passes |
| Ui.HydroUI.IncrementValue | ui_app.py:331-368 | one press changes only that entry, as Stepped says: step, clamp, write, validate; or write the midpoint when the text does not parse |
| Ui.HydroUI.CollectValues | ui_app.py:609-620 | the conversion loop collects exactly the converted values of the entries |
| Ui.HydroUI.Generate | ui_app.py:593-629 | no component, then an empty folder, then an invalid entry refuse in that order and change no entry before validation; otherwise the config holds the clean name, the converted values and the folder |
| Ui.RestyleKeepsValues | ui_app.py:603-620 | validation changes no text, so it changes none of the converted values |
| Pipeline.SidebarDispatch | ui_app.py:623 | the clean names pick the generator and turbine builders of hydro_master.py:255-258, and "intake_structure" picks none |
| Pipeline.ShownValidated | ui_app.py:390-470 | the form just laid out for a sidebar component passes validation as it stands |
| Pipeline.ValidatedValues | ui_app.py:609-620 | the config of a validated form of well-formed fields holds, for each int or float field, a value that num resolves inside the field's range, and an int for each int field |
| Pipeline.GeneratorKeysShown | ui_app.py:14-23 | every key build_generator reads (hydro_master.py:70-82) is a key of the generator form |
| Pipeline.TurbineKeysShown | ui_app.py:24-39 | every key build_turbine reads is a key of the turbine form, and its three counts are int fields |
| Pipeline.IntakeKeysShown | ui_app.py:40-61 | every key build_intake_structure reads is a key of the intake form, and its two counts are int fields |
| Pipeline.GeneratorFormBuilds | ui_app.py:593-629 | a validated generator form writes a config on which build_generator raises nothing |
| Pipeline.TurbineReady | hydro_master.py:101-151 | build_turbine raises nothing once every key it reads is present and the counts are ints |
| Pipeline.TurbineFormBuilds | ui_app.py:593-629 | a validated turbine form writes a config on which build_turbine raises nothing |
| Pipeline.IntakeFormBuildsNothing | hydro_master.py:255-260 | the config of a validated intake form would build without error, yet its component name picks no builder, so no object and no keyframe is added |

## Left out

- All of `bpy` is replaced by the `Scene` class: mesh construction, the colours and BSDF settings of the materials (kept as a tag), and the `.blend` save.
- The CYCLES modifier goes on `fcurves[0]`, the x channel of the property keyed first (`rotation_euler[0]` or `location[0]`). The model records `Cycles(obj)` without the channel.
  - So in Blender only the crane's x traverse repeats. The z spin of the rotor and the shafts and the z lift of the gates play once and then hold.
  - The clip lemmas (`Generator.GeneratorClips`, `Turbine.TurbineClips`, `IntakeFacts.IntakeClips`) state which commands are added, not how Blender plays them.
- The cos and sin placement coordinates of the ring elements are kept symbolic (`RCos`/`RSin` of radius and angle in degrees), since they are floating-point trigonometry. Angles are kept in degrees.
- Reading the config from `sys.argv` and JSON, writing `config.json`, launching Blender, the success messages printed by the intake builder (hydro_master.py:250) and after the save (hydro_master.py:265), and the message boxes and status text are I/O and are left out. `Ui.HydroUI.Generate` returns the config it would write.
- Widgets, styling other than SUCCESS/DANGER, tooltips, scrolling, the header labels, the descriptions and the preview drawing are left out. The unit rule is modelled as a function of the key (`Labels.Unit`), not as a label widget.
- Numbers are exact reals and unbounded ints, not binary floats.
  - The 0.1 step and "%.1f" are exact. Ties round up, where Python rounds the binary value.
  - `FormRules.Render` writes "0.0" for a value in (-0.05, 0), where Python's "%.1f" writes "-0.0". Both texts read back as 0 and pass the same check.
  - `str()` of a float is modelled for values with at most two decimals, which covers every default in `FIELDS`.
  - `Resolve.StrHasDot` applies Python's exponent-form rule (below 1e-4 or from 1e16 up) and its mantissa test to the exact value, not to the shortest repr of a binary double.
  - inf and nan are not values of the model. `num` gives 1 for both, because `int()` raises on them.
    - `validate_field` rejects "inf" by its range comparison.
    - It accepts "nan", since both comparisons are false. The model's `float()` grammar has no "nan", so there the text is rejected.
- `int()` accepts an optional '+' or '-' sign followed by digits. `float()` accepts an optional sign and digits with at most one '.', and at least one digit. Both ignore white space around the text; the model strips it before parsing.
  - White space is space, `\t`, `\n`, `\r`, `\v` and `\f`.
  - Python also accepts underscores between digits, exponents ("1e5" in `float()`), inf and nan, non-ASCII decimal digits (Arabic-Indic, full-width and the like), and the other Unicode white space.
  - `Resolve.NumOfText`: for text written in those extra forms the model gives 1 where Python reads a number.
- `Labels.Lower` lower-cases ASCII letters only. Every name in `FIELDS` is ASCII after its emoji.
- A builder error aborts the script before the save. For the generator and the turbine the model reports the error and says only that the scene grew; it does not describe the partial scene Blender would hold. For the intake it does (`Intake.BuildIntake`).
- `Resolve.Raw` has no case for JSON true, false or null, on which `num` gives 1, 0 and 1. The form writes only ints, floats and text into `values`.
- `Ui.HydroUI.IncrementValue` reads min, max and dtype from the validation data recorded for the key. The source uses the same values captured in the button's closure at layout time.
- A dtype other than "int" or "float" never occurs in `FIELDS`. The model still handles it: validation passes, conversion stores nothing, and a press of a spin button steps it as a float.
- The ValueError branch of `increment_value` is modelled for text that does not parse. No other ValueError can arise there.
- `show_error_tooltip` and the message texts of the refusals are left out. Only the verdicts and styles are modelled.
