/**
 * build_generator of hydro_master.py: five cylinders stacked on the vertical
 * axis (base, stator, rotor, shaft, exciter), then a full-turn spin clip on the
 * rotor and on the shaft, each ending with CYCLES on the object's first F-curve.
 */
module Generator {
  import opened Outcomes
  import opened Resolve
  import opened Scene

  const BaseKeys := ["base_radius", "base_height"]
  const StatorKeys := ["stator_radius", "stator_height"]
  const RotorKeys := ["rotor_radius", "rotor_height"]
  const ShaftKeys := ["shaft_radius", "shaft_height"]

  /** The keys build_generator reads, in the order it reads them */
  const GeneratorKeys := BaseKeys + StatorKeys + RotorKeys + ShaftKeys

  datatype GeneratorParams = GeneratorParams(
    baseRadius: real, baseHeight: real,
    statorRadius: real, statorHeight: real,
    rotorRadius: real, rotorHeight: real,
    shaftRadius: real, shaftHeight: real)

  /** Positions of the five cylinders in the emitted order */
  const BaseAt := 0
  const StatorAt := 1
  const RotorAt := 2
  const ShaftAt := 3
  const ExciterAt := 4

  /** The resolved parameters, or the KeyError of the first absent key, read cylinder by cylinder */
  function GeneratorPlan(v: Values): Result<GeneratorParams, BuildError>
  {
    if FirstMissing(v, BaseKeys).Some? then Failure(MissingKey(FirstMissing(v, BaseKeys).value))
    else if FirstMissing(v, StatorKeys).Some? then Failure(MissingKey(FirstMissing(v, StatorKeys).value))
    else if FirstMissing(v, RotorKeys).Some? then Failure(MissingKey(FirstMissing(v, RotorKeys).value))
    else if FirstMissing(v, ShaftKeys).Some? then Failure(MissingKey(FirstMissing(v, ShaftKeys).value))
    else
      FirstMissingIsFirst(v, BaseKeys);
      FirstMissingIsFirst(v, StatorKeys);
      FirstMissingIsFirst(v, RotorKeys);
      FirstMissingIsFirst(v, ShaftKeys);
      Success(GeneratorParams(
        Real(v, "base_radius"), Real(v, "base_height"),
        Real(v, "stator_radius"), Real(v, "stator_height"),
        Real(v, "rotor_radius"), Real(v, "rotor_height"),
        Real(v, "shaft_radius"), Real(v, "shaft_height")))
  }

  /** A cylinder on the vertical axis at height z, unturned, with its material */
  function Upright(radius: real, depth: real, z: real, m: Material): Obj
  {
    Obj(Cylinder(radius, depth, DefaultVertices), Loc(At(0.0), At(0.0), z), Zero, Ones, m, None)
  }

  /** The five cylinders as created, in the order base, stator, rotor, shaft, exciter */
  function GeneratorStack(p: GeneratorParams): seq<Obj>
  {
    [ Upright(p.baseRadius, p.baseHeight, 0.5, GreenBase),
      Upright(p.statorRadius, p.statorHeight, 2.0, BlueStator),
      Upright(p.rotorRadius, p.rotorHeight, 2.0, RedRotor),
      Upright(p.shaftRadius, p.shaftHeight, 0.5, GreyShaft),
      Upright(1.0, 0.5, 3.5, YellowExciter) ]
  }

  /** The five cylinders as they stand after the build: the rotor and the shaft left at their frame-100 full turn */
  function GeneratorObjs(p: GeneratorParams): seq<Obj>
  {
    var s := GeneratorStack(p);
    [s[BaseAt], s[StatorAt], s[RotorAt].(rot := FullTurn), s[ShaftAt].(rot := FullTurn), s[ExciterAt]]
  }

  /** The animation commands, for a build whose first object lands at index base */
  function GeneratorAnims(base: nat): seq<Anim>
  {
    SpinClip(base + RotorAt) + SpinClip(base + ShaftAt)
  }

  /** The build succeeds exactly when all eight keys are present, and then reads each one */
  lemma GeneratorPlanReads(v: Values)
    ensures GeneratorPlan(v).Success? <==> forall k :: k in GeneratorKeys ==> k in v
    ensures GeneratorPlan(v).Failure? ==>
              GeneratorPlan(v).error.MissingKey? && GeneratorPlan(v).error.key in GeneratorKeys
              && GeneratorPlan(v).error.key !in v
    ensures GeneratorPlan(v).Success? ==>
              && GeneratorPlan(v).value.baseRadius == ToReal(NumOf(v["base_radius"]))
              && GeneratorPlan(v).value.baseHeight == ToReal(NumOf(v["base_height"]))
              && GeneratorPlan(v).value.statorRadius == ToReal(NumOf(v["stator_radius"]))
              && GeneratorPlan(v).value.statorHeight == ToReal(NumOf(v["stator_height"]))
              && GeneratorPlan(v).value.rotorRadius == ToReal(NumOf(v["rotor_radius"]))
              && GeneratorPlan(v).value.rotorHeight == ToReal(NumOf(v["rotor_height"]))
              && GeneratorPlan(v).value.shaftRadius == ToReal(NumOf(v["shaft_radius"]))
              && GeneratorPlan(v).value.shaftHeight == ToReal(NumOf(v["shaft_height"]))
  {
    GeneratorMissingByStage(v);
    FirstMissingIsFirst(v, GeneratorKeys);
  }

  /** Five cylinders in the order base, stator, rotor, shaft, exciter; the exciter is fixed at radius 1, depth 0.5, z 3.5 */
  lemma GeneratorLayout(p: GeneratorParams)
    ensures var objs := GeneratorObjs(p);
      && |objs| == 5
      && (forall k :: 0 <= k < 5 ==> objs[k].shape.Cylinder? && objs[k].parent.None?)
      && objs[BaseAt].material == GreenBase && objs[StatorAt].material == BlueStator
      && objs[RotorAt].material == RedRotor && objs[ShaftAt].material == GreyShaft
      && objs[ExciterAt].material == YellowExciter
      && objs[ExciterAt].shape == Cylinder(1.0, 0.5, DefaultVertices) && objs[ExciterAt].loc.z == 3.5
      && objs[StatorAt].shape.radius == p.statorRadius && objs[StatorAt].shape.depth == p.statorHeight
      && objs[RotorAt].shape.radius == p.rotorRadius && objs[RotorAt].shape.depth == p.rotorHeight
  {
  }

  /** Only the rotor and the shaft are animated, each by one full-turn clip from frame 1 to 100 ending with CYCLES */
  lemma GeneratorClips(base: nat, j: nat)
    ensures AnimsOf(GeneratorAnims(base), j) ==
              if j == base + RotorAt || j == base + ShaftAt then SpinClip(j) else []
  {
    AnimsOfAppend(SpinClip(base + RotorAt), SpinClip(base + ShaftAt), j);
    SpinClipOf(base + RotorAt, j);
    SpinClipOf(base + ShaftAt, j);
  }

  /** Reading the keys stage by stage fails where reading them all at once does */
  lemma GeneratorMissingByStage(v: Values)
    ensures FirstMissing(v, GeneratorKeys) ==
              if FirstMissing(v, BaseKeys).Some? then FirstMissing(v, BaseKeys)
              else if FirstMissing(v, StatorKeys).Some? then FirstMissing(v, StatorKeys)
              else if FirstMissing(v, RotorKeys).Some? then FirstMissing(v, RotorKeys)
              else FirstMissing(v, ShaftKeys)
  {
    FirstMissingAppend(v, BaseKeys + StatorKeys + RotorKeys, ShaftKeys);
    FirstMissingAppend(v, BaseKeys + StatorKeys, RotorKeys);
    FirstMissingAppend(v, BaseKeys, StatorKeys);
  }

  /**
   * One cylinder of build_generator: num(v[radius key]) and num(v[depth key])
   * are read (a KeyError at the first absent one), then the cylinder is created
   * and given its material.
   */
  method EmitUpright(scene: Scene, v: Values, keys: seq<string>, z: real, m: Material) returns (err: Option<BuildError>)
    requires scene.Valid() && |keys| == 2
    modifies scene
    ensures scene.Valid()
    ensures err == if FirstMissing(v, keys).Some? then Some(MissingKey(FirstMissing(v, keys).value)) else None
    ensures err.Some? ==> scene.objs == old(scene.objs)
    ensures err.None? ==> keys[0] in v && keys[1] in v
    ensures err.None? ==> scene.objs == old(scene.objs) + [Upright(Real(v, keys[0]), Real(v, keys[1]), z, m)]
    ensures scene.anims == old(scene.anims) && scene.camera == old(scene.camera)
  {
    var missing := FirstMissing(v, keys);
    if missing.Some? { return Some(MissingKey(missing.value)); }
    FirstMissingIsFirst(v, keys);
    var i := AddPart(scene, Cylinder(Real(v, keys[0]), Real(v, keys[1]), DefaultVertices), Loc(At(0.0), At(0.0), z), Zero, m);
    return None;
  }

  /** The creation part of build_generator: each cylinder once its two keys have been read */
  method EmitGeneratorStack(scene: Scene, v: Values) returns (err: Option<BuildError>)
    requires scene.Valid()
    modifies scene
    ensures scene.Valid()
    ensures err == ErrorOf(GeneratorPlan(v))
    ensures err.None? ==> scene.objs == old(scene.objs) + GeneratorStack(GeneratorPlan(v).value)
    ensures scene.anims == old(scene.anims) && scene.camera == old(scene.camera)
    ensures old(scene.objs) <= scene.objs
  {
    err := EmitUpright(scene, v, BaseKeys, 0.5, GreenBase);
    if err.Some? { return; }
    err := EmitUpright(scene, v, StatorKeys, 2.0, BlueStator);
    if err.Some? { return; }
    err := EmitUpright(scene, v, RotorKeys, 2.0, RedRotor);
    if err.Some? { return; }
    err := EmitUpright(scene, v, ShaftKeys, 0.5, GreyShaft);
    if err.Some? { return; }
    var ex := AddPart(scene, Cylinder(1.0, 0.5, DefaultVertices), Loc(At(0.0), At(0.0), 3.5), Zero, YellowExciter);
  }

  /** The animation loop of build_generator: for obj in [rotor, shaft], a spin clip on each */
  method SpinRotorAndShaft(scene: Scene, base: nat)
    requires scene.Valid() && base + ShaftAt < |scene.objs|
    requires scene.objs[base + RotorAt].rot == Zero && scene.objs[base + ShaftAt].rot == Zero
    modifies scene
    ensures scene.Valid()
    ensures scene.objs == old(scene.objs)[base + RotorAt := old(scene.objs)[base + RotorAt].(rot := FullTurn)]
                                         [base + ShaftAt := old(scene.objs)[base + ShaftAt].(rot := FullTurn)]
    ensures scene.anims == old(scene.anims) + GeneratorAnims(base)
    ensures scene.camera == old(scene.camera)
  {
    ghost var stacked := scene.objs;
    var spun := [base + RotorAt, base + ShaftAt];
    for k := 0 to |spun|
      invariant scene.Valid()
      invariant |scene.objs| == |stacked|
      invariant forall j :: 0 <= j < |stacked| ==>
                  scene.objs[j] == if j in spun[..k] then stacked[j].(rot := FullTurn) else stacked[j]
      invariant scene.anims == old(scene.anims) + (if k >= 1 then SpinClip(spun[0]) else [])
                                                + (if k >= 2 then SpinClip(spun[1]) else [])
      invariant scene.camera == old(scene.camera)
    {
      AnimateSpin(scene, spun[k]);
    }
  }

  /** Turning the rotor and the shaft of the created stack gives the finished cylinders */
  lemma StackTurned(prefix: seq<Obj>, p: GeneratorParams)
    ensures var objs := prefix + GeneratorStack(p); var base := |prefix|;
      objs[base + RotorAt := objs[base + RotorAt].(rot := FullTurn)][base + ShaftAt := objs[base + ShaftAt].(rot := FullTurn)]
      == prefix + GeneratorObjs(p)
  {
  }

  /** build_generator(v) on the scene */
  method BuildGenerator(scene: Scene, v: Values) returns (err: Option<BuildError>)
    requires scene.Valid()
    modifies scene
    ensures scene.Valid()
    ensures err == ErrorOf(GeneratorPlan(v))
    ensures err.None? ==>
              && scene.objs == old(scene.objs) + GeneratorObjs(GeneratorPlan(v).value)
              && scene.anims == old(scene.anims) + GeneratorAnims(|old(scene.objs)|)
              && scene.camera == old(scene.camera)
    ensures old(scene.objs) <= scene.objs && old(scene.anims) <= scene.anims
  {
    var base := |scene.objs|;
    err := EmitGeneratorStack(scene, v);
    if err.Some? { return; }
    ghost var p := GeneratorPlan(v).value;
    StackTurned(old(scene.objs), p);
    SpinRotorAndShaft(scene, base);
  }
}
