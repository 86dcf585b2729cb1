/**
 * build_turbine of hydro_master.py: a spiral-casing torus, a ring of stay
 * vanes and a ring of guide vanes (the casing), then the runner with its ring
 * of blades, the shaft and the draft-tube cone (the drive train). Blades hang
 * under the runner and the runner under the shaft; only the shaft spins.
 */
module Turbine {
  import opened Outcomes
  import opened Resolve
  import opened Scene

  const SpiralKeys := ["spiral_major_radius", "spiral_minor_radius"]
  const StayCountKey := "stay_vane_count"
  const GuideCountKey := "guide_vane_count"
  const RunnerKeys := ["runner_radius", "runner_depth"]
  const BladeCountKey := "blade_count"
  const BladeKeys := ["blade_radius", "blade_depth"]
  const ShaftKeys := ["shaft_radius", "shaft_height"]
  const DraftKeys := ["draft_radius1", "draft_radius2", "draft_depth"]

  datatype CasingParams = CasingParams(spiralMajor: real, spiralMinor: real, stay: int, guide: int)

  /** The runner and the blade loop; the blade dimensions are read only when the loop runs, and are 0 otherwise */
  datatype RotorParams = RotorParams(runnerRadius: real, runnerDepth: real, blades: int, bladeRadius: real, bladeDepth: real)

  /** The shaft and the draft-tube cone */
  datatype TailParams = TailParams(
    shaftRadius: real, shaftHeight: real,
    draftRadius1: real, draftRadius2: real, draftDepth: real)

  datatype TurbineParams = TurbineParams(casing: CasingParams, rotor: RotorParams, tail: TailParams)

  /**
   * What the casing part of build_turbine raises, in the order it reads its
   * keys: a missing key is a KeyError, a float count a TypeError from range().
   */
  function CasingError(v: Values): Option<BuildError>
  {
    if Need(v, SpiralKeys).Some? then Need(v, SpiralKeys)
    else if CountNeed(v, StayCountKey).Some? then CountNeed(v, StayCountKey)
    else CountNeed(v, GuideCountKey)
  }

  function CasingPlan(v: Values): Result<CasingParams, BuildError>
  {
    if CasingError(v).Some? then Failure(CasingError(v).value)
    else
      NeedSpec(v, SpiralKeys);
      Success(CasingParams(Real(v, "spiral_major_radius"), Real(v, "spiral_minor_radius"),
                           CountOf(v, StayCountKey), CountOf(v, GuideCountKey)))
  }

  /** What the runner and blade part raises; the blade keys are read inside the blade loop, so only when it runs */
  function RotorError(v: Values): Option<BuildError>
  {
    if Need(v, RunnerKeys).Some? then Need(v, RunnerKeys)
    else if CountNeed(v, BladeCountKey).Some? then CountNeed(v, BladeCountKey)
    else if CountOf(v, BladeCountKey) > 0 then Need(v, BladeKeys)
    else None
  }

  function RotorPlan(v: Values): Result<RotorParams, BuildError>
  {
    if RotorError(v).Some? then Failure(RotorError(v).value)
    else
      NeedSpec(v, RunnerKeys); NeedSpec(v, BladeKeys);
      var blades := CountOf(v, BladeCountKey);
      Success(RotorParams(
        Real(v, "runner_radius"), Real(v, "runner_depth"),
        blades,
        if blades > 0 then Real(v, "blade_radius") else 0.0,
        if blades > 0 then Real(v, "blade_depth") else 0.0))
  }

  /** What the shaft and draft-tube part raises */
  function TailError(v: Values): Option<BuildError>
  {
    if Need(v, ShaftKeys).Some? then Need(v, ShaftKeys) else Need(v, DraftKeys)
  }

  function TailPlan(v: Values): Result<TailParams, BuildError>
  {
    if TailError(v).Some? then Failure(TailError(v).value)
    else
      NeedSpec(v, ShaftKeys); NeedSpec(v, DraftKeys);
      Success(TailParams(
        Real(v, "shaft_radius"), Real(v, "shaft_height"),
        Real(v, "draft_radius1"), Real(v, "draft_radius2"), Real(v, "draft_depth")))
  }

  /** The resolved parameters, or the first error build_turbine raises */
  function TurbinePlan(v: Values): Result<TurbineParams, BuildError>
  {
    match CasingPlan(v)
    case Failure(e) => Failure(e)
    case Success(c) =>
      match RotorPlan(v)
      case Failure(e) => Failure(e)
      case Success(r) =>
        match TailPlan(v)
        case Failure(e) => Failure(e)
        case Success(t) => Success(TurbineParams(c, r, t))
  }

  /** The build fails where its casing part fails, else where its rotor part fails, else where its tail fails */
  lemma TurbinePlanParts(v: Values)
    ensures CasingPlan(v).Failure? ==> TurbinePlan(v) == Failure(CasingPlan(v).error)
    ensures CasingPlan(v).Success? && RotorPlan(v).Failure? ==> TurbinePlan(v) == Failure(RotorPlan(v).error)
    ensures CasingPlan(v).Success? && RotorPlan(v).Success? && TailPlan(v).Failure? ==>
              TurbinePlan(v) == Failure(TailPlan(v).error)
    ensures CasingPlan(v).Success? && RotorPlan(v).Success? && TailPlan(v).Success? ==>
              TurbinePlan(v) == Success(TurbineParams(CasingPlan(v).value, RotorPlan(v).value, TailPlan(v).value))
  {
  }

  /** i * (360 / n): the angle in degrees of element i of a ring of n */
  function Angle(n: int, i: int): real
    requires n > 0
  {
    i as real * (360.0 / n as real)
  }

  /**
   * How the elements of one ring are made: circle radius, height, primitive,
   * the scale the loop sets (None when it leaves the default), material
   */
  datatype RingStyle = RingStyle(radius: real, z: real, shape: Shape, scale: Option<Vec>, material: Material)

  const StayStyle := RingStyle(2.5, 1.5, Cube(0.3), Some(Vec(0.2, 1.0, 1.5)), GuideVanes)
  const GuideStyle := RingStyle(1.8, 1.5, Cube(0.25), Some(Vec(0.15, 0.8, 1.0)), GuideVanes)

  /** Blades are cylinders whose scale the loop leaves alone */
  function BladeStyle(r: RotorParams): RingStyle
  {
    RingStyle(0.7, 1.5, Cylinder(r.bladeRadius, r.bladeDepth, DefaultVertices), None, Runner)
  }

  /** Element i of a ring of n: on the circle at angle i*360/n, turned about z by that same angle */
  function RingObj(n: int, i: int, s: RingStyle, parent: Option<nat>): Obj
    requires n > 0
  {
    var a := Angle(n, i);
    Obj(s.shape, Loc(RCos(s.radius, a), RSin(s.radius, a), s.z), Vec(0.0, 0.0, a),
        if s.scale.Some? then s.scale.value else Ones, s.material, parent)
  }

  /** The first k objects of a loop over range(n) */
  function RingUpTo(n: int, s: RingStyle, parent: Option<nat>, k: nat): (r: seq<Obj>)
    requires k <= Count(n)
    ensures |r| == k
  {
    if k == 0 then [] else RingUpTo(n, s, parent, k - 1) + [RingObj(n, k - 1, s, parent)]
  }

  /** The objects a loop over range(n) makes: none when n <= 0 */
  function Ring(n: int, s: RingStyle, parent: Option<nat>): (r: seq<Obj>)
    ensures |r| == Count(n)
  {
    RingUpTo(n, s, parent, Count(n))
  }

  /** The first k objects are k in number, element i being the one made in iteration i */
  lemma {:induction false} RingUpToAt(n: int, s: RingStyle, parent: Option<nat>, k: nat)
    requires k <= Count(n)
    ensures forall i :: 0 <= i < k ==> RingUpTo(n, s, parent, k)[i] == RingObj(n, i, s, parent)
  {
    if k > 0 {
      RingUpToAt(n, s, parent, k - 1);
    }
  }

  function SpiralObj(c: CasingParams): Obj
  {
    Obj(Torus(c.spiralMajor, c.spiralMinor), Loc(At(0.0), At(0.0), 1.0), Zero, Ones, SpiralCasing, None)
  }

  function RunnerObj(r: RotorParams, parent: Option<nat>): Obj
  {
    Obj(Cylinder(r.runnerRadius, r.runnerDepth, 64), Loc(At(0.0), At(0.0), 1.5), Zero, Ones, Runner, parent)
  }

  function ShaftObj(t: TailParams, rot: Vec): Obj
  {
    Obj(Cylinder(t.shaftRadius, t.shaftHeight, DefaultVertices), Loc(At(0.0), At(0.0), 0.5), rot, Ones, GreyShaft, None)
  }

  function DraftObj(t: TailParams): Obj
  {
    Obj(Cone(t.draftRadius1, t.draftRadius2, t.draftDepth), Loc(At(0.0), At(0.0), -0.5), Zero, Ones, DraftTube, None)
  }

  /** The spiral and the two vane rings */
  function CasingObjs(c: CasingParams): seq<Obj>
  {
    [SpiralObj(c)] + Ring(c.stay, StayStyle, None) + Ring(c.guide, GuideStyle, None)
  }

  /** The runner as created and its blades, the runner landing at index runner */
  function RotorObjs(r: RotorParams, runner: nat): seq<Obj>
  {
    [RunnerObj(r, None)] + Ring(r.blades, BladeStyle(r), Some(runner))
  }

  /** Offset of the shaft from the runner */
  function TrainShaftAt(r: RotorParams): nat { 1 + Count(r.blades) }

  /** Runner, blades, shaft, draft cone as they stand after the build, the runner landing at index runner */
  function TrainObjs(r: RotorParams, t: TailParams, runner: nat): seq<Obj>
  {
    [RunnerObj(r, Some(runner + TrainShaftAt(r)))]
    + Ring(r.blades, BladeStyle(r), Some(runner))
    + [ShaftObj(t, FullTurn)]
    + [DraftObj(t)]
  }

  /** Offsets of the parts within the build */
  const SpiralAt := 0
  const StayAt := 1
  function GuideAt(p: TurbineParams): nat { 1 + Count(p.casing.stay) }
  function RunnerAt(p: TurbineParams): nat { 1 + Count(p.casing.stay) + Count(p.casing.guide) }
  function BladesAt(p: TurbineParams): nat { RunnerAt(p) + 1 }
  function TurbineShaftAt(p: TurbineParams): nat { RunnerAt(p) + TrainShaftAt(p.rotor) }
  function DraftAt(p: TurbineParams): nat { TurbineShaftAt(p) + 1 }

  /** The parts as they stand after the build, for a build whose first object lands at index base */
  function TurbineObjs(p: TurbineParams, base: nat): seq<Obj>
  {
    CasingObjs(p.casing) + TrainObjs(p.rotor, p.tail, base + RunnerAt(p))
  }

  function TurbineAnims(p: TurbineParams, base: nat): seq<Anim>
  {
    SpinClip(base + TurbineShaftAt(p))
  }

  /** The build fails exactly when a key it reads is absent or a count is a float, and which keys it reads */
  lemma TurbineErrorCases(v: Values)
    ensures TurbinePlan(v).Success? <==>
              && (forall k :: k in SpiralKeys + RunnerKeys + ShaftKeys + DraftKeys ==> k in v)
              && (forall k :: k in [StayCountKey, GuideCountKey, BladeCountKey] ==> k in v && IsCount(v, k))
              && (CountOf(v, BladeCountKey) > 0 ==> forall k :: k in BladeKeys ==> k in v)
    ensures TurbinePlan(v).Failure? && TurbinePlan(v).error.NotAnInteger? ==>
              TurbinePlan(v).error.key in [StayCountKey, GuideCountKey, BladeCountKey]
    ensures TurbinePlan(v).Failure? && TurbinePlan(v).error.MissingKey? ==>
              TurbinePlan(v).error.key !in v
  {
    NeedSpec(v, SpiralKeys); NeedSpec(v, RunnerKeys); NeedSpec(v, BladeKeys);
    NeedSpec(v, ShaftKeys); NeedSpec(v, DraftKeys);
  }

  /**
   * 1 + S + G + 1 + B + 1 + 1 parts, a ring being empty whenever its count is
   * not positive (360/n is only evaluated inside the loop body, so a count of
   * 0 divides nothing).
   */
  lemma TurbineCount(p: TurbineParams, base: nat)
    ensures |TurbineObjs(p, base)| == 4 + Count(p.casing.stay) + Count(p.casing.guide) + Count(p.rotor.blades)
    ensures |TurbineObjs(p, base)| == DraftAt(p) + 1
  {
  }

  /** Object j of the casing: the spiral, then the stay vanes, then the guide vanes */
  lemma CasingAt(c: CasingParams, j: nat)
    requires j < |CasingObjs(c)|
    ensures CasingObjs(c)[j] ==
              if j == 0 then SpiralObj(c)
              else if j < 1 + Count(c.stay) then RingObj(c.stay, j - 1, StayStyle, None)
              else RingObj(c.guide, j - 1 - Count(c.stay), GuideStyle, None)
  {
    var stay, guide := Ring(c.stay, StayStyle, None), Ring(c.guide, GuideStyle, None);
    RingUpToAt(c.stay, StayStyle, None, Count(c.stay));
    RingUpToAt(c.guide, GuideStyle, None, Count(c.guide));
    if 0 < j < 1 + Count(c.stay) {
      assert CasingObjs(c)[j] == ([SpiralObj(c)] + stay)[j] == stay[j - 1];
    } else if j >= 1 + Count(c.stay) {
      assert CasingObjs(c)[j] == guide[j - 1 - Count(c.stay)];
    }
  }

  /** Object j of the drive train: the runner, then the blades, then the shaft and the draft cone */
  lemma TrainAt(r: RotorParams, t: TailParams, runner: nat, j: nat)
    requires j < |TrainObjs(r, t, runner)|
    ensures TrainObjs(r, t, runner)[j] ==
              if j == 0 then RunnerObj(r, Some(runner + TrainShaftAt(r)))
              else if j < TrainShaftAt(r) then RingObj(r.blades, j - 1, BladeStyle(r), Some(runner))
              else if j == TrainShaftAt(r) then ShaftObj(t, FullTurn)
              else DraftObj(t)
  {
    var blades := Ring(r.blades, BladeStyle(r), Some(runner));
    RingUpToAt(r.blades, BladeStyle(r), Some(runner), Count(r.blades));
    var front := [RunnerObj(r, Some(runner + TrainShaftAt(r)))] + blades;
    assert TrainObjs(r, t, runner) == front + [ShaftObj(t, FullTurn)] + [DraftObj(t)];
    if 0 < j < TrainShaftAt(r) {
      assert TrainObjs(r, t, runner)[j] == front[j] == blades[j - 1];
    }
  }

  /** Object j of the build: the casing first, the drive train after it */
  lemma TurbineAt(p: TurbineParams, base: nat, j: nat)
    requires j < |TurbineObjs(p, base)|
    ensures j < RunnerAt(p) ==> j < |CasingObjs(p.casing)| && TurbineObjs(p, base)[j] == CasingObjs(p.casing)[j]
    ensures j >= RunnerAt(p) ==>
              j - RunnerAt(p) < |TrainObjs(p.rotor, p.tail, base + RunnerAt(p))|
              && TurbineObjs(p, base)[j] == TrainObjs(p.rotor, p.tail, base + RunnerAt(p))[j - RunnerAt(p)]
  {
  }

  /** Stay vane i sits on the circle of radius 2.5 at height 1.5 and angle i*360/S, turned about z by that angle */
  lemma StayVanePlacement(p: TurbineParams, base: nat, i: nat)
    requires i < Count(p.casing.stay)
    ensures StayAt + i < |TurbineObjs(p, base)|
    ensures var o := TurbineObjs(p, base)[StayAt + i];
      var a := i as real * (360.0 / p.casing.stay as real);
      o.loc == Loc(RCos(2.5, a), RSin(2.5, a), 1.5) && o.rot == Vec(0.0, 0.0, a) && o.shape == Cube(0.3)
  {
    TurbineAt(p, base, StayAt + i);
    CasingAt(p.casing, StayAt + i);
    assert TurbineObjs(p, base)[StayAt + i] == CasingObjs(p.casing)[StayAt + i];
    assert CasingObjs(p.casing)[StayAt + i] == RingObj(p.casing.stay, i, StayStyle, None);
    assert Angle(p.casing.stay, i) == i as real * (360.0 / p.casing.stay as real);
  }

  /** Guide vane i sits on the circle of radius 1.8 at height 1.5 and angle i*360/G, turned about z by that angle */
  lemma GuideVanePlacement(p: TurbineParams, base: nat, i: nat)
    requires i < Count(p.casing.guide)
    ensures GuideAt(p) + i < |TurbineObjs(p, base)|
    ensures var o := TurbineObjs(p, base)[GuideAt(p) + i];
      var a := i as real * (360.0 / p.casing.guide as real);
      o.loc == Loc(RCos(1.8, a), RSin(1.8, a), 1.5) && o.rot == Vec(0.0, 0.0, a) && o.shape == Cube(0.25)
  {
    TurbineAt(p, base, GuideAt(p) + i);
    CasingAt(p.casing, GuideAt(p) + i);
    assert TurbineObjs(p, base)[GuideAt(p) + i] == CasingObjs(p.casing)[GuideAt(p) + i];
    assert CasingObjs(p.casing)[GuideAt(p) + i] == RingObj(p.casing.guide, i, GuideStyle, None);
    assert Angle(p.casing.guide, i) == i as real * (360.0 / p.casing.guide as real);
  }

  /** Blade i sits on the circle of radius 0.7 at height 1.5 and angle i*360/B, turned about z by that angle */
  lemma BladePlacement(p: TurbineParams, base: nat, i: nat)
    requires i < Count(p.rotor.blades)
    ensures BladesAt(p) + i < |TurbineObjs(p, base)|
    ensures var o := TurbineObjs(p, base)[BladesAt(p) + i];
      var a := i as real * (360.0 / p.rotor.blades as real);
      o.loc == Loc(RCos(0.7, a), RSin(0.7, a), 1.5) && o.rot == Vec(0.0, 0.0, a)
      && o.shape == Cylinder(p.rotor.bladeRadius, p.rotor.bladeDepth, DefaultVertices)
  {
    TurbineAt(p, base, BladesAt(p) + i);
    TrainAt(p.rotor, p.tail, base + RunnerAt(p), 1 + i);
    assert TurbineObjs(p, base)[BladesAt(p) + i] == TrainObjs(p.rotor, p.tail, base + RunnerAt(p))[1 + i];
    assert TrainObjs(p.rotor, p.tail, base + RunnerAt(p))[1 + i] == RingObj(p.rotor.blades, i, BladeStyle(p.rotor), Some(base + RunnerAt(p)));
    assert Angle(p.rotor.blades, i) == i as real * (360.0 / p.rotor.blades as real);
  }

  /**
   * The parent links form a forest of depth two: every blade hangs under the
   * runner, the runner under the shaft, and nothing else has a parent.
   */
  lemma TurbineParents(p: TurbineParams, base: nat, j: nat)
    requires j < |TurbineObjs(p, base)|
    ensures var objs := TurbineObjs(p, base);
      objs[j].parent ==
        if BladesAt(p) <= j < TurbineShaftAt(p) then Some(base + RunnerAt(p))
        else if j == RunnerAt(p) then Some(base + TurbineShaftAt(p))
        else None
  {
    TurbineAt(p, base, j);
    if j < RunnerAt(p) {
      CasingAt(p.casing, j);
    } else {
      TrainAt(p.rotor, p.tail, base + RunnerAt(p), j - RunnerAt(p));
    }
  }

  /** Only the shaft is animated, by one full-turn clip ending with CYCLES on its first F-curve */
  lemma TurbineClips(p: TurbineParams, base: nat, j: nat)
    ensures AnimsOf(TurbineAnims(p, base), j) == if j == base + TurbineShaftAt(p) then SpinClip(j) else []
  {
    SpinClipOf(base + TurbineShaftAt(p), j);
  }

  /** One loop of build_turbine: for i in range(n), an element at angle i*360/n */
  method EmitRing(scene: Scene, n: int, s: RingStyle, parent: Option<nat>)
    requires scene.Valid() && (parent.Some? ==> parent.value < |scene.objs|)
    modifies scene
    ensures scene.Valid()
    ensures scene.objs == old(scene.objs) + Ring(n, s, parent)
    ensures scene.anims == old(scene.anims) && scene.camera == old(scene.camera)
  {
    for i := 0 to Count(n)
      invariant scene.Valid()
      invariant scene.objs == old(scene.objs) + RingUpTo(n, s, parent, i)
      invariant scene.anims == old(scene.anims) && scene.camera == old(scene.camera)
    {
      var a := Angle(n, i);
      var o := scene.Add(s.shape, Loc(RCos(s.radius, a), RSin(s.radius, a), s.z), Zero);
      if s.scale.Some? {
        scene.SetScale(o, s.scale.value);
      }
      scene.SetRotZ(o, a);
      scene.SetMaterial(o, s.material);
      if parent.Some? {
        scene.SetParent(o, parent.value);
      }
    }
  }

  /** The casing part of build_turbine: the spiral, then the stay-vane and guide-vane loops */
  method EmitCasing(scene: Scene, v: Values) returns (err: Option<BuildError>)
    requires scene.Valid()
    modifies scene
    ensures scene.Valid()
    ensures err == ErrorOf(CasingPlan(v))
    ensures err.None? ==> scene.objs == old(scene.objs) + CasingObjs(CasingPlan(v).value)
    ensures scene.anims == old(scene.anims) && scene.camera == old(scene.camera)
    ensures old(scene.objs) <= scene.objs
  {
    err := Need(v, SpiralKeys);
    NeedSpec(v, SpiralKeys);
    if err.Some? { return; }
    var spiral := AddPart(scene, Torus(Real(v, "spiral_major_radius"), Real(v, "spiral_minor_radius")),
                          Loc(At(0.0), At(0.0), 1.0), Zero, SpiralCasing);

    err := CountNeed(v, StayCountKey);
    if err.Some? { return; }
    EmitRing(scene, CountOf(v, StayCountKey), StayStyle, None);

    err := CountNeed(v, GuideCountKey);
    if err.Some? { return; }
    EmitRing(scene, CountOf(v, GuideCountKey), GuideStyle, None);
  }

  /** The runner, then the blade loop, each blade parented to the runner */
  method EmitRotor(scene: Scene, v: Values) returns (err: Option<BuildError>, runner: nat)
    requires scene.Valid()
    modifies scene
    ensures scene.Valid()
    ensures err == ErrorOf(RotorPlan(v))
    ensures runner == |old(scene.objs)|
    ensures err.None? ==> scene.objs == old(scene.objs) + RotorObjs(RotorPlan(v).value, runner)
    ensures scene.anims == old(scene.anims) && scene.camera == old(scene.camera)
    ensures old(scene.objs) <= scene.objs
  {
    runner := |scene.objs|;
    err := Need(v, RunnerKeys);
    NeedSpec(v, RunnerKeys);
    if err.Some? { return; }
    runner := AddPart(scene, Cylinder(Real(v, "runner_radius"), Real(v, "runner_depth"), 64),
                      Loc(At(0.0), At(0.0), 1.5), Zero, Runner);

    err := CountNeed(v, BladeCountKey);
    if err.Some? { return; }
    var blades := CountOf(v, BladeCountKey);
    // the blade loop reads its dimensions only when it runs
    var bladeRadius, bladeDepth := 0.0, 0.0;
    if blades > 0 {
      err := Need(v, BladeKeys);
      NeedSpec(v, BladeKeys);
      if err.Some? { return; }
      bladeRadius, bladeDepth := Real(v, "blade_radius"), Real(v, "blade_depth");
    }
    EmitRing(scene, blades, RingStyle(0.7, 1.5, Cylinder(bladeRadius, bladeDepth, DefaultVertices), None, Runner), Some(runner));
  }

  /** The shaft, which becomes the runner's parent, the draft cone, then the shaft's spin */
  method EmitTail(scene: Scene, v: Values, runner: nat) returns (err: Option<BuildError>)
    requires scene.Valid() && runner < |scene.objs|
    modifies scene
    ensures scene.Valid()
    ensures err == ErrorOf(TailPlan(v))
    ensures err.None? ==>
              && scene.objs == old(scene.objs)[runner := old(scene.objs)[runner].(parent := Some(|old(scene.objs)|))]
                               + [ShaftObj(TailPlan(v).value, FullTurn), DraftObj(TailPlan(v).value)]
              && scene.anims == old(scene.anims) + SpinClip(|old(scene.objs)|)
    ensures err.Some? ==> scene.anims == old(scene.anims)
    ensures scene.camera == old(scene.camera)
    ensures |old(scene.objs)| <= |scene.objs|
    ensures forall j :: 0 <= j < |old(scene.objs)| && j != runner ==> scene.objs[j] == old(scene.objs)[j]
  {
    err := Need(v, ShaftKeys);
    NeedSpec(v, ShaftKeys);
    if err.Some? { return; }
    var shaft := AddPart(scene, Cylinder(Real(v, "shaft_radius"), Real(v, "shaft_height"), DefaultVertices),
                         Loc(At(0.0), At(0.0), 0.5), Zero, GreyShaft);
    ghost var shaft0 := scene.objs[shaft];
    scene.SetParent(runner, shaft);
    ghost var parented := old(scene.objs)[runner := old(scene.objs)[runner].(parent := Some(shaft))];
    assert scene.objs == parented + [shaft0];

    err := Need(v, DraftKeys);
    NeedSpec(v, DraftKeys);
    if err.Some? { return; }
    var draft := AddPart(scene, Cone(Real(v, "draft_radius1"), Real(v, "draft_radius2"), Real(v, "draft_depth")),
                         Loc(At(0.0), At(0.0), -0.5), Zero, DraftTube);
    ghost var draft0 := scene.objs[draft];
    ReplaceBetween(parented, shaft0, shaft0.(rot := FullTurn), [draft0]);
    AnimateSpin(scene, shaft);
  }

  /** The casing, the rotor and the tail, once the runner is parented, make the whole build */
  lemma TurbineAssembly(p: TurbineParams, before: seq<Obj>, casing: seq<Obj>, rotor: seq<Obj>, after: seq<Obj>)
    requires casing == before + CasingObjs(p.casing)
    requires rotor == casing + RotorObjs(p.rotor, |casing|)
    requires after == rotor[|casing| := rotor[|casing|].(parent := Some(|rotor|))]
                      + [ShaftObj(p.tail, FullTurn), DraftObj(p.tail)]
    ensures after == before + TurbineObjs(p, |before|)
    ensures SpinClip(|rotor|) == TurbineAnims(p, |before|)
  {
    var blades := Ring(p.rotor.blades, BladeStyle(p.rotor), Some(|casing|));
    var runner1 := RunnerObj(p.rotor, Some(|rotor|));
    ReplaceBetween(casing, RunnerObj(p.rotor, None), runner1, blades);
    AppendAssoc(casing, [runner1], blades);
    assert after == casing + ([runner1] + blades + [ShaftObj(p.tail, FullTurn)] + [DraftObj(p.tail)]);
    AppendAssoc(before, CasingObjs(p.casing), TrainObjs(p.rotor, p.tail, |casing|));
  }

  /** build_turbine(v) on the scene */
  method BuildTurbine(scene: Scene, v: Values) returns (err: Option<BuildError>)
    requires scene.Valid()
    modifies scene
    ensures scene.Valid()
    ensures err == ErrorOf(TurbinePlan(v))
    ensures err.None? ==>
              && scene.objs == old(scene.objs) + TurbineObjs(TurbinePlan(v).value, |old(scene.objs)|)
              && scene.anims == old(scene.anims) + TurbineAnims(TurbinePlan(v).value, |old(scene.objs)|)
              && scene.camera == old(scene.camera)
    ensures old(scene.objs) <= scene.objs && old(scene.anims) <= scene.anims
  {
    TurbinePlanParts(v);
    err := EmitCasing(scene, v);
    if err.Some? { return; }
    ghost var casing := scene.objs;
    var runner;
    err, runner := EmitRotor(scene, v);
    if err.Some? { return; }
    ghost var rotor := scene.objs;
    err := EmitTail(scene, v, runner);
    assert forall j :: 0 <= j < |old(scene.objs)| ==> scene.objs[j] == rotor[j] == old(scene.objs)[j];
    if err.Some? { return; }
    TurbineAssembly(TurbineParams(CasingPlan(v).value, RotorPlan(v).value, TailPlan(v).value),
                    old(scene.objs), casing, rotor, scene.objs);
  }
}
