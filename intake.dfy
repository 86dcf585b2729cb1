/**
 * build_intake_structure of hydro_master.py: N+1 piers at the bay boundaries,
 * a deck over all bays, R rows of trash bars per bay, one gate and one tunnel
 * per bay, a crane over the deck, then a camera and an area light. Each gate
 * rises and the crane traverses in a two-key clip that ends with CYCLES on the
 * object's first F-curve.
 */
module Intake {
  import opened Outcomes
  import opened Resolve
  import opened Scene

  const BayCountKey := "bay_count"
  const RowsKey := "trash_bar_rows"

  /** The keys build_intake_structure reads, all of them before it creates anything, in this order */
  const IntakeKeys := [
    BayCountKey, "bay_width", "pier_thick", "intake_height", "sill_elev", "deck_elev",
    "face_thick", "trash_bar_thick", "trash_bar_gap", RowsKey, "gate_thick", "gate_clear_top",
    "tunnel_diam", "tunnel_len", "floor_elev", "side_wall_extra", "crane_gauge", "crane_span_xpad"]

  /**
   * The resolved dimensions. The row count is an int whenever the bar loop
   * runs; when there are no bays the row value is never handed to range()
   * and is kept as 0.
   */
  datatype IntakeParams = IntakeParams(
    bays: int, bayWidth: real, pierThick: real, height: real, sill: real, deck: real,
    face: real, barThick: real, barGap: real, rows: int, gateThick: real, gateClear: real,
    tunnelDiam: real, tunnelLen: real, floor: real, sideExtra: real, craneGauge: real, craneXPad: real)

  /**
   * The TypeErrors build_intake_structure raises once all eighteen values are
   * read: range(BAY_COUNT + 1) on a float bay count, else range(TRASH_BAR_ROWS)
   * in the first bay on a float row count.
   */
  function CountCheck(n: seq<Num>): Option<BuildError>
    requires |n| == |IntakeKeys|
  {
    if !n[0].IntV? then Some(NotAnInteger(BayCountKey))
    else if n[0].i > 0 && !n[9].IntV? then Some(NotAnInteger(RowsKey))
    else None
  }

  /** The eighteen values num() gives, in the order they are read, or the KeyError of the first absent key */
  function IntakeRead(v: Values): (r: Result<seq<Num>, BuildError>)
    ensures r.Success? <==> forall k :: k in IntakeKeys ==> k in v
    ensures r.Failure? ==> r.error.MissingKey? && r.error.key in IntakeKeys && r.error.key !in v
    ensures r.Success? ==>
              && |r.value| == |IntakeKeys|
              && forall i :: 0 <= i < |IntakeKeys| ==> r.value[i] == NumOf(v[IntakeKeys[i]])
  {
    NeedSpec(v, IntakeKeys);
    match Need(v, IntakeKeys)
    case Some(e) => Failure(e)
    case None => Success(ReadAll(v, IntakeKeys))
  }

  /** What build_intake_structure raises: the KeyError of the first absent key, else a TypeError of a count */
  function IntakeError(v: Values): Option<BuildError>
  {
    match IntakeRead(v)
    case Failure(e) => Some(e)
    case Success(n) => CountCheck(n)
  }

  /** The eighteen values in the order they are read, the bay count being an int */
  function IntakeValues(n: seq<Num>): IntakeParams
    requires |n| == |IntakeKeys| && n[0].IntV?
  {
    IntakeParams(
      n[0].i, ToReal(n[1]), ToReal(n[2]), ToReal(n[3]), ToReal(n[4]), ToReal(n[5]), ToReal(n[6]),
      ToReal(n[7]), ToReal(n[8]), if n[9].IntV? then n[9].i else 0, ToReal(n[10]), ToReal(n[11]),
      ToReal(n[12]), ToReal(n[13]), ToReal(n[14]), ToReal(n[15]), ToReal(n[16]), ToReal(n[17]))
  }

  /** Once every key is present, the values read first and tenth are the bay count and the row count */
  lemma IntakeCounts(v: Values)
    requires forall k :: k in IntakeKeys ==> k in v
    ensures BayCountKey in v && RowsKey in v
    ensures |ReadAll(v, IntakeKeys)| == |IntakeKeys|
    ensures ReadAll(v, IntakeKeys)[0] == NumOf(v[BayCountKey])
    ensures ReadAll(v, IntakeKeys)[9] == NumOf(v[RowsKey])
  {
    assert IntakeKeys[0] == BayCountKey && IntakeKeys[9] == RowsKey;
  }

  /** The eighteen values once all are read and the bay count is an int, whether or not the row count is */
  function ReadParams(v: Values): IntakeParams
    requires IntakeRead(v).Success? && IntakeRead(v).value[0].IntV?
  {
    IntakeValues(IntakeRead(v).value)
  }

  /** The resolved parameters, or the error build_intake_structure raises */
  function IntakePlan(v: Values): Result<IntakeParams, BuildError>
  {
    match IntakeRead(v)
    case Failure(e) => Failure(e)
    case Success(n) => if CountCheck(n).Some? then Failure(CountCheck(n).value) else Success(IntakeValues(n))
  }

  /** N * W, the width of all bays together */
  function Span(p: IntakeParams): real { p.bays as real * p.bayWidth }

  /** i * W: the x of the boundary left of bay i */
  function BoundaryX(p: IntakeParams, i: int): real { i as real * p.bayWidth }

  /** i * W + W/2: the centre of bay i */
  function BayCentre(p: IntakeParams, i: int): real { i as real * p.bayWidth + p.bayWidth / 2.0 }

  /** A cube of size 1 scaled to half-dimensions, in the intake material */
  function Block(loc: Loc, scale: Vec): Obj
  {
    Obj(Cube(1.0), loc, Zero, scale, IntakeConcrete, None)
  }

  /** Pier i: on the bay boundary x = i * W, as high as the intake */
  function PierObj(p: IntakeParams, i: int): Obj
  {
    Block(Loc(At(BoundaryX(p, i)), At(0.0), p.height / 2.0),
          Vec(p.pierThick / 2.0, (p.bayWidth + p.sideExtra) / 2.0, p.height / 2.0))
  }

  function DeckObj(p: IntakeParams): Obj
  {
    Block(Loc(At(Span(p) / 2.0), At(0.0), p.deck - p.face / 2.0),
          Vec(Span(p) / 2.0, (p.bayWidth + p.sideExtra) / 2.0, p.face / 2.0))
  }

  /** SILL + row * (T + G): the height of trash-bar row row */
  function RowZ(p: IntakeParams, row: int): real { p.sill + row as real * (p.barThick + p.barGap) }

  /** The bar of bay i in row row: across the bay at its centre, row * (T + G) above the sill */
  function BarObj(p: IntakeParams, i: int, row: int): Obj
  {
    Block(Loc(At(BayCentre(p, i)), At(0.0), RowZ(p, row)),
          Vec(p.bayWidth / 2.0, p.barThick / 2.0, p.barThick / 2.0))
  }

  /** Where gate i is created: filling the opening from the sill to the intake top */
  function GateLoc(p: IntakeParams, i: int): Loc
  {
    Loc(At(BayCentre(p, i)), At(0.0), p.sill + (p.height - p.sill) / 2.0)
  }

  /** Gate i, lowered as created or raised by GATE_CLEAR_TOP as it stands after the build */
  function GateObj(p: IntakeParams, i: int, raised: bool): Obj
  {
    var low := GateLoc(p, i);
    Block(if raised then low.(z := low.z + p.gateClear) else low,
          Vec(p.bayWidth / 2.0, p.gateThick / 2.0, (p.height - p.sill) / 2.0))
  }

  /** Tunnel i: a 32-segment cylinder behind the piers, turned 90 degrees about x */
  function TunnelObj(p: IntakeParams, i: int): Obj
  {
    Obj(Cylinder(p.tunnelDiam / 2.0, p.tunnelLen, 32),
        Loc(At(BayCentre(p, i)), At(-(p.tunnelLen / 2.0 + p.pierThick)), p.floor + p.tunnelDiam / 2.0),
        Vec(90.0, 0.0, 0.0), Ones, IntakeConcrete, None)
  }

  /** Where the crane is created: over the middle of the deck, on top of it */
  function CraneLoc(p: IntakeParams): Loc
  {
    Loc(At(Span(p) / 2.0), At(0.0), p.deck + p.craneGauge / 2.0)
  }

  /** The crane, at its start or moved back by N * W / 4 as it stands after the build */
  function CraneObj(p: IntakeParams, moved: bool): Obj
  {
    var start := CraneLoc(p);
    Block(if moved then start.(x := At(start.x.v - Span(p) / 4.0)) else start,
          Vec(Span(p) / 2.0 + p.craneXPad, p.craneGauge / 2.0, p.craneGauge / 2.0))
  }

  function CameraObj(p: IntakeParams): Obj
  {
    Obj(Camera, Loc(At(Span(p)), At(-Span(p)), p.deck * 1.2), Vec(65.0, 0.0, 45.0), Ones, NoMaterial, None)
  }

  /** The area light; its energy of 1000 is set right after creation */
  function LightObj(p: IntakeParams): Obj
  {
    Obj(AreaLight(1000.0), Loc(At(Span(p) / 2.0), At(-Span(p) / 2.0), p.deck * 1.5), Zero, Ones, NoMaterial, None)
  }

  /** The three loops with one object per iteration */
  datatype Group = Piers | Gates | Tunnels

  function GroupObj(p: IntakeParams, g: Group, i: int): Obj
  {
    match g
    case Piers => PierObj(p, i)
    case Gates => GateObj(p, i, true)
    case Tunnels => TunnelObj(p, i)
  }

  /** The first k objects of a one-object-per-iteration loop */
  function GroupUpTo(p: IntakeParams, g: Group, k: nat): (r: seq<Obj>)
    ensures |r| == k
  {
    if k == 0 then [] else GroupUpTo(p, g, k - 1) + [GroupObj(p, g, k - 1)]
  }

  /** How many times each loop runs: N + 1 piers, N gates, N tunnels */
  function GroupSize(p: IntakeParams, g: Group): nat
  {
    if g == Piers then Count(p.bays + 1) else Count(p.bays)
  }

  function GroupObjs(p: IntakeParams, g: Group): (r: seq<Obj>)
    ensures |r| == GroupSize(p, g)
  {
    GroupUpTo(p, g, GroupSize(p, g))
  }

  /** The first k bars of bay i */
  function RowsUpTo(p: IntakeParams, i: int, k: nat): (r: seq<Obj>)
    ensures |r| == k
  {
    if k == 0 then [] else RowsUpTo(p, i, k - 1) + [BarObj(p, i, k - 1)]
  }

  /** The bars of the first k bays, bay by bay and row by row within a bay */
  function BarsUpTo(p: IntakeParams, k: nat): (r: seq<Obj>)
    ensures |r| == k * Count(p.rows)
  {
    if k == 0 then [] else BarsUpTo(p, k - 1) + RowsUpTo(p, k - 1, Count(p.rows))
  }

  function Bars(p: IntakeParams): (r: seq<Obj>)
    ensures |r| == Count(p.bays) * Count(p.rows)
  {
    BarsUpTo(p, Count(p.bays))
  }

  /** The clip of one moving part: its location keyed at two frames, then CYCLES on its first F-curve */
  function MoveClip(j: nat, frame: int, from: Loc, to: Loc): seq<Anim>
  {
    [LocKey(j, 1, from), LocKey(j, frame, to), Cycles(j)]
  }

  function GateClip(p: IntakeParams, j: nat, i: int): seq<Anim>
  {
    MoveClip(j, 50, GateObj(p, i, false).loc, GateObj(p, i, true).loc)
  }

  /** The clips of the first k gates, gate 0 landing at index first */
  function GateClipsUpTo(p: IntakeParams, first: nat, k: nat): seq<Anim>
  {
    if k == 0 then [] else GateClipsUpTo(p, first, k - 1) + GateClip(p, first + k - 1, k - 1)
  }

  function CraneClip(p: IntakeParams, j: nat): seq<Anim>
  {
    MoveClip(j, 100, CraneObj(p, false).loc, CraneObj(p, true).loc)
  }

  /** Offsets of the parts within the build */
  function DeckAt(p: IntakeParams): nat { Count(p.bays + 1) }
  function BarsAt(p: IntakeParams): nat { DeckAt(p) + 1 }
  function GatesAt(p: IntakeParams): nat { BarsAt(p) + Count(p.bays) * Count(p.rows) }
  function TunnelsAt(p: IntakeParams): nat { GatesAt(p) + Count(p.bays) }
  function CraneAt(p: IntakeParams): nat { TunnelsAt(p) + Count(p.bays) }
  function CameraAt(p: IntakeParams): nat { CraneAt(p) + 1 }
  function LightAt(p: IntakeParams): nat { CameraAt(p) + 1 }

  /** The parts as they stand after the build */
  function IntakeObjs(p: IntakeParams): seq<Obj>
  {
    GroupObjs(p, Piers) + [DeckObj(p)] + Bars(p) + GroupObjs(p, Gates) + GroupObjs(p, Tunnels)
    + [CraneObj(p, true), CameraObj(p), LightObj(p)]
  }

  /** The gate clips, then the crane clip, for a build whose first object lands at index base */
  function IntakeAnims(p: IntakeParams, base: nat): seq<Anim>
  {
    GateClipsUpTo(p, base + GatesAt(p), Count(p.bays)) + CraneClip(p, base + CraneAt(p))
  }

  /** primitive_cube_add(size=1) at loc, then its scale and the intake material */
  method AddBlock(scene: Scene, loc: Loc, scale: Vec) returns (i: nat)
    requires scene.Valid()
    modifies scene
    ensures scene.Valid()
    ensures i == |old(scene.objs)| && scene.objs == old(scene.objs) + [Block(loc, scale)]
    ensures scene.anims == old(scene.anims) && scene.camera == old(scene.camera)
  {
    i := scene.Add(Cube(1.0), loc, Zero);
    scene.SetScale(i, scale);
    scene.SetMaterial(i, IntakeConcrete);
  }

  /** for i in range(BAY_COUNT + 1): a pier on every bay boundary */
  method EmitPiers(scene: Scene, p: IntakeParams)
    requires scene.Valid()
    modifies scene
    ensures scene.Valid()
    ensures scene.objs == old(scene.objs) + GroupObjs(p, Piers)
    ensures scene.anims == old(scene.anims) && scene.camera == old(scene.camera)
  {
    for i := 0 to Count(p.bays + 1)
      invariant scene.Valid()
      invariant scene.objs == old(scene.objs) + GroupUpTo(p, Piers, i)
      invariant scene.anims == old(scene.anims) && scene.camera == old(scene.camera)
    {
      var x := BoundaryX(p, i);
      var pier := AddBlock(scene, Loc(At(x), At(0.0), p.height / 2.0),
                           Vec(p.pierThick / 2.0, (p.bayWidth + p.sideExtra) / 2.0, p.height / 2.0));
      assert PierObj(p, i).scale.x == p.pierThick / 2.0;
      AppendAssoc(old(scene.objs), GroupUpTo(p, Piers, i), [PierObj(p, i)]);
    }
  }

  /** for row in range(TRASH_BAR_ROWS), inside bay i: one bar per row */
  method EmitBayBars(scene: Scene, p: IntakeParams, i: int)
    requires scene.Valid()
    modifies scene
    ensures scene.Valid()
    ensures scene.objs == old(scene.objs) + RowsUpTo(p, i, Count(p.rows))
    ensures scene.anims == old(scene.anims) && scene.camera == old(scene.camera)
  {
    var xStart := BoundaryX(p, i);
    for row := 0 to Count(p.rows)
      invariant scene.Valid()
      invariant scene.objs == old(scene.objs) + RowsUpTo(p, i, row)
      invariant scene.anims == old(scene.anims) && scene.camera == old(scene.camera)
    {
      var z := RowZ(p, row);
      var bar := AddBlock(scene, Loc(At(xStart + p.bayWidth / 2.0), At(0.0), z),
                          Vec(p.bayWidth / 2.0, p.barThick / 2.0, p.barThick / 2.0));
      AppendAssoc(old(scene.objs), RowsUpTo(p, i, row), [BarObj(p, i, row)]);
    }
  }

  /** for i in range(BAY_COUNT): the bars of bay i */
  method EmitBars(scene: Scene, p: IntakeParams)
    requires scene.Valid()
    modifies scene
    ensures scene.Valid()
    ensures scene.objs == old(scene.objs) + Bars(p)
    ensures scene.anims == old(scene.anims) && scene.camera == old(scene.camera)
  {
    for i := 0 to Count(p.bays)
      invariant scene.Valid()
      invariant scene.objs == old(scene.objs) + BarsUpTo(p, i)
      invariant scene.anims == old(scene.anims) && scene.camera == old(scene.camera)
    {
      EmitBayBars(scene, p, i);
      AppendAssoc(old(scene.objs), BarsUpTo(p, i), RowsUpTo(p, i, Count(p.rows)));
    }
  }

  /** One gate: created lowered, keyed at frame 1, raised by GATE_CLEAR_TOP, keyed at frame 50, CYCLES on its first F-curve */
  method EmitGate(scene: Scene, p: IntakeParams, i: int)
    requires scene.Valid()
    modifies scene
    ensures scene.Valid()
    ensures scene.objs == old(scene.objs) + [GateObj(p, i, true)]
    ensures scene.anims == old(scene.anims) + GateClip(p, |old(scene.objs)|, i)
    ensures scene.camera == old(scene.camera)
  {
    var x := BayCentre(p, i);
    var gate := AddBlock(scene, Loc(At(x), At(0.0), p.sill + (p.height - p.sill) / 2.0),
                         Vec(p.bayWidth / 2.0, p.gateThick / 2.0, (p.height - p.sill) / 2.0));
    scene.KeyLocation(gate, 1);
    scene.MoveZ(gate, p.gateClear);
    ReplaceLast(old(scene.objs), GateObj(p, i, false), GateObj(p, i, true));
    scene.KeyLocation(gate, 50);
    scene.AddCycles(gate);
  }

  /** One more gate adds its clip after those of the gates before it */
  lemma GateClipsStep(p: IntakeParams, before: seq<Anim>, first: nat, i: nat)
    ensures before + GateClipsUpTo(p, first, i) + GateClip(p, first + i, i) == before + GateClipsUpTo(p, first, i + 1)
  {
    AppendAssoc(before, GateClipsUpTo(p, first, i), GateClip(p, first + i, i));
  }

  /** for i in range(BAY_COUNT): the gate of bay i */
  method EmitGates(scene: Scene, p: IntakeParams)
    requires scene.Valid()
    modifies scene
    ensures scene.Valid()
    ensures scene.objs == old(scene.objs) + GroupObjs(p, Gates)
    ensures scene.anims == old(scene.anims) + GateClipsUpTo(p, |old(scene.objs)|, Count(p.bays))
    ensures scene.camera == old(scene.camera)
  {
    for i := 0 to Count(p.bays)
      invariant scene.Valid()
      invariant scene.objs == old(scene.objs) + GroupUpTo(p, Gates, i)
      invariant scene.anims == old(scene.anims) + GateClipsUpTo(p, |old(scene.objs)|, i)
      invariant scene.camera == old(scene.camera)
    {
      EmitGate(scene, p, i);
      GateClipsStep(p, old(scene.anims), |old(scene.objs)|, i);
      AppendAssoc(old(scene.objs), GroupUpTo(p, Gates, i), [GateObj(p, i, true)]);
    }
  }

  /** for i in range(BAY_COUNT): the tunnel of bay i, turned 90 degrees about x */
  method EmitTunnels(scene: Scene, p: IntakeParams)
    requires scene.Valid()
    modifies scene
    ensures scene.Valid()
    ensures scene.objs == old(scene.objs) + GroupObjs(p, Tunnels)
    ensures scene.anims == old(scene.anims) && scene.camera == old(scene.camera)
  {
    for i := 0 to Count(p.bays)
      invariant scene.Valid()
      invariant scene.objs == old(scene.objs) + GroupUpTo(p, Tunnels, i)
      invariant scene.anims == old(scene.anims) && scene.camera == old(scene.camera)
    {
      var x := BayCentre(p, i);
      var tunnel := scene.Add(Cylinder(p.tunnelDiam / 2.0, p.tunnelLen, 32),
                              Loc(At(x), At(-(p.tunnelLen / 2.0 + p.pierThick)), p.floor + p.tunnelDiam / 2.0), Zero);
      ghost var created := Created(Cylinder(p.tunnelDiam / 2.0, p.tunnelLen, 32), TunnelObj(p, i).loc, Zero);
      ghost var turned := created.(rot := Vec(90.0, 0.0, 0.0));
      ghost var before := old(scene.objs) + GroupUpTo(p, Tunnels, i);
      scene.SetRotX(tunnel, 90.0);
      ReplaceLast(before, created, turned);
      scene.SetMaterial(tunnel, IntakeConcrete);
      ReplaceLast(before, turned, TunnelObj(p, i));
      AppendAssoc(old(scene.objs), GroupUpTo(p, Tunnels, i), [TunnelObj(p, i)]);
    }
  }

  /** The crane: keyed at frame 1, moved back by N * W / 4, keyed at frame 100, CYCLES on its first F-curve */
  method EmitCrane(scene: Scene, p: IntakeParams)
    requires scene.Valid()
    modifies scene
    ensures scene.Valid()
    ensures scene.objs == old(scene.objs) + [CraneObj(p, true)]
    ensures scene.anims == old(scene.anims) + CraneClip(p, |old(scene.objs)|)
    ensures scene.camera == old(scene.camera)
  {
    var span := Span(p);
    var crane := AddBlock(scene, Loc(At(span / 2.0), At(0.0), p.deck + p.craneGauge / 2.0),
                          Vec(span / 2.0 + p.craneXPad, p.craneGauge / 2.0, p.craneGauge / 2.0));
    scene.KeyLocation(crane, 1);
    scene.MoveX(crane, -(span / 4.0));
    ReplaceLast(old(scene.objs), CraneObj(p, false), CraneObj(p, true));
    scene.KeyLocation(crane, 100);
    scene.AddCycles(crane);
  }

  /** The camera, made the scene's camera, then the area light */
  method EmitView(scene: Scene, p: IntakeParams)
    requires scene.Valid()
    modifies scene
    ensures scene.Valid()
    ensures scene.objs == old(scene.objs) + [CameraObj(p), LightObj(p)]
    ensures scene.camera == Some(|old(scene.objs)|)
    ensures scene.anims == old(scene.anims)
  {
    var span := Span(p);
    var cam := scene.Add(Camera, Loc(At(span), At(-span), p.deck * 1.2), Vec(65.0, 0.0, 45.0));
    scene.SetCamera(cam);
    var light := scene.Add(AreaLight(1000.0), Loc(At(span / 2.0), At(-span / 2.0), p.deck * 1.5), Zero);
    assert scene.objs == old(scene.objs) + [CameraObj(p)] + [LightObj(p)];
  }

  /** The piers, then the deck over all bays */
  method EmitFront(scene: Scene, p: IntakeParams)
    requires scene.Valid()
    modifies scene
    ensures scene.Valid()
    ensures scene.objs == old(scene.objs) + GroupObjs(p, Piers) + [DeckObj(p)]
    ensures scene.anims == old(scene.anims) && scene.camera == old(scene.camera)
  {
    EmitPiers(scene, p);
    var span := Span(p);
    var deck := AddBlock(scene, Loc(At(span / 2.0), At(0.0), p.deck - p.face / 2.0),
                         Vec(span / 2.0, (p.bayWidth + p.sideExtra) / 2.0, p.face / 2.0));
  }

  /** The trash bars, the gates and the tunnels */
  method EmitBays(scene: Scene, p: IntakeParams)
    requires scene.Valid()
    modifies scene
    ensures scene.Valid()
    ensures scene.objs == old(scene.objs) + Bars(p) + GroupObjs(p, Gates) + GroupObjs(p, Tunnels)
    ensures scene.anims == old(scene.anims) + GateClipsUpTo(p, |old(scene.objs)| + |Bars(p)|, Count(p.bays))
    ensures scene.camera == old(scene.camera)
  {
    EmitBars(scene, p);
    EmitGates(scene, p);
    EmitTunnels(scene, p);
  }

  /** The crane, then the camera and the light */
  method EmitTop(scene: Scene, p: IntakeParams)
    requires scene.Valid()
    modifies scene
    ensures scene.Valid()
    ensures scene.objs == old(scene.objs) + [CraneObj(p, true), CameraObj(p), LightObj(p)]
    ensures scene.anims == old(scene.anims) + CraneClip(p, |old(scene.objs)|)
    ensures scene.camera == Some(|old(scene.objs)| + 1)
  {
    EmitCrane(scene, p);
    EmitView(scene, p);
    assert scene.objs == old(scene.objs) + [CraneObj(p, true)] + [CameraObj(p), LightObj(p)];
  }

  /** The three stages in order make the whole build, and the clips land on the gates and the crane */
  lemma IntakeAssembly(p: IntakeParams, s0: seq<Obj>, s1: seq<Obj>, s2: seq<Obj>, s3: seq<Obj>)
    requires s1 == s0 + GroupObjs(p, Piers) + [DeckObj(p)]
    requires s2 == s1 + Bars(p) + GroupObjs(p, Gates) + GroupObjs(p, Tunnels)
    requires s3 == s2 + [CraneObj(p, true), CameraObj(p), LightObj(p)]
    ensures s3 == s0 + IntakeObjs(p)
    ensures |s1| + |Bars(p)| == |s0| + GatesAt(p) && |s2| == |s0| + CraneAt(p)
  {
    var piers, bars, gates, tunnels := GroupObjs(p, Piers), Bars(p), GroupObjs(p, Gates), GroupObjs(p, Tunnels);
    var top := [CraneObj(p, true), CameraObj(p), LightObj(p)];
    assert |piers| == DeckAt(p) && |gates| == Count(p.bays) && |tunnels| == Count(p.bays);
    var front := piers + [DeckObj(p)];
    var bays := bars + gates + tunnels;
    assert s2 == s0 + (front + bays);
    assert front + bays + top == IntakeObjs(p);
  }

  /** Everything after the piers and the deck, which together with them make the whole build */
  method EmitRest(scene: Scene, p: IntakeParams, ghost s0: seq<Obj>)
    requires scene.Valid()
    requires scene.objs == s0 + GroupObjs(p, Piers) + [DeckObj(p)]
    modifies scene
    ensures scene.Valid()
    ensures scene.objs == s0 + IntakeObjs(p)
    ensures scene.anims == old(scene.anims) + IntakeAnims(p, |s0|)
    ensures scene.camera == Some(|s0| + CameraAt(p))
  {
    ghost var s1, a1 := scene.objs, scene.anims;
    EmitBays(scene, p);
    ghost var s2, a2 := scene.objs, scene.anims;
    EmitTop(scene, p);
    IntakeAssembly(p, s0, s1, s2, scene.objs);
    AppendAssoc(a1, a2[|a1|..], CraneClip(p, |s2|));
  }

  /** The index of the camera of a successful build whose first object lands at index base */
  function CameraOf(v: Values, base: nat): nat
    requires IntakePlan(v).Success?
  {
    base + CameraAt(IntakePlan(v).value)
  }

  /**
   * The objects of build_intake_structure for resolved values p: the piers and
   * the deck, then, unless the row count has already failed (rowsFail), the rest.
   */
  method EmitIntake(scene: Scene, p: IntakeParams, rowsFail: bool)
    requires scene.Valid()
    modifies scene
    ensures scene.Valid()
    ensures !rowsFail ==>
              && scene.objs == old(scene.objs) + IntakeObjs(p)
              && scene.anims == old(scene.anims) + IntakeAnims(p, |old(scene.objs)|)
              && scene.camera == Some(|old(scene.objs)| + CameraAt(p))
    ensures rowsFail ==>
              && scene.objs == old(scene.objs) + GroupObjs(p, Piers) + [DeckObj(p)]
              && scene.anims == old(scene.anims) && scene.camera == old(scene.camera)
    ensures old(scene.objs) <= scene.objs && old(scene.anims) <= scene.anims
  {
    EmitFront(scene, p);
    // range(TRASH_BAR_ROWS) in the first bay
    if rowsFail { return; }
    EmitRest(scene, p, old(scene.objs));
  }

  /** build_intake_structure(v) on the scene */
  method BuildIntake(scene: Scene, v: Values) returns (err: Option<BuildError>)
    requires scene.Valid()
    modifies scene
    ensures scene.Valid()
    ensures err == ErrorOf(IntakePlan(v))
    ensures err.None? ==>
              && scene.objs == old(scene.objs) + IntakeObjs(IntakePlan(v).value)
              && scene.anims == old(scene.anims) + IntakeAnims(IntakePlan(v).value, |old(scene.objs)|)
              && scene.camera.Some? && scene.camera.value == CameraOf(v, |old(scene.objs)|)
    ensures err.Some? ==> scene.anims == old(scene.anims) && scene.camera == old(scene.camera)
    ensures err.Some? && err.value != NotAnInteger(RowsKey) ==> scene.objs == old(scene.objs)
    ensures err == Some(NotAnInteger(RowsKey)) ==>
              scene.objs == old(scene.objs) + GroupObjs(ReadParams(v), Piers) + [DeckObj(ReadParams(v))]
    ensures old(scene.objs) <= scene.objs && old(scene.anims) <= scene.anims
  {
    var read := IntakeRead(v);
    if read.Failure? { return Some(read.error); }
    var n := read.value;
    // range(BAY_COUNT + 1) of the pier loop
    if !n[0].IntV? { return Some(NotAnInteger(BayCountKey)); }
    var p := IntakeValues(n);
    var rowsFail := p.bays > 0 && !n[9].IntV?;
    assert IntakePlan(v) == if rowsFail then Failure(NotAnInteger(RowsKey)) else Success(p);
    EmitIntake(scene, p, rowsFail);
    if rowsFail { return Some(NotAnInteger(RowsKey)); }
    return None;
  }
}
