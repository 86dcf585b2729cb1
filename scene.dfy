/**
 * The 3D host's scene as the builders of hydro_master.py drive it: objects are
 * appended in creation order and named by their index, then mutated in place
 * (scale, rotation, location, material, parent); keyframes snapshot one
 * property of one object at a frame; a Cycles command stands for the CYCLES
 * modifier put on the first F-curve of the object's action (the x channel of
 * the property keyed first). Angles are kept in degrees (the source converts them with
 * math.radians before handing them over). Mesh construction, shading and
 * rendering stay with the host.
 */
module Scene {
  import opened Outcomes

  /** One coordinate of a location: an exact value, or radius*cos / radius*sin of an angle in degrees */
  datatype Coord = At(v: real) | RCos(radius: real, deg: real) | RSin(radius: real, deg: real)

  datatype Loc = Loc(x: Coord, y: Coord, z: real)

  /** Three reals: an Euler XYZ rotation in degrees, or a scale */
  datatype Vec = Vec(x: real, y: real, z: real)

  const Zero := Vec(0.0, 0.0, 0.0)
  const Ones := Vec(1.0, 1.0, 1.0)

  /** A full turn about the vertical axis */
  const FullTurn := Vec(0.0, 0.0, 360.0)

  datatype Shape =
    | Cylinder(radius: real, depth: real, vertices: nat)
    | Cube(size: real)
    | Torus(majorRadius: real, minorRadius: real)
    | Cone(radius1: real, radius2: real, depth: real)
    | Camera
    | AreaLight(energy: real)

  /** The host's default segment count of a cylinder */
  const DefaultVertices: nat := 32

  /** The material roles the builders assign; colours and shading stay with the host */
  datatype Material =
    | NoMaterial
    | GreenBase | BlueStator | RedRotor | GreyShaft | YellowExciter
    | SpiralCasing | GuideVanes | Runner | DraftTube
    | IntakeConcrete

  datatype Obj = Obj(shape: Shape, loc: Loc, rot: Vec, scale: Vec, material: Material, parent: Option<nat>)

  /**
   * One animation command: a keyframe of rotation_euler or of location, holding
   * the value the object had when it was inserted, or a Cycles modifier added to
   * the first F-curve of the object's action.
   */
  datatype Anim =
    | RotKey(obj: nat, frame: int, rot: Vec)
    | LocKey(obj: nat, frame: int, loc: Loc)
    | Cycles(obj: nat)

  /** An object as the host creates it: unscaled, no material, no parent */
  function Created(shape: Shape, loc: Loc, rot: Vec): Obj
  {
    Obj(shape, loc, rot, Ones, NoMaterial, None)
  }

  /** The commands that concern object i, in order */
  function AnimsOf(anims: seq<Anim>, i: nat): seq<Anim>
  {
    if anims == [] then []
    else AnimsOf(anims[..|anims| - 1], i) + (if anims[|anims| - 1].obj == i then [anims[|anims| - 1]] else [])
  }

  /** AnimsOf keeps exactly the commands that concern object i */
  lemma {:induction false} AnimsOfKeeps(anims: seq<Anim>, i: nat)
    ensures forall a :: a in AnimsOf(anims, i) <==> a in anims && a.obj == i
  {
    if anims != [] {
      var init := anims[..|anims| - 1];
      AnimsOfKeeps(init, i);
      assert anims == init + [anims[|anims| - 1]];
    }
  }

  lemma {:induction false} AnimsOfAppend(a: seq<Anim>, b: seq<Anim>, i: nat)
    ensures AnimsOf(a + b, i) == AnimsOf(a, i) + AnimsOf(b, i)
  {
    if b != [] {
      var ab := a + b;
      assert ab[..|ab| - 1] == a + b[..|b| - 1];
      AnimsOfAppend(a, b[..|b| - 1], i);
    } else {
      assert a + b == a;
    }
  }

  /** A two-key spin clip: rotation (0,0,0) at frame 1, a full turn about z at frame 100, then CYCLES on the first F-curve */
  function SpinClip(i: nat): seq<Anim>
  {
    [RotKey(i, 1, Zero), RotKey(i, 100, FullTurn), Cycles(i)]
  }

  /** Every command of a spin clip concerns its object, so filtering for that object keeps the clip whole */
  lemma SpinClipOf(i: nat, j: nat)
    ensures AnimsOf(SpinClip(i), j) == if i == j then SpinClip(i) else []
  {
    var c := SpinClip(i);
    assert c[..|c| - 1] == [c[0], c[1]];
    assert [c[0], c[1]][..1] == [c[0]];
    assert [c[0]][..0] == [];
    assert AnimsOf([c[0]], j) == if i == j then [c[0]] else [];
    assert AnimsOf([c[0], c[1]], j) == if i == j then [c[0], c[1]] else [];
  }

  /** Replacing the element between two runs changes only that element */
  lemma ReplaceBetween<T>(a: seq<T>, x: T, y: T, b: seq<T>)
    ensures (a + [x] + b)[|a| := y] == a + [y] + b
  {
  }

  /** Replacing the last element */
  lemma ReplaceLast<T>(a: seq<T>, x: T, y: T)
    ensures (a + [x])[|a| := y] == a + [y]
  {
  }

  lemma AppendAssoc<T>(a: seq<T>, b: seq<T>, c: seq<T>)
    ensures a + (b + c) == (a + b) + c
  {
  }

  /** Every parent reference points at an existing object */
  ghost predicate ParentsInRange(objs: seq<Obj>)
  {
    forall i :: 0 <= i < |objs| && objs[i].parent.Some? ==> objs[i].parent.value < |objs|
  }

  /** Every animation command names an existing object */
  ghost predicate AnimsInRange(anims: seq<Anim>, n: nat)
  {
    forall k :: 0 <= k < |anims| ==> anims[k].obj < n
  }

  class Scene {
    var objs: seq<Obj>
    var anims: seq<Anim>
    /** The scene's active camera */
    var camera: Option<nat>

    /** References by index stay within the objects created so far */
    ghost predicate Valid()
      reads this
    {
      && ParentsInRange(objs)
      && AnimsInRange(anims, |objs|)
      && (camera.Some? ==> camera.value < |objs| && objs[camera.value].shape.Camera?)
    }

    /** A scene after select_all + delete: nothing in it */
    constructor ()
      ensures Valid()
      ensures objs == [] && anims == [] && camera == None
    {
      objs, anims, camera := [], [], None;
    }

    /** primitive_*_add, camera_add, light_add: a new object, returned by index */
    method Add(shape: Shape, loc: Loc, rot: Vec) returns (i: nat)
      requires Valid()
      modifies this
      ensures Valid()
      ensures i == |old(objs)| && objs == old(objs) + [Created(shape, loc, rot)]
      ensures anims == old(anims) && camera == old(camera)
    {
      i := |objs|;
      objs := objs + [Created(shape, loc, rot)];
    }

    /** obj.scale = s */
    method SetScale(i: nat, s: Vec)
      requires Valid() && i < |objs|
      modifies this
      ensures Valid()
      ensures objs == old(objs)[i := old(objs)[i].(scale := s)]
      ensures anims == old(anims) && camera == old(camera)
    {
      objs := objs[i := objs[i].(scale := s)];
    }

    /** obj.rotation_euler[0] = deg */
    method SetRotX(i: nat, deg: real)
      requires Valid() && i < |objs|
      modifies this
      ensures Valid()
      ensures objs == old(objs)[i := old(objs)[i].(rot := old(objs)[i].rot.(x := deg))]
      ensures anims == old(anims) && camera == old(camera)
    {
      objs := objs[i := objs[i].(rot := objs[i].rot.(x := deg))];
    }

    /** obj.rotation_euler[2] = deg */
    method SetRotZ(i: nat, deg: real)
      requires Valid() && i < |objs|
      modifies this
      ensures Valid()
      ensures objs == old(objs)[i := old(objs)[i].(rot := old(objs)[i].rot.(z := deg))]
      ensures anims == old(anims) && camera == old(camera)
    {
      objs := objs[i := objs[i].(rot := objs[i].rot.(z := deg))];
    }

    /** obj.data.materials.append(m) on a mesh that has no material yet */
    method SetMaterial(i: nat, m: Material)
      requires Valid() && i < |objs|
      modifies this
      ensures Valid()
      ensures objs == old(objs)[i := old(objs)[i].(material := m)]
      ensures anims == old(anims) && camera == old(camera)
    {
      objs := objs[i := objs[i].(material := m)];
    }

    /** obj.parent = objs[p] */
    method SetParent(i: nat, p: nat)
      requires Valid() && i < |objs| && p < |objs|
      modifies this
      ensures Valid()
      ensures objs == old(objs)[i := old(objs)[i].(parent := Some(p))]
      ensures anims == old(anims) && camera == old(camera)
    {
      objs := objs[i := objs[i].(parent := Some(p))];
    }

    /** obj.location[0] += dx, on an exact x coordinate */
    method MoveX(i: nat, dx: real)
      requires Valid() && i < |objs| && objs[i].loc.x.At?
      modifies this
      ensures Valid()
      ensures objs == old(objs)[i := old(objs)[i].(loc := old(objs)[i].loc.(x := At(old(objs)[i].loc.x.v + dx)))]
      ensures anims == old(anims) && camera == old(camera)
    {
      objs := objs[i := objs[i].(loc := objs[i].loc.(x := At(objs[i].loc.x.v + dx)))];
    }

    /** obj.location[2] += dz */
    method MoveZ(i: nat, dz: real)
      requires Valid() && i < |objs|
      modifies this
      ensures Valid()
      ensures objs == old(objs)[i := old(objs)[i].(loc := old(objs)[i].loc.(z := old(objs)[i].loc.z + dz))]
      ensures anims == old(anims) && camera == old(camera)
    {
      objs := objs[i := objs[i].(loc := objs[i].loc.(z := objs[i].loc.z + dz))];
    }

    /** obj.keyframe_insert(data_path="rotation_euler", frame=frame) */
    method KeyRotation(i: nat, frame: int)
      requires Valid() && i < |objs|
      modifies this
      ensures Valid()
      ensures objs == old(objs) && camera == old(camera)
      ensures anims == old(anims) + [RotKey(i, frame, objs[i].rot)]
    {
      anims := anims + [RotKey(i, frame, objs[i].rot)];
    }

    /** obj.keyframe_insert(data_path="location", frame=frame) */
    method KeyLocation(i: nat, frame: int)
      requires Valid() && i < |objs|
      modifies this
      ensures Valid()
      ensures objs == old(objs) && camera == old(camera)
      ensures anims == old(anims) + [LocKey(i, frame, objs[i].loc)]
    {
      anims := anims + [LocKey(i, frame, objs[i].loc)];
    }

    /** obj.animation_data.action.fcurves[0].modifiers.new(type='CYCLES') */
    method AddCycles(i: nat)
      requires Valid() && i < |objs|
      modifies this
      ensures Valid()
      ensures anims == old(anims) + [Cycles(i)]
      ensures objs == old(objs) && camera == old(camera)
    {
      anims := anims + [Cycles(i)];
    }

    /** bpy.context.scene.camera = objs[i] */
    method SetCamera(i: nat)
      requires Valid() && i < |objs| && objs[i].shape.Camera?
      modifies this
      ensures Valid()
      ensures camera == Some(i)
      ensures objs == old(objs) && anims == old(anims)
    {
      camera := Some(i);
    }
  }

  /** A primitive created and given its material, the pattern every builder repeats */
  method AddPart(scene: Scene, shape: Shape, loc: Loc, rot: Vec, m: Material) returns (i: nat)
    requires scene.Valid()
    modifies scene
    ensures scene.Valid()
    ensures i == |old(scene.objs)| && scene.objs == old(scene.objs) + [Obj(shape, loc, rot, Ones, m, None)]
    ensures scene.anims == old(scene.anims) && scene.camera == old(scene.camera)
  {
    i := scene.Add(shape, loc, rot);
    scene.SetMaterial(i, m);
  }

  /**
   * The spin animation both rotating builders apply to an object at rest: key
   * rotation_euler at frame 1, turn z to 360 degrees, key it at frame 100, and
   * add CYCLES to the first F-curve of the action.
   */
  method AnimateSpin(scene: Scene, i: nat)
    requires scene.Valid() && i < |scene.objs| && scene.objs[i].rot == Zero
    modifies scene
    ensures scene.Valid()
    ensures scene.objs == old(scene.objs)[i := old(scene.objs)[i].(rot := FullTurn)]
    ensures scene.anims == old(scene.anims) + SpinClip(i)
    ensures scene.camera == old(scene.camera)
  {
    scene.KeyRotation(i, 1);
    scene.SetRotZ(i, 360.0);
    scene.KeyRotation(i, 100);
    scene.AddCycles(i);
  }
}
