/**
 * The run-builder step of hydro_master.py: the component string of the config
 * picks one builder by exact string comparison; any other string builds
 * nothing, and the script goes on to save the scene as it is.
 */
module Dispatch {
  import opened Outcomes
  import opened Resolve
  import opened Scene
  import Generator
  import Turbine
  import Intake

  datatype Builder = GeneratorBuilder | TurbineBuilder | IntakeBuilder

  /** The builder the if/elif chain runs for a component string */
  function BuilderFor(component: string): Option<Builder>
  {
    if component == "generator" then Some(GeneratorBuilder)
    else if component == "turbine" then Some(TurbineBuilder)
    else if component == "intake" then Some(IntakeBuilder)
    else None
  }

  /** A builder runs exactly for the three literal strings, each picking a different builder */
  lemma BuilderForExact(component: string)
    ensures BuilderFor(component).Some? <==> component in ["generator", "turbine", "intake"]
    ensures BuilderFor(component) == Some(IntakeBuilder) <==> component == "intake"
    ensures BuilderFor(component) == Some(GeneratorBuilder) <==> component == "generator"
    ensures BuilderFor(component) == Some(TurbineBuilder) <==> component == "turbine"
  {
  }

  /** The comparison is exact: no case folding, no trimming, no prefix match */
  lemma BuilderForStrict()
    ensures BuilderFor("Generator") == None
    ensures BuilderFor(" turbine") == None
    ensures BuilderFor("intake_structure") == None
    ensures BuilderFor("") == None
  {
    assert "Generator"[0] != "generator"[0];
    assert " turbine"[0] != "turbine"[0];
    assert |"intake_structure"| != |"intake"|;
  }

  /** Which error the chosen builder raises, if any; no builder raises nothing */
  function DispatchError(component: string, v: Values): Option<BuildError>
  {
    match BuilderFor(component)
    case None => None
    case Some(GeneratorBuilder) => ErrorOf(Generator.GeneratorPlan(v))
    case Some(TurbineBuilder) => ErrorOf(Turbine.TurbinePlan(v))
    case Some(IntakeBuilder) => ErrorOf(Intake.IntakePlan(v))
  }

  /** The objects a successful dispatch appends to a scene holding base objects */
  function DispatchObjs(component: string, v: Values, base: nat): seq<Obj>
    requires DispatchError(component, v).None?
  {
    match BuilderFor(component)
    case None => []
    case Some(GeneratorBuilder) => Generator.GeneratorObjs(Generator.GeneratorPlan(v).value)
    case Some(TurbineBuilder) => Turbine.TurbineObjs(Turbine.TurbinePlan(v).value, base)
    case Some(IntakeBuilder) => Intake.IntakeObjs(Intake.IntakePlan(v).value)
  }

  /** The animation commands a successful dispatch appends */
  function DispatchAnims(component: string, v: Values, base: nat): seq<Anim>
    requires DispatchError(component, v).None?
  {
    match BuilderFor(component)
    case None => []
    case Some(GeneratorBuilder) => Generator.GeneratorAnims(base)
    case Some(TurbineBuilder) => Turbine.TurbineAnims(Turbine.TurbinePlan(v).value, base)
    case Some(IntakeBuilder) => Intake.IntakeAnims(Intake.IntakePlan(v).value, base)
  }

  /** An unmatched component raises nothing and adds neither objects nor keyframes */
  lemma UnmatchedBuildsNothing(component: string, v: Values, base: nat)
    requires BuilderFor(component).None?
    ensures DispatchError(component, v).None?
    ensures DispatchObjs(component, v, base) == [] && DispatchAnims(component, v, base) == []
  {
  }

  /** if component == "generator": ... elif "turbine": ... elif "intake": ... */
  method RunBuilder(scene: Scene, component: string, v: Values) returns (err: Option<BuildError>)
    requires scene.Valid()
    modifies scene
    ensures scene.Valid()
    ensures err == DispatchError(component, v)
    ensures err.None? ==>
              && scene.objs == old(scene.objs) + DispatchObjs(component, v, |old(scene.objs)|)
              && scene.anims == old(scene.anims) + DispatchAnims(component, v, |old(scene.objs)|)
    // only the intake build sets the scene's camera
    ensures err.None? && BuilderFor(component) == Some(IntakeBuilder) ==>
              scene.camera.Some? && scene.camera.value == Intake.CameraOf(v, |old(scene.objs)|)
    ensures err.None? && BuilderFor(component) != Some(IntakeBuilder) ==> scene.camera == old(scene.camera)
    ensures BuilderFor(component).None? ==>
              scene.objs == old(scene.objs) && scene.anims == old(scene.anims) && scene.camera == old(scene.camera)
  {
    if component == "generator" {
      err := Generator.BuildGenerator(scene, v);
    } else if component == "turbine" {
      err := Turbine.BuildTurbine(scene, v);
    } else if component == "intake" {
      err := Intake.BuildIntake(scene, v);
    } else {
      err := None;
    }
  }

  /** The whole script on a config: the scene is cleared, then the chosen builder runs */
  method RunScript(component: string, v: Values) returns (scene: Scene, err: Option<BuildError>)
    ensures fresh(scene) && scene.Valid()
    ensures err == DispatchError(component, v)
    ensures err.None? ==>
              && scene.objs == DispatchObjs(component, v, 0)
              && scene.anims == DispatchAnims(component, v, 0)
    ensures err.None? && BuilderFor(component) == Some(IntakeBuilder) ==>
              scene.camera.Some? && scene.camera.value == Intake.CameraOf(v, 0)
    ensures err.None? && BuilderFor(component) != Some(IntakeBuilder) ==> scene.camera.None?
  {
    scene := new Scene();
    err := RunBuilder(scene, component, v);
  }
}
