/**
 * src/features/game/game/Runner3D.ts: the character rig. It owns at most one
 * loaded model in a scene it shares with the game, applies the per-character
 * configuration tables when a model arrives, and computes the running or
 * ducking pose. Loading is modelled as one sequential step whose outcome
 * (the loader resolving or rejecting) is a parameter.
 */
module Runner3D {
  import opened Wrappers
  import opened Strings
  import opened Scenes
  import GameStore

  type RunnerModelType = GameStore.RunnerModel

  /** `Math.PI` as the decimal the runtime prints for it. */
  const PI: real := 3.141592653589793

  /** Ground line of the older 2D layer, in pixels, and its pixel-to-world factor. */
  const PHASER_GROUND_Y: real := 320.0
  const PIXEL_TO_WORLD: real := 0.004

  const DUCK_TILT: real := 0.3
  const RUN_STEP: real := 0.15
  const RUN_SWAY: real := 0.08

  datatype Vec3 = Vec3(x: real, y: real, z: real)

  /** The two loaders; the model they produce is a GLTF scene group or an STL mesh. */
  datatype Loader = GltfLoader | StlLoader

  /** The object currently attached as the character, with its transform. */
  datatype LoadedModel = LoadedModel(
    id: nat,
    kind: Loader,
    tint: int,
    position: Vec3,
    rotation: Vec3,
    scale: Vec3)

  /** `RUNNER_COLORS`: a 24-bit RGB value per character. */
  function RunnerColor(t: RunnerModelType): (c: int)
    ensures 0 <= c < 0x100_0000
  {
    match t
    case FanFan => 0xec4899
    case Rabbit => 0x8b5cf6
    case Tako => 0x10b981
  }

  /** No two characters share a tint. */
  lemma RunnerColorsDistinct(a: RunnerModelType, b: RunnerModelType)
    requires a != b
    ensures RunnerColor(a) != RunnerColor(b)
  {
  }

  /** `RUNNER_SCALES`: every character is shrunk, none flattened to nothing. */
  function RunnerScale(t: RunnerModelType): (s: real)
    ensures 0.0 < s < 1.0
  {
    match t
    case FanFan => 0.8
    case Rabbit => 0.3
    case Tako => 0.8
  }

  /** `RUNNER_Y_OFFSETS`: how far above the ground line each character stands. */
  function RunnerYOffset(t: RunnerModelType): (y: real)
    ensures 0.0 < y
  {
    match t
    case FanFan => 0.4
    case Rabbit => 0.5
    case Tako => 0.4
  }

  /**
   * `RUNNER_BASE_ROTATIONS`: the STL characters are stood up about x and
   * turned about z; the GLB character is only turned about y.
   */
  function RunnerBaseRotation(t: RunnerModelType): (r: Vec3)
    ensures t != GameStore.Tako ==> r.y == 0.0 && r.x == -r.z
    ensures t == GameStore.Tako ==> r.x == 0.0 && r.z == 0.0
    ensures t != GameStore.Tako ==> r.x < 0.0
    ensures t == GameStore.Tako ==> r.y != 0.0
  {
    match t
    case FanFan => Vec3(-PI / 2.0, 0.0, PI / 2.0)
    case Rabbit => Vec3(-PI / 2.0, 0.0, PI / 2.0)
    case Tako => Vec3(0.0, PI / 2.0, 0.0)
  }

  function Uniform(s: real): Vec3 {
    Vec3(s, s, s)
  }

  /** The squashed scale of the ducking pose. */
  function DuckScale(s: real): Vec3 {
    Vec3(s * 0.7, s * 0.6, s * 0.7)
  }

  /**
   * The loader `loadModel` picks: GLTF exactly when the lower-cased URL ends
   * in `.glb`; every other URL, `.gltf` included, goes to the STL loader.
   */
  function LoaderFor(url: string): (l: Loader)
    ensures l == GltfLoader <==> EndsWith(ToLower(url), ".glb")
  {
    if EndsWith(ToLower(url), ".glb") then GltfLoader else StlLoader
  }

  /** A `.gltf` URL is handed to the STL loader. */
  lemma GltfSuffixGoesToStl(url: string)
    requires EndsWith(ToLower(url), ".gltf")
    ensures LoaderFor(url) == StlLoader
  {
    var l := ToLower(url);
    EndsWithLastChar(l, ".gltf");
    if EndsWith(l, ".glb") {
      EndsWithLastChar(l, ".glb");
      assert false;
    }
  }

  /** The loader choice does not depend on letter case. */
  lemma LoaderForIgnoresCase(a: string, b: string)
    requires SameUpToCase(a, b)
    ensures LoaderFor(a) == LoaderFor(b)
  {
    SameUpToCaseLower(a, b);
  }

  class Runner {
    const scene: Scene
    var model: Option<LoadedModel>
    var modelType: RunnerModelType
    var runTime: real
    var baseRotationX: real
    var baseRotationY: real
    var baseRotationZ: real

    /**
     * The model, when there is one, is attached to the scene, carries the
     * tint and base rotation of the current character, keeps the base
     * y/z rotation, and has either its running or its ducking scale.
     */
    ghost predicate Valid()
      reads this, scene
    {
      && scene.Valid()
      && (model.Some? ==>
            && model.value.id in scene.objects
            && model.value.tint == RunnerColor(modelType)
            && Vec3(baseRotationX, baseRotationY, baseRotationZ) == RunnerBaseRotation(modelType)
            && model.value.rotation.y == baseRotationY
            && model.value.rotation.z == baseRotationZ
            && (model.value.scale == Uniform(RunnerScale(modelType))
                || model.value.scale == DuckScale(RunnerScale(modelType))))
    }

    /** A rig drawing into the game's scene, with no model yet. */
    constructor (scene: Scene)
      requires scene.Valid()
      ensures Valid() && this.scene == scene
      ensures model.None? && modelType == GameStore.FanFan && runTime == 0.0
      ensures baseRotationX == 0.0 && baseRotationY == 0.0 && baseRotationZ == 0.0
    {
      this.scene := scene;
      model := None;
      modelType := GameStore.FanFan;
      runTime := 0.0;
      baseRotationX := 0.0;
      baseRotationY := 0.0;
      baseRotationZ := 0.0;
    }

    /** `getModel()`: the attached model, if any. */
    function GetModel(): (m: Option<LoadedModel>)
      reads this, scene
      requires Valid()
      ensures m.Some? ==> m.value.id in scene.objects
    {
      model
    }

    /**
     * `loadModel(url, t)`. The requested character is recorded first, the old
     * model leaves the scene, and only a load that succeeds attaches a new
     * model, with the character's scale, base rotation and tint.
     */
    method LoadModel(url: string, t: RunnerModelType, loaded: bool)
      requires Valid()
      modifies this`model, this`modelType, this`baseRotationX, this`baseRotationY, this`baseRotationZ
      modifies scene
      ensures Valid()
      ensures modelType == t && runTime == old(runTime)
      ensures scene.nextId == old(scene.nextId) + if loaded then 1 else 0
      ensures !loaded ==> model.None?
      ensures !loaded ==> scene.objects == old(scene.objects) - OldIds(old(model))
      ensures !loaded ==> baseRotationX == old(baseRotationX) && baseRotationY == old(baseRotationY)
                          && baseRotationZ == old(baseRotationZ)
      ensures loaded ==> model == Some(LoadedModel(old(scene.nextId), LoaderFor(url), RunnerColor(t),
                                                   Vec3(0.0, 0.0, 0.0), RunnerBaseRotation(t),
                                                   Uniform(RunnerScale(t))))
      ensures loaded ==> scene.objects == old(scene.objects) - OldIds(old(model)) + {old(scene.nextId)}
      ensures loaded && old(model).Some? ==> old(model).value.id !in scene.objects
    {
      modelType := t;
      if model.Some? {
        scene.Remove(model.value.id);
        model := None;
      }
      if loaded {
        var id := scene.NewObject();
        var rot := RunnerBaseRotation(t);
        baseRotationX, baseRotationY, baseRotationZ := rot.x, rot.y, rot.z;
        model := Some(LoadedModel(id, LoaderFor(url), RunnerColor(t), Vec3(0.0, 0.0, 0.0), rot,
                                  Uniform(RunnerScale(t))));
        scene.Add(id);
      }
    }

    /**
     * `update(bodyY, ducking)`: places the model from a 2D body height (at the
     * ground line it stands at its character's offset), centred in x and z,
     * then applies the pose.
     */
    method Update(bodyY: real, ducking: bool, sin: real -> real)
      requires Valid()
      requires forall t :: -1.0 <= sin(t) <= 1.0
      modifies this`model, this`runTime
      ensures Valid()
      ensures old(model).None? ==> model == old(model) && runTime == old(runTime)
      ensures old(model).Some? ==>
                && model.Some?
                && model.value.position == Vec3(0.0, (bodyY - PHASER_GROUND_Y) * -PIXEL_TO_WORLD + RunnerYOffset(modelType), 0.0)
      ensures old(model).Some? && bodyY == PHASER_GROUND_Y ==>
                model.Some? && model.value.position == Vec3(0.0, RunnerYOffset(modelType), 0.0)
      ensures old(model).Some? ==> Posed(old(model).value, old(runTime), ducking, sin)
    {
      if model.None? {
        return;
      }
      var worldY := (bodyY - PHASER_GROUND_Y) * -PIXEL_TO_WORLD;
      var offsetY := RunnerYOffset(modelType);
      model := Some(model.value.(position := Vec3(0.0, worldY + offsetY, 0.0)));
      ApplyRunPose(ducking, sin);
    }

    /** `updateWorld(worldY, ducking)`: sets only the height; x and z are the caller's. */
    method UpdateWorld(worldY: real, ducking: bool, sin: real -> real)
      requires Valid()
      requires forall t :: -1.0 <= sin(t) <= 1.0
      modifies this`model, this`runTime
      ensures Valid()
      ensures old(model).None? ==> model == old(model) && runTime == old(runTime)
      ensures old(model).Some? ==>
                && model.Some?
                && model.value.position == old(model).value.position.(y := worldY + RunnerYOffset(modelType))
      ensures old(model).Some? ==> Posed(old(model).value, old(runTime), ducking, sin)
    {
      if model.None? {
        return;
      }
      var offsetY := RunnerYOffset(modelType);
      model := Some(model.value.(position := model.value.position.(y := worldY + offsetY)));
      ApplyRunPose(ducking, sin);
    }

    /**
     * The pose the model has after `applyRunPose`, given the model and run
     * time before it: ducking squashes and tilts without advancing the run
     * clock; running restores the scale, advances the clock and sways about x
     * by at most RUN_SWAY. The y and z rotations stay at the base values.
     */
    ghost predicate Posed(before: LoadedModel, runTime0: real, ducking: bool, sin: real -> real)
      reads this
    {
      && model.Some?
      && model.value.id == before.id && model.value.tint == before.tint && model.value.kind == before.kind
      && model.value.rotation.y == baseRotationY && model.value.rotation.z == baseRotationZ
      && (ducking ==>
            && model.value.scale == DuckScale(RunnerScale(modelType))
            && model.value.rotation.x == baseRotationX + DUCK_TILT
            && runTime == runTime0)
      && (!ducking ==>
            && model.value.scale == Uniform(RunnerScale(modelType))
            && runTime == runTime0 + RUN_STEP
            && model.value.rotation.x == baseRotationX + sin(runTime) * RUN_SWAY
            && baseRotationX - RUN_SWAY <= model.value.rotation.x <= baseRotationX + RUN_SWAY)
    }

    /** `applyRunPose(ducking)`: nothing happens without a model. */
    method ApplyRunPose(ducking: bool, sin: real -> real)
      requires Valid()
      requires forall t :: -1.0 <= sin(t) <= 1.0
      modifies this`model, this`runTime
      ensures Valid()
      ensures old(model).None? ==> model == old(model) && runTime == old(runTime)
      ensures old(model).Some? ==> model.Some? && model.value.position == old(model).value.position
      ensures old(model).Some? ==> Posed(old(model).value, old(runTime), ducking, sin)
    {
      if model.None? {
        return;
      }
      var s := RunnerScale(modelType);
      var m := model.value;
      if ducking {
        m := m.(scale := DuckScale(s), rotation := m.rotation.(x := baseRotationX + DUCK_TILT));
      } else {
        runTime := runTime + RUN_STEP;
        var sway := sin(runTime);
        m := m.(scale := Uniform(s), rotation := m.rotation.(x := baseRotationX + sway * RUN_SWAY));
      }
      m := m.(rotation := m.rotation.(y := baseRotationY, z := baseRotationZ));
      model := Some(m);
    }
  }

  /** The ids of a model that may be attached. */
  function OldIds(m: Option<LoadedModel>): set<nat> {
    if m.Some? then {m.value.id} else {}
  }
}
