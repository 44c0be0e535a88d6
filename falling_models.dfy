/**
 * src/components/three/FallingModelsScene.tsx: the decorative background of
 * toys falling through the hero section. The toy table is built by a loop;
 * each toy's frame callback turns it and lets it fall, wrapping back to the
 * top once it drops below the bottom edge.
 */
module FallingModels {
  import opened Wrappers
  import opened Strings
  import opened Constants
  import MM = ModelMesh

  const ROTATE_SPEED: real := 0.35
  const MODEL_SCALE: real := 0.4
  const RESET_Y: real := -1.5
  const START_Y: real := 1.3
  const TOY_COUNT: nat := 8

  const COLORS: seq<string> := ["#A855F7", "#10B981", "#F59E0B", "#EC4899", "#3B82F6",
                                "#8B5CF6", "#14B8A6", "#F97316", "#EF4444", "#06B6D4"]
  const X_POSITIONS: seq<real> := [-0.85, -0.6, -0.35, -0.1, 0.15, 0.4, 0.65, 0.9]
  const FALL_SPEEDS: seq<real> := [0.12, 0.14, 0.16, 0.18, 0.2, 0.15, 0.13, 0.19, 0.17, 0.21]

  /** The three toy models, FanFan and Rabbit as STL, Tako as GLB. */
  function ModelUrls(base: string): seq<string> {
    [ModelAssetUrl(base, "/models/FanFan.stl"),
     ModelAssetUrl(base, "/models/Rabbit.stl"),
     ModelAssetUrl(base, "/models/Tako.glb")]
  }

  datatype ToyConfig = ToyConfig(modelUrl: string, color: string, initialX: real, initialY: real, fallSpeed: real)

  /** Toy i's starting height: the toys are spread evenly from START_Y down to RESET_Y. */
  function InitialY(i: nat): real {
    START_Y - (i as real / (TOY_COUNT - 1) as real) * (START_Y - RESET_Y)
  }

  /** Toy i of the table: every attribute cycles through its own table by index. */
  function ToyAt(base: string, i: nat): (t: ToyConfig)
    ensures t.modelUrl == ModelUrls(base)[i % 3] && t.initialY == InitialY(i)
    ensures 0.12 <= t.fallSpeed <= 0.21 && -0.85 <= t.initialX <= 0.9
  {
    ToyConfig(ModelUrls(base)[i % 3], COLORS[i % |COLORS|], X_POSITIONS[i % |X_POSITIONS|],
              InitialY(i), FALL_SPEEDS[i % |FALL_SPEEDS|])
  }

  /** `createToys()`: eight configs, toy i being ToyAt(base, i). */
  method CreateToys(base: string) returns (toys: seq<ToyConfig>)
    ensures |toys| == TOY_COUNT
    ensures forall i :: 0 <= i < |toys| ==> toys[i] == ToyAt(base, i)
  {
    var range := START_Y - RESET_Y;
    var count := TOY_COUNT;
    toys := [];
    for i := 0 to count
      invariant |toys| == i
      invariant forall k :: 0 <= k < i ==> toys[k] == ToyAt(base, k)
    {
      var initialY := START_Y - (i as real / (count - 1) as real) * range;
      var modelUrls := [ModelAssetUrl(base, "/models/FanFan.stl"),
                        ModelAssetUrl(base, "/models/Rabbit.stl"),
                        ModelAssetUrl(base, "/models/Tako.glb")];
      var mi := i % |modelUrls|;
      var ci := i % |COLORS|;
      var xi := i % |X_POSITIONS|;
      var fi := i % |FALL_SPEEDS|;
      var toy := ToyConfig(modelUrls[mi], COLORS[ci], X_POSITIONS[xi], initialY, FALL_SPEEDS[fi]);
      assert toy == ToyAt(base, i);
      toys := toys + [toy];
    }
  }

  /**
   * The starting heights run from START_Y for the first toy to RESET_Y for
   * the last, strictly decreasing, all inside the fall band.
   */
  lemma InitialHeights()
    ensures InitialY(0) == START_Y && InitialY(TOY_COUNT - 1) == RESET_Y
    ensures forall i, j :: 0 <= i < j ==> InitialY(i) > InitialY(j)
    ensures forall i :: 0 <= i < TOY_COUNT ==> RESET_Y <= InitialY(i) <= START_Y
  {
    forall i: nat, j: nat | i < j ensures InitialY(i) > InitialY(j) {
      assert InitialY(i) == START_Y - i as real * 0.4;
      assert InitialY(j) == START_Y - j as real * 0.4;
    }
    forall i: nat | i < TOY_COUNT ensures RESET_Y <= InitialY(i) <= START_Y {
      assert InitialY(i) == START_Y - i as real * 0.4;
    }
  }

  /**
   * Every table index is in range, and the models cycle FanFan, Rabbit,
   * Tako: toy i and toy i + 3 show the same model.
   */
  lemma ToyTables(base: string, i: nat)
    ensures ToyAt(base, i).modelUrl == ModelUrls(base)[i % 3] == ToyAt(base, i + 3).modelUrl
    ensures ToyAt(base, i).color in COLORS && ToyAt(base, i).initialX in X_POSITIONS
    ensures ToyAt(base, i).fallSpeed in FALL_SPEEDS
    ensures i < TOY_COUNT ==> 0.12 <= ToyAt(base, i).fallSpeed <= 0.21
  {
    assert (i + 3) % 3 == i % 3;
  }

  /**
   * Through ModelMesh the falling Tako (every third toy) renders as an
   * upright GLB at 0.8 of the toy scale, and FanFan and Rabbit as STL at
   * the toy scale, whatever the base URL.
   */
  lemma ToyMeshes(base: string, i: nat)
    ensures var t := ToyAt(base, i);
            i % 3 == 2 ==> MM.Dispatch(t.modelUrl, Some(t.color), MODEL_SCALE) ==
                           MM.GlbMesh(t.modelUrl, Some(t.color), 0.32, true)
    ensures var t := ToyAt(base, i);
            i % 3 != 2 ==> MM.Dispatch(t.modelUrl, Some(t.color), MODEL_SCALE) ==
                           MM.StlMesh(t.modelUrl, Some(t.color), MODEL_SCALE)
  {
    var url := ModelUrls(base)[i % 3];
    if i % 3 == 2 {
      TakoAsset(base);
    } else {
      var path := if i % 3 == 0 then "/models/FanFan.stl" else "/models/Rabbit.stl";
      assert path[|path| - 4..] == ".stl";
      StlAsset(base, path);
    }
  }

  /** The Tako asset is a GLB whose lower-cased URL mentions `tako`. */
  lemma TakoAsset(base: string)
    ensures MM.IsGlb(ModelAssetUrl(base, "/models/Tako.glb"))
    ensures MM.IsTako(ModelAssetUrl(base, "/models/Tako.glb"))
  {
    var path := "/models/Tako.glb";
    assert path[|path| - 4..] == ".glb";
    LowerAssetEndsWith(base, path, ".glb");
    TakoAssetLower(base);
  }

  /** The lower-cased Tako URL contains `tako`, just after the base and `models/`. */
  lemma TakoAssetLower(base: string)
    ensures Contains(ToLower(ModelAssetUrl(base, "/models/Tako.glb")), "tako")
  {
    var url := ModelAssetUrl(base, "/models/Tako.glb");
    var path := "models/Tako.glb";
    assert url == base + path;
    var l := ToLower(url);
    var k := |base| + 7;
    forall j | 0 <= j < 4 ensures l[k + j] == "tako"[j] {
      assert url[k + j] == path[7 + j];
    }
    assert l[k..k + 4] == "tako";
    ContainsAt(l, "tako", k);
  }

  /** A lower-case extension of the asset path survives resolution and lower-casing. */
  lemma LowerAssetEndsWith(base: string, path: string, ext: string)
    requires ext == ".glb" || ext == ".stl"
    requires EndsWith(path, ext)
    ensures EndsWith(ToLower(ModelAssetUrl(base, path)), ext)
  {
    assert ext[0] == '.';
    ModelAssetUrlEndsWith(base, path, ext);
    assert NoUpper(ext);
    EndsWithLower(ModelAssetUrl(base, path), ext);
  }

  /** A name ending in `.stl` ends in neither `.glb` nor `.gltf`. */
  lemma StlIsNotGlb(l: string)
    requires EndsWith(l, ".stl")
    ensures !EndsWith(l, ".glb") && !EndsWith(l, ".gltf")
  {
    EndsWithDistinct(l, ".stl", ".glb");
    EndsWithLastCharDiffers(l, ".stl", ".gltf");
  }

  /** An `.stl` asset is never taken for a GLB. */
  lemma StlAsset(base: string, path: string)
    requires EndsWith(path, ".stl")
    ensures !MM.IsGlb(ModelAssetUrl(base, path))
  {
    LowerAssetEndsWith(base, path, ".stl");
    StlIsNotGlb(ToLower(ModelAssetUrl(base, path)));
  }

  /**
   * One frame's fall: down by `delta * fallSpeed`, back to START_Y once
   * below RESET_Y. The height never ends below RESET_Y, and a toy in the
   * band that does not move up stays in the band.
   */
  function FallStep(y: real, delta: real, fallSpeed: real): (r: real)
    ensures r >= RESET_Y
    ensures y - delta * fallSpeed >= RESET_Y ==> r == y - delta * fallSpeed
    ensures y - delta * fallSpeed < RESET_Y ==> r == START_Y
    ensures y <= START_Y && delta * fallSpeed >= 0.0 ==> r <= START_Y
  {
    var next := y - delta * fallSpeed;
    if next < RESET_Y then START_Y else next
  }

  datatype Euler = Euler(x: real, y: real, z: real)

  /**
   * `FallingToy`: the group's height and rotation and the accumulated spin.
   * The random initial rotation is a constructor argument.
   */
  class FallingToy {
    const config: ToyConfig
    const initialRotation: Euler
    var y: real
    var rotationAccum: real
    var rotation: Euler

    /** The toy is inside the fall band and does not fall upwards. */
    ghost predicate Valid()
      reads this
    {
      RESET_Y <= y <= START_Y && config.fallSpeed >= 0.0
    }

    /** The group as mounted at the toy's starting position, not yet turned. */
    constructor (config: ToyConfig, initialRotation: Euler)
      requires RESET_Y <= config.initialY <= START_Y && config.fallSpeed >= 0.0
      ensures Valid()
      ensures this.config == config && this.initialRotation == initialRotation
      ensures y == config.initialY && rotationAccum == 0.0 && rotation == Euler(0.0, 0.0, 0.0)
    {
      this.config := config;
      this.initialRotation := initialRotation;
      y := config.initialY;
      rotationAccum := 0.0;
      rotation := Euler(0.0, 0.0, 0.0);
    }

    /**
     * The `useFrame` callback: spin about y by `delta * ROTATE_SPEED`, then
     * fall with wrap-around. A frame with a non-negative delta (the frame
     * clock never runs backwards) keeps the toy inside the band.
     */
    method Frame(delta: real)
      modifies this`y, this`rotationAccum, this`rotation
      ensures old(Valid()) && delta >= 0.0 ==> Valid()
      ensures y == FallStep(old(y), delta, config.fallSpeed)
      ensures rotationAccum == old(rotationAccum) + delta * ROTATE_SPEED
      ensures rotation == Euler(initialRotation.x, initialRotation.y + rotationAccum, initialRotation.z)
    {
      rotationAccum := rotationAccum + delta * ROTATE_SPEED;
      rotation := Euler(initialRotation.x, initialRotation.y + rotationAccum, initialRotation.z);
      y := y - delta * config.fallSpeed;
      if y < RESET_Y {
        y := START_Y;
      }
    }
  }

  /** Every toy of the table can be mounted: it starts inside the band with a positive speed. */
  lemma ToysFitScene(base: string, i: nat)
    requires i < TOY_COUNT
    ensures RESET_Y <= ToyAt(base, i).initialY <= START_Y && ToyAt(base, i).fallSpeed > 0.0
  {
    InitialHeights();
  }
}
