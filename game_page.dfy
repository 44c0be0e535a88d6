/**
 * src/features/game/components/GamePage.tsx: the runner's game record
 * (`gameRef.current`) and what the page does with it: `startGame`, `jump`,
 * the input guards, the status mirror, the model (re)loads and one frame of
 * `animate`. The scene, the store and the rig are the shared objects the
 * page drives; rendering, lights, ground and camera are not modelled.
 */
module GamePage {
  import opened Wrappers
  import opened Strings
  import opened Constants
  import opened Scenes
  import opened GameRules
  import GameStore
  import R = Runner3D

  /** The character's name as it appears in its asset path. */
  function RunnerName(m: GameStore.RunnerModel): string {
    match m
    case FanFan => "FanFan"
    case Rabbit => "Rabbit"
    case Tako => "Tako"
  }

  /**
   * `getModelUrl(model)`: Tako is the only GLB asset, the others are STL;
   * so the rig loads Tako with the GLTF loader and the others with the STL
   * loader, whatever the base URL.
   */
  function GetModelUrl(base: string, m: GameStore.RunnerModel): (url: string)
    ensures StartsWith(url, base)
    ensures EndsWith(url, "models/" + RunnerName(m) + (if m == GameStore.Tako then ".glb" else ".stl"))
    ensures R.LoaderFor(url) == R.GltfLoader <==> m == GameStore.Tako
  {
    var ext := if m == GameStore.Tako then ".glb" else ".stl";
    var path := "models/" + RunnerName(m) + ext;
    assert path[0] == 'm' && path[|path| - 4..] == ext;
    assert EndsWith(path, path) by { assert path[0..] == path; }
    assert !StartsWith(path, "/") by { assert path[..1][0] == 'm'; }
    EndsWithAppend(base, path, path);
    AssetUrlLoader(base, path, ext);
    var url := ModelAssetUrl(base, path);
    assert url == base + path;
    url
  }

  /** An asset ending in `.glb` is loaded as GLTF, one ending in `.stl` is not, whatever the base. */
  lemma AssetUrlLoader(base: string, path: string, suffix: string)
    requires suffix == ".glb" || suffix == ".stl"
    requires EndsWith(path, suffix)
    ensures R.LoaderFor(ModelAssetUrl(base, path)) == R.GltfLoader <==> suffix == ".glb"
  {
    assert suffix[0] == '.';
    ModelAssetUrlEndsWith(base, path, suffix);
    var url := ModelAssetUrl(base, path);
    assert NoUpper(suffix);
    EndsWithLower(url, suffix);
    if suffix == ".stl" {
      EndsWithDistinct(ToLower(url), ".stl", ".glb");
    }
  }

  /** The status mirror: the store's status as the frame loop sees it. */
  function StatusToGameState(s: GameStore.GameStatus): (g: GameState)
    ensures g == Playing <==> s == GameStore.Playing
    ensures g == GameOver <==> s == GameStore.GameOver
  {
    if s == GameStore.Playing then Playing
    else if s == GameStore.GameOver then GameOver
    else Start
  }

  function Abs(x: real): (r: real)
    ensures r >= 0.0 && (r == x || r == -x)
  {
    if x < 0.0 then -x else x
  }

  const RUN_BOUNCE: real := 0.15
  const IDLE_BOB: real := 0.3

  /**
   * Where a frame puts the character. While playing it stands at its body
   * height plus its character offset, bouncing by at most RUN_BOUNCE only
   * when on the ground; otherwise it bobs by at most IDLE_BOB around its
   * resting height. The bounce is cosmetic: collisions use the body height.
   * `runWave` is `Math.sin(time * 15)` and `idleWave` is `Math.sin(time * 2)`
   * for the frame's clock reading `time`.
   */
  function PlayerPosition(playing: bool, posY: real, offset: real, runWave: real, idleWave: real): (p: R.Vec3)
    ensures p.x == PLAYER_X && p.z == 0.0
    ensures playing ==> p.y >= posY + PLAYER_BASE_Y + offset
    ensures playing && posY != 0.0 ==> p.y == posY + PLAYER_BASE_Y + offset
    ensures playing && -1.0 <= runWave <= 1.0 ==> p.y <= posY + PLAYER_BASE_Y + offset + RUN_BOUNCE
    ensures !playing && -1.0 <= idleWave <= 1.0 ==>
              PLAYER_BASE_Y + offset - IDLE_BOB <= p.y <= PLAYER_BASE_Y + offset + IDLE_BOB
  {
    if playing then
      var runBounce := if posY == 0.0 then Abs(runWave) * RUN_BOUNCE else 0.0;
      R.Vec3(PLAYER_X, posY + PLAYER_BASE_Y + offset + runBounce, 0.0)
    else
      R.Vec3(PLAYER_X, PLAYER_BASE_Y + offset + idleWave * IDLE_BOB, 0.0)
  }

  /** A loaded model moved to p; no model, nothing to move. */
  function Placed(m: Option<R.LoadedModel>, p: R.Vec3): (r: Option<R.LoadedModel>)
    ensures r.Some? <==> m.Some?
    ensures r.Some? ==> r.value.position == p && r.value == m.value.(position := p)
  {
    if m.Some? then Some(m.value.(position := p)) else None
  }

  class Game {
    const baseUrl: string
    const scene: Scene
    const store: GameStore.GameStore
    const runner: R.Runner

    var posY: real
    var velocityY: real
    var isJumping: bool
    var jumpsRemaining: int
    var obstacleTimer: int
    var lastObstacleScaleY: int
    var score: int
    var gameState: GameState
    var obstacles: seq<Obstacle>
    var groundDotsX: real
    /** Heights of the obstacles spawned since the run began, in spawn order. */
    ghost var spawnedHeights: seq<int>

    /** The record as the frame rules see it. */
    function Snapshot(): World
      reads this
    {
      World(Body(posY, velocityY, isJumping, jumpsRemaining), obstacleTimer, lastObstacleScaleY,
            score, gameState, obstacles, groundDotsX)
    }

    /**
     * The rig draws into the page's scene; the record keeps WorldOk; every
     * obstacle's mesh is in the scene and is not the character's model; the
     * run so far never spawned two tall obstacles in a row; and the score is
     * exactly SCORE_PER_SPAWN per spawn.
     */
    ghost predicate Valid()
      reads this, scene, store, runner
    {
      && runner.scene == scene
      && scene.Valid() && store.Valid() && runner.Valid()
      && WorldOk(Snapshot())
      && Ledger()
      && (runner.model.Some? ==> runner.model.value.id !in Meshes(obstacles))
    }

    /**
     * Every obstacle's mesh is in the scene; the run so far never spawned two
     * tall obstacles in a row; the score is exactly SCORE_PER_SPAWN per spawn.
     */
    ghost predicate Ledger()
      reads this, scene
    {
      && Meshes(obstacles) <= scene.objects
      && NoTallPair(spawnedHeights)
      && lastObstacleScaleY == LastHeight(spawnedHeights)
      && score == SCORE_PER_SPAWN * |spawnedHeights|
    }

    /**
     * Mounting the page: the store goes back to loading, and the record
     * starts at rest with no obstacles in state START, with a new scene and
     * a rig drawing into it.
     */
    constructor (baseUrl: string, store: GameStore.GameStore)
      requires store.Valid()
      modifies store`status
      ensures Valid() && fresh(scene) && fresh(runner)
      ensures this.baseUrl == baseUrl && this.store == store
      ensures Snapshot() == World(Rest, 0, 1, 0, Start, [], 0.0)
      ensures scene.objects == {} && runner.model.None?
      ensures store.status == GameStore.Loading
      ensures store.score == old(store.score) && store.highScore == old(store.highScore)
      ensures store.selectedModel == old(store.selectedModel)
    {
      store.SetStatus(GameStore.Loading);
      var s := new Scene();
      this.baseUrl := baseUrl;
      this.store := store;
      this.scene := s;
      this.runner := new R.Runner(s);
      posY, velocityY, isJumping, jumpsRemaining := 0.0, 0.0, false, MAX_JUMPS;
      obstacleTimer, lastObstacleScaleY, score := 0, 1, 0;
      gameState := Start;
      obstacles := [];
      groundDotsX := 0.0;
      spawnedHeights := [];
    }

    /**
     * The first load after mounting: the selected character is loaded and
     * the store becomes ready whether or not the load succeeded.
     */
    method InitialLoad(loaded: bool)
      requires Valid()
      modifies runner, scene, store`status
      ensures Valid()
      ensures store.status == GameStore.Ready
      ensures scene.objects == old(scene.objects) - R.OldIds(old(runner.model)) + (if loaded then {old(scene.nextId)} else {})
      ensures old(runner.model).Some? ==> old(runner.model).value.id !in scene.objects
      ensures scene.nextId == old(scene.nextId) + (if loaded then 1 else 0)
      ensures loaded ==> runner.model == Some(R.LoadedModel(old(scene.nextId), R.LoaderFor(GetModelUrl(baseUrl, store.selectedModel)),
                                                 R.RunnerColor(store.selectedModel), R.Vec3(0.0, 0.0, 0.0),
                                                 R.RunnerBaseRotation(store.selectedModel),
                                                 R.Uniform(R.RunnerScale(store.selectedModel))))
      ensures runner.runTime == old(runner.runTime)
      ensures runner.modelType == store.selectedModel
      ensures runner.model.Some? <==> loaded
      ensures loaded ==> runner.model.value.kind == R.LoaderFor(GetModelUrl(baseUrl, store.selectedModel))
    {
      ReloadModel(loaded);
      store.SetStatus(GameStore.Ready);
    }

    /**
     * The reload on a character change: the rig swaps to the selected
     * character's model; the record and the store are untouched.
     */
    method ReloadModel(loaded: bool)
      requires Valid()
      modifies runner, scene
      ensures Valid()
      ensures runner.modelType == store.selectedModel
      ensures runner.model.Some? <==> loaded
      ensures loaded ==> runner.model.value.kind == R.LoaderFor(GetModelUrl(baseUrl, store.selectedModel))
      ensures loaded ==> (runner.model.value.kind == R.GltfLoader <==> store.selectedModel == GameStore.Tako)
      ensures Meshes(obstacles) <= scene.objects
      ensures scene.objects == old(scene.objects) - R.OldIds(old(runner.model)) + (if loaded then {old(scene.nextId)} else {})
      ensures old(runner.model).Some? ==> old(runner.model).value.id !in scene.objects
      ensures scene.nextId == old(scene.nextId) + (if loaded then 1 else 0)
      ensures loaded ==> runner.model == Some(R.LoadedModel(old(scene.nextId), R.LoaderFor(GetModelUrl(baseUrl, store.selectedModel)),
                                                 R.RunnerColor(store.selectedModel), R.Vec3(0.0, 0.0, 0.0),
                                                 R.RunnerBaseRotation(store.selectedModel),
                                                 R.Uniform(R.RunnerScale(store.selectedModel))))
      ensures runner.runTime == old(runner.runTime)
    {
      var m := store.selectedModel;
      ghost var objs := scene.objects;
      runner.LoadModel(GetModelUrl(baseUrl, m), m, loaded);
      assert old(scene.nextId) !in Meshes(obstacles);
    }

    /**
     * `startGame`: the store starts a run, every obstacle leaves the scene,
     * and the record is reset to a fresh run; the ground keeps scrolling
     * from where it was.
     */
    method StartGame()
      requires Valid()
      modifies this, scene`objects, store`status, store`score
      ensures Valid()
      ensures Snapshot() == Started(old(groundDotsX))
      ensures spawnedHeights == []
      ensures scene.objects == old(scene.objects) - Meshes(old(obstacles))
      ensures store.status == GameStore.Playing && store.score == 0
      ensures store.highScore == old(store.highScore) && store.selectedModel == old(store.selectedModel)
    {
      store.StartGame();
      gameState := Playing;
      score := 0;
      store.SetScore(0);
      DetachObstacles();
      ResetRun();
    }

    /** The tail of `startGame`: an empty list, the body at rest, the spawn state reset. */
    method ResetRun()
      requires gameState == Playing && score == 0
      modifies this`obstacles, this`posY, this`velocityY, this`isJumping, this`jumpsRemaining
      modifies this`obstacleTimer, this`lastObstacleScaleY, this`spawnedHeights
      ensures Snapshot() == Started(groundDotsX) && spawnedHeights == []
    {
      obstacles := [];
      posY := 0.0;
      velocityY := 0.0;
      isJumping := false;
      jumpsRemaining := MAX_JUMPS;
      obstacleTimer := 0;
      lastObstacleScaleY := 1;
      spawnedHeights := [];
    }

    /** The `forEach` of `startGame`: every obstacle's mesh leaves the scene. */
    method DetachObstacles()
      requires scene.Valid()
      modifies scene`objects
      ensures scene.Valid()
      ensures scene.objects == old(scene.objects) - Meshes(obstacles)
    {
      var i := 0;
      while i < |obstacles|
        invariant 0 <= i <= |obstacles|
        invariant scene.Valid()
        invariant scene.objects == old(scene.objects) - Meshes(obstacles[..i])
      {
        MeshesAppend(obstacles[..i], obstacles[i]);
        assert obstacles[..i + 1] == obstacles[..i] + [obstacles[i]];
        scene.Remove(obstacles[i].mesh);
        i := i + 1;
      }
      assert obstacles[..i] == obstacles;
    }

    /** `jump()`: the body takes the jump rule; nothing else changes. */
    method Jump()
      requires Valid()
      modifies this`velocityY, this`isJumping, this`jumpsRemaining
      ensures Valid()
      ensures Snapshot() == old(Snapshot()).(body := GameRules.Jump(old(Snapshot()).body, gameState == Playing))
    {
      if gameState != Playing || jumpsRemaining <= 0 {
        return;
      }
      jumpsRemaining := jumpsRemaining - 1;
      isJumping := true;
      velocityY := JUMP_FORCE;
    }

    /** Key handler: Space or ArrowUp jump, and only while the store says playing. */
    method HandleKey(code: string)
      requires Valid()
      modifies this`velocityY, this`isJumping, this`jumpsRemaining
      ensures Valid()
      ensures (code == "Space" || code == "ArrowUp") && store.status == GameStore.Playing ==>
                Snapshot() == old(Snapshot()).(body := GameRules.Jump(old(Snapshot()).body, gameState == Playing))
      ensures !((code == "Space" || code == "ArrowUp") && store.status == GameStore.Playing) ==>
                Snapshot() == old(Snapshot())
    {
      if code == "Space" || code == "ArrowUp" {
        if store.status == GameStore.Playing {
          Jump();
        }
      }
    }

    /** Pointer press on the canvas: a jump, only while the store says playing. */
    method HandlePointer()
      requires Valid()
      modifies this`velocityY, this`isJumping, this`jumpsRemaining
      ensures Valid()
      ensures store.status == GameStore.Playing ==>
                Snapshot() == old(Snapshot()).(body := GameRules.Jump(old(Snapshot()).body, gameState == Playing))
      ensures store.status != GameStore.Playing ==> Snapshot() == old(Snapshot())
    {
      if store.status == GameStore.Playing {
        Jump();
      }
    }

    /** The effect that mirrors the store's status into the record. */
    method SyncStatus()
      requires Valid()
      modifies this`gameState
      ensures Valid()
      ensures gameState == StatusToGameState(store.status)
    {
      gameState := StatusToGameState(store.status);
    }

    /**
     * What the pass has done to the game so far: when some obstacle touched,
     * the record and the store are over and the high score took the score;
     * otherwise both are as they were (the `0` values).
     */
    ghost predicate HitEffects(hit: bool, gameState0: GameState, status0: GameStore.GameStatus,
                               highScore0: int, stored0: Option<int>)
      reads this`gameState, store`status, store`highScore, store`score, store`stored
    {
      && gameState == (if hit then GameOver else gameState0)
      && store.status == (if hit then GameStore.GameOver else status0)
      && store.highScore == (if hit then GameStore.Max(highScore0, store.score) else highScore0)
      && store.stored == (if hit && store.storageAvailable then Some(store.highScore) else stored0)
    }

    /** From PLAYING, the game is over after the pass exactly when the pass hit. */
    lemma HitIsGameOver(hit: bool, status0: GameStore.GameStatus, highScore0: int, stored0: Option<int>)
      requires HitEffects(hit, Playing, status0, highScore0, stored0)
      ensures HitEffects(gameState == GameOver, Playing, status0, highScore0, stored0)
    {
    }

    /** The contact test of the pass: a touching obstacle ends the game in the store and the record. */
    method CheckContact(obs: Obstacle, ghost hit: bool, ghost gameState0: GameState,
                        ghost status0: GameStore.GameStatus, ghost highScore0: int, ghost stored0: Option<int>)
      requires store.Valid() && HitEffects(hit, gameState0, status0, highScore0, stored0)
      modifies this`gameState, store`status, store`highScore, store`stored
      ensures store.Valid()
      ensures HitEffects(Collides(obs, posY) || hit, gameState0, status0, highScore0, stored0)
    {
      var playerY := posY + PLAYER_BASE_Y;
      var dx := obs.x - PLAYER_X;
      var dy := obs.y - playerY;
      if dx * dx + dy * dy < HIT_RADIUS * HIT_RADIUS {
        store.EndGame();
        gameState := GameOver;
      }
    }

    /**
     * The obstacle pass of a frame: a backwards loop that moves each
     * obstacle, ends the game on every contact (without stopping), and
     * splices out and detaches the obstacles past the cutoff.
     */
    method AdvanceObstacles()
      requires scene.Valid() && store.Valid()
      modifies this`obstacles, this`gameState, scene`objects, store`status, store`highScore, store`stored
      ensures scene.Valid() && store.Valid()
      ensures Snapshot() == ObstaclePass(old(Snapshot()))
      ensures obstacles == Pass(old(obstacles))
      ensures scene.objects == old(scene.objects) - ExpiredMeshes(old(obstacles))
      ensures HitEffects(AnyHit(old(obstacles), posY), old(gameState), old(store.status), old(store.highScore), old(store.stored))
    {
      ghost var a := obstacles;
      var i := |obstacles|;
      assert a[i..] == [];
      while i > 0
        invariant 0 <= i <= |a| && scene.Valid() && store.Valid()
        invariant PassedFrom(a, i, old(scene.objects), old(gameState), old(store.status), old(store.highScore), old(store.stored))
      {
        i := i - 1;
        VisitObstacle(a, i, old(scene.objects), old(gameState), old(store.status), old(store.highScore), old(store.stored));
      }
      assert a[0..] == a;
    }

    /**
     * The backwards pass has handled the suffix a[i..]: the list holds the
     * untouched prefix followed by the pass of the suffix, the suffix's
     * expired meshes are detached, and the game is over iff the suffix hit.
     */
    ghost predicate PassedFrom(a: seq<Obstacle>, i: nat, objects0: set<nat>, gameState0: GameState,
                               status0: GameStore.GameStatus, highScore0: int, stored0: Option<int>)
      reads this`obstacles, this`gameState, this`posY, scene`objects, store`status, store`highScore, store`score, store`stored
    {
      && i <= |a|
      && obstacles == a[..i] + Pass(a[i..])
      && scene.objects == objects0 - ExpiredMeshes(a[i..])
      && HitEffects(AnyHit(a[i..], posY), gameState0, status0, highScore0, stored0)
    }

    /** One iteration of the backwards pass: move, test contact, retire if past the cutoff. */
    method VisitObstacle(ghost a: seq<Obstacle>, i: nat, ghost objects0: set<nat>, ghost gameState0: GameState,
                         ghost status0: GameStore.GameStatus, ghost highScore0: int, ghost stored0: Option<int>)
      requires i < |a| && scene.Valid() && store.Valid()
      requires PassedFrom(a, i + 1, objects0, gameState0, status0, highScore0, stored0)
      modifies this`obstacles, this`gameState, scene`objects, store`status, store`highScore, store`stored
      ensures scene.Valid() && store.Valid()
      ensures PassedFrom(a, i, objects0, gameState0, status0, highScore0, stored0)
    {
      PassStep(a, i, posY);
      SpliceStep(a, i, Pass(a[i + 1..]), obstacles);
      var obs := obstacles[i];
      obs := obs.(x := obs.x - obs.speed, rotationY := obs.rotationY + OBSTACLE_SPIN);
      obstacles := obstacles[i := obs];
      CheckContact(obs, AnyHit(a[i + 1..], posY), gameState0, status0, highScore0, stored0);
      if obs.x < DESPAWN_X {
        scene.Remove(obs.mesh);
        obstacles := obstacles[..i] + obstacles[i + 1..];
      }
    }

    /** The physics block of `animate`: gravity and landing, as Integrate. */
    method MoveBody()
      modifies this`posY, this`velocityY, this`isJumping, this`jumpsRemaining
      ensures Snapshot().body == Integrate(old(Snapshot()).body)
    {
      if isJumping || posY > 0.0 {
        velocityY := velocityY - GRAVITY;
        posY := posY + velocityY;
        if posY <= 0.0 {
          posY := 0.0;
          velocityY := 0.0;
          isJumping := false;
          jumpsRemaining := MAX_JUMPS;
        }
      }
    }

    /** The ground dots scroll left and wrap back to 0 past DOT_WRAP, as ScrollDots. */
    method ScrollGround()
      modifies this`groundDotsX
      ensures groundDotsX == ScrollDots(old(groundDotsX))
    {
      groundDotsX := groundDotsX - DOT_STEP;
      if groundDotsX < DOT_WRAP {
        groundDotsX := 0.0;
      }
    }

    /** Placing the character for the frame, when its model is loaded. */
    method PlacePlayer(playing: bool, runWave: real, idleWave: real)
      requires runner.Valid()
      modifies runner`model
      ensures runner.Valid()
      ensures runner.model == Placed(old(runner.model), PlayerPosition(playing, posY, R.RunnerYOffset(runner.modelType), runWave, idleWave))
    {
      var m := runner.GetModel();
      if m.Some? {
        var offset := R.RunnerYOffset(runner.modelType);
        if playing {
          var runBounce := 0.0;
          if posY == 0.0 {
            runBounce := Abs(runWave) * RUN_BOUNCE;
          }
          runner.model := Some(m.value.(position := R.Vec3(PLAYER_X, posY + PLAYER_BASE_Y + offset + runBounce, 0.0)));
        } else {
          runner.model := Some(m.value.(position := R.Vec3(PLAYER_X, PLAYER_BASE_Y + offset + idleWave * IDLE_BOB, 0.0)));
        }
      }
    }

    /**
     * The timer tick and spawn block of `animate`: past the interval and with
     * the spawn edge clear, a new obstacle (the scene's next object) is
     * attached and appended, the timer restarts, and the score rises by
     * SCORE_PER_SPAWN and is pushed to the store.
     */
    method SpawnStep(d: Draws)
      requires DrawsOk(d) && scene.Valid() && store.Valid() && Ledger() && DistinctMeshes(obstacles)
      modifies this`obstacles, this`obstacleTimer, this`lastObstacleScaleY, this`score, this`spawnedHeights
      modifies scene`objects, scene`nextId, store`score
      ensures scene.Valid() && store.Valid() && Ledger() && DistinctMeshes(obstacles)
      ensures Meshes(obstacles) <= Meshes(old(obstacles)) + {old(scene.nextId)}
      ensures var spawn := CanSpawn(old(obstacleTimer) + 1, old(obstacles));
              var o := NewObstacle(old(scene.nextId), old(lastObstacleScaleY), d);
              && obstacles == (if spawn then old(obstacles) + [o] else old(obstacles))
              && obstacleTimer == (if spawn then 0 else old(obstacleTimer) + 1)
              && lastObstacleScaleY == (if spawn then o.scaleY else old(lastObstacleScaleY))
              && score == (if spawn then old(score) + SCORE_PER_SPAWN else old(score))
              && store.score == (if spawn then score else old(store.score))
              && spawnedHeights == (if spawn then old(spawnedHeights) + [o.scaleY] else old(spawnedHeights))
              && scene.objects == (if spawn then old(scene.objects) + {old(scene.nextId)} else old(scene.objects))
              && scene.nextId == (if spawn then old(scene.nextId) + 1 else old(scene.nextId))
    {
      obstacleTimer := obstacleTimer + 1;
      var rightmostX := RightmostX(obstacles);
      if obstacleTimer > OBSTACLE_MIN_INTERVAL && rightmostX <= SPAWN_X - OBSTACLE_MIN_DISTANCE {
        var id := scene.NewObject();
        var obs := NewObstacle(id, lastObstacleScaleY, d);
        MeshesAppend(obstacles, obs);
        NoTallPairAppend(spawnedHeights, obs.scaleY);
        scene.Add(id);
        obstacles := obstacles + [obs];
        obstacleTimer := 0;
        lastObstacleScaleY := obs.scaleY;
        score := score + SCORE_PER_SPAWN;
        store.SetScore(score);
        spawnedHeights := spawnedHeights + [obs.scaleY];
      }
    }

    /**
     * One frame of `animate`. The clock enters as the two sine readings of
     * PlayerPosition (`Math.sin` of `Date.now() * 0.001` times 15 and times 2),
     * and the frame's three `Math.random()` draws as `d`. The record
     * moves exactly as Tick says, with the scene's next object as the new
     * obstacle's mesh; the character is placed by PlayerPosition; the store
     * sees the new score on a spawn and one `endGame` per contact.
     */
    method Step(runWave: real, idleWave: real, d: Draws)
      requires Valid() && DrawsOk(d)
      modifies this, scene`objects, scene`nextId, store`score, store`status, store`highScore, store`stored, runner`model
      ensures scene.nextId == old(scene.nextId) + (if Spawns(old(Snapshot())) then 1 else 0)
      ensures Valid()
      ensures Snapshot() == Tick(old(Snapshot()), old(scene.nextId), d)
      ensures old(gameState) != Playing ==> scene.objects == old(scene.objects) && unchanged(store)
      ensures old(gameState) == Playing ==>
                var pre := Spawned(old(Snapshot()), old(scene.nextId), d);
                scene.objects == old(scene.objects) + (if Spawns(old(Snapshot())) then {old(scene.nextId)} else {})
                                 - ExpiredMeshes(pre)
      ensures store.score == (if Spawns(old(Snapshot())) then score else old(store.score))
      ensures old(gameState) == Playing && gameState == GameOver ==>
                && store.status == GameStore.GameOver
                && store.highScore == GameStore.Max(old(store.highScore), store.score)
                && store.stored == (if store.storageAvailable then Some(store.highScore) else old(store.stored))
      ensures !(old(gameState) == Playing && gameState == GameOver) ==>
                && store.status == old(store.status)
                && store.highScore == old(store.highScore)
                && store.stored == old(store.stored)
      ensures store.selectedModel == old(store.selectedModel) && store.isDucking == old(store.isDucking)
      ensures runner.modelType == old(runner.modelType)
      ensures runner.model == Placed(old(runner.model), PlayerPosition(old(gameState) == Playing, posY, R.RunnerYOffset(runner.modelType), runWave, idleWave))
    {
      if gameState == Playing {
        PlayFrame(runWave, idleWave, d);
      } else {
        PlacePlayer(false, runWave, idleWave);
      }
    }

    /** The PLAYING branch of a frame. */
    method PlayFrame(runWave: real, idleWave: real, d: Draws)
      requires Valid() && DrawsOk(d) && gameState == Playing
      modifies this`posY, this`velocityY, this`isJumping, this`jumpsRemaining, this`groundDotsX
      modifies this`obstacles, this`obstacleTimer, this`lastObstacleScaleY, this`score, this`spawnedHeights, this`gameState
      modifies scene`objects, scene`nextId, store`score, store`status, store`highScore, store`stored, runner`model
      ensures Valid()
      ensures Snapshot() == Tick(old(Snapshot()), old(scene.nextId), d)
      ensures scene.nextId == old(scene.nextId) + (if Spawns(old(Snapshot())) then 1 else 0)
      ensures scene.objects == old(scene.objects) + (if Spawns(old(Snapshot())) then {old(scene.nextId)} else {})
                               - ExpiredMeshes(Spawned(old(Snapshot()), old(scene.nextId), d))
      ensures store.score == (if Spawns(old(Snapshot())) then score else old(store.score))
      ensures HitEffects(gameState == GameOver, Playing, old(store.status), old(store.highScore), old(store.stored))
      ensures runner.model == Placed(old(runner.model), PlayerPosition(true, posY, R.RunnerYOffset(runner.modelType), runWave, idleWave))
    {
      ghost var w := Snapshot();
      ghost var mesh := scene.nextId;
      assert mesh !in Meshes(w.obstacles);
      BeforePass(runWave, idleWave, d);
      assert store.status == old(store.status) && store.highScore == old(store.highScore) && store.stored == old(store.stored);
      FinishFrame(w, mesh, d);
    }

    /** The obstacle pass that closes a PLAYING frame begun from record w with spawn mesh `mesh`. */
    method FinishFrame(ghost w: World, ghost mesh: nat, d: Draws)
      requires DrawsOk(d) && WorldOk(w) && w.gameState == Playing && mesh !in Meshes(w.obstacles)
      requires Snapshot() == BeforeObstaclePass(w, mesh, d)
      requires runner.scene == scene && scene.Valid() && store.Valid() && runner.Valid()
      requires Ledger() && DistinctMeshes(obstacles)
      requires runner.model.Some? ==> runner.model.value.id !in Meshes(obstacles)
      modifies this`obstacles, this`gameState, scene`objects, store`status, store`highScore, store`stored
      ensures Valid()
      ensures Snapshot() == Tick(w, mesh, d)
      ensures obstacles == Pass(old(obstacles)) && scene.objects == old(scene.objects) - ExpiredMeshes(old(obstacles))
      ensures HitEffects(gameState == GameOver, Playing, old(store.status), old(store.highScore), old(store.stored))
    {
      ghost var pre := obstacles;
      ghost var objs := scene.objects;
      AdvanceObstacles();
      assert HitEffects(gameState == GameOver, Playing, old(store.status), old(store.highScore), old(store.stored)) by {
        HitIsGameOver(AnyHit(pre, posY), old(store.status), old(store.highScore), old(store.stored));
      }
      assert WorldOk(Snapshot()) by {
        TickKeepsWorldOk(w, mesh, d);
      }
      ghost var modelId := if runner.model.Some? then Some(runner.model.value.id) else None;
      assert Meshes(obstacles) <= scene.objects
          && (modelId.Some? ==> modelId.value in scene.objects && modelId.value !in Meshes(obstacles)) by {
        PassBookkeeping(pre, objs, modelId);
      }
    }

    /** The moving parts of a PLAYING frame: the body falls or rises, the character follows, the ground scrolls. */
    method Motion(runWave: real, idleWave: real)
      requires runner.Valid()
      modifies this`posY, this`velocityY, this`isJumping, this`jumpsRemaining, this`groundDotsX, runner`model
      ensures runner.Valid()
      ensures Snapshot().body == Integrate(old(Snapshot()).body) && groundDotsX == ScrollDots(old(groundDotsX))
      ensures runner.model == Placed(old(runner.model), PlayerPosition(true, posY, R.RunnerYOffset(runner.modelType), runWave, idleWave))
    {
      MoveBody();
      PlacePlayer(true, runWave, idleWave);
      ScrollGround();
    }

    /** A PLAYING frame up to the obstacle pass: physics, placing, scrolling, spawning. */
    method BeforePass(runWave: real, idleWave: real, d: Draws)
      requires Valid() && DrawsOk(d) && gameState == Playing
      modifies this`posY, this`velocityY, this`isJumping, this`jumpsRemaining, this`groundDotsX
      modifies this`obstacles, this`obstacleTimer, this`lastObstacleScaleY, this`score, this`spawnedHeights
      modifies scene`objects, scene`nextId, store`score, runner`model
      ensures scene.Valid() && store.Valid() && runner.Valid() && Ledger() && DistinctMeshes(obstacles)
      ensures runner.model.Some? ==> runner.model.value.id !in Meshes(obstacles)
      ensures Snapshot() == BeforeObstaclePass(old(Snapshot()), old(scene.nextId), d)
      ensures store.score == (if Spawns(old(Snapshot())) then score else old(store.score))
      ensures scene.objects == old(scene.objects) + (if Spawns(old(Snapshot())) then {old(scene.nextId)} else {})
      ensures scene.nextId == old(scene.nextId) + (if Spawns(old(Snapshot())) then 1 else 0)
      ensures runner.model == Placed(old(runner.model), PlayerPosition(true, posY, R.RunnerYOffset(runner.modelType), runWave, idleWave))
    {
      ghost var w := Snapshot();
      ghost var mesh := scene.nextId;
      Motion(runWave, idleWave);
      SpawnStep(d);
      assert Snapshot() == BeforeObstaclePass(w, mesh, d) by {
        BeforePassFields(w, Snapshot(), mesh, d);
      }
    }
  }

  /** A record that agrees field by field with the steps before the pass is their result. */
  lemma BeforePassFields(w: World, v: World, mesh: nat, d: Draws)
    requires DrawsOk(d) && w.gameState == Playing
    requires v.body == Integrate(w.body) && v.groundDotsX == ScrollDots(w.groundDotsX) && v.gameState == w.gameState
    requires var spawn := CanSpawn(w.obstacleTimer + 1, w.obstacles);
             var o := NewObstacle(mesh, w.lastObstacleScaleY, d);
             && v.obstacles == (if spawn then w.obstacles + [o] else w.obstacles)
             && v.obstacleTimer == (if spawn then 0 else w.obstacleTimer + 1)
             && v.lastObstacleScaleY == (if spawn then o.scaleY else w.lastObstacleScaleY)
             && v.score == (if spawn then w.score + SCORE_PER_SPAWN else w.score)
    ensures v == BeforeObstaclePass(w, mesh, d)
  {
  }

  /**
   * The list surgery of the backwards pass at position i, where the list
   * is the original up to i followed by `rest`: the slot holds the original
   * obstacle, writing back its advanced copy puts that copy in front of
   * `rest`, and splicing the slot out leaves the original prefix and `rest`.
   */
  lemma SpliceStep(a: seq<Obstacle>, i: nat, rest: seq<Obstacle>, cur: seq<Obstacle>)
    requires i < |a| && cur == a[..i + 1] + rest
    ensures cur[i] == a[i]
    ensures var o := cur[i].(x := cur[i].x - cur[i].speed, rotationY := cur[i].rotationY + OBSTACLE_SPIN);
            var next := cur[i := o];
            && o == Advance(a[i])
            && next == a[..i] + ([o] + rest)
            && next[..i] + next[i + 1..] == a[..i] + rest
  {
    var o := Advance(a[i]);
    assert a[..i + 1] == a[..i] + [a[i]];
    SlotSurgery(a[..i], a[i], o, rest);
    assert a[..i] + [o] + rest == a[..i] + ([o] + rest);
  }

  /** Overwriting, or cutting out, the slot just after a prefix p. */
  lemma SlotSurgery<T>(p: seq<T>, x: T, y: T, rest: seq<T>)
    ensures (p + [x] + rest)[|p|] == x
    ensures (p + [x] + rest)[|p| := y] == p + [y] + rest
    ensures (p + [y] + rest)[..|p|] + (p + [y] + rest)[|p| + 1..] == p + rest
  {
    var s := p + [y] + rest;
    assert s[..|p|] == p && s[|p| + 1..] == rest;
  }

  /**
   * Scene bookkeeping of the pass: what stays in the list stays in the
   * scene, and an object that is no obstacle's mesh (the character) is
   * neither detached nor listed.
   */
  lemma PassBookkeeping(pre: seq<Obstacle>, objs: set<nat>, other: Option<nat>)
    requires DistinctMeshes(pre) && Meshes(pre) <= objs
    requires other.Some? ==> other.value in objs && other.value !in Meshes(pre)
    ensures Meshes(Pass(pre)) <= objs - ExpiredMeshes(pre)
    ensures other.Some? ==> other.value in objs - ExpiredMeshes(pre) && other.value !in Meshes(Pass(pre))
  {
    PassMeshes(pre);
    ExpiredMeshesWithin(pre);
  }
}
