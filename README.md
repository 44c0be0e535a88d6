# pina: the endless runner and its stores, in Dafny

This project models the logic of the pina site. The core is the 3D
endless-runner mini game: its per-frame simulation, the game store it
drives and the character rig. Around it sit the site's small stores, the
model-URL and mesh-dispatch helpers, the falling-toys background and the
product lookup.

- `game_rules.dfy` (module `GameRules`) holds the rules of one frame of
  `animate` as functions over a snapshot `World` of the game record:
  - jump and gravity (`Jump`, `Integrate`);
  - the spawn gate (`CanSpawn`, `NewObstacle`);
  - the backwards obstacle pass (`Pass`, `AnyHit`, `ExpiredMeshes`);
  - the ground scroll (`ScrollDots`);
  - the whole frame (`Tick`) and runs of frames (`Run`).

  The lemmas state the game's promises: the invariant a frame keeps,
  scoring per spawn, spawn spacing, never two tall obstacles in a row,
  ordered culling, and collision against any obstacle.
- `game_page.dfy` (module `GamePage`) holds the page's record
  (`gameRef.current`) as the class `Game`. It has fields for the body, the
  timer, the last height, the score, the state and the obstacle list, plus
  the shared `Scene`, `GameStore` and `Runner`. Its methods are `startGame`,
  `jump`, the key and pointer guards, the status mirror, the model loads and
  one frame of `animate` (`Step`). `Step` runs the code's own loops and list
  surgery (push, backwards scan, in-place write, splice) and is proved to
  move the record exactly as `GameRules.Tick` does. It keeps the scene and
  the store in step with the record.
- `game_store.dfy`, `runner3d.dfy`, `product_store.dfy` and `ui_store.dfy`
  model the stores and the rig as classes whose methods update their fields.
- `constants.dfy`, `model_mesh.dfy`, `catalog.dfy` and `falling_models.dfy`
  hold the pure helpers and the toy table. The toy's frame callback is a
  small class.
- `scenes.dfy` reduces a three.js scene to the set of ids of the objects
  attached to it. `strings.dfy` holds the string operations the source uses
  (ASCII lower-casing, `startsWith`, `endsWith`, `includes`). `wrappers.dfy`
  holds `Option`.

Randomness and time are inputs:
- the three `Math.random()` draws of a frame are a `Draws` value in [0, 1)³;
- the clock enters `Step` as the two sine readings the frame uses;
- `Runner3D`'s pose takes `Math.sin` as a function bounded by [-1, 1];
- the deployment's `BASE_URL` is a parameter;
- storage is an optional stored value plus a flag saying whether storage
  works.

Where the project's own description and its code differ, the model follows
the code:
- The collision loop does not stop at the first contact. Every touching
  obstacle calls `endGame` again. The remaining obstacles still move and are
  culled in the same frame.
- A body that has just jumped from the ground has `posY == 0` while jumping.
  So the record's invariant is "a body that is not jumping is at rest with a
  full budget", not "a body on the ground is at rest".
- `Runner3D.loadModel` picks the GLTF loader only for `.glb`, while
  `ModelMesh` also treats `.gltf` as GLB. A `.gltf` runner would go to the
  STL loader (`Runner3D.GltfSuffixGoesToStl`).
- The reload on a character change has no guard against an older load
  finishing late. The model has none either: loads are sequential.

## Model

| member | source | states |
|---|---|---|
| GameRules.Jump | src/features/game/components/GamePage.tsx:125-132 | outside PLAYING or with no jumps left nothing changes; otherwise exactly one jump is spent, `isJumping` is set and the velocity becomes JUMP_FORCE, wherever the body is; a well-formed body stays well-formed (posY >= 0, budget in 0..2) |
| GameRules.DoubleJumpOnly | src/features/game/components/GamePage.tsx:125-132 | from the ground two jumps are possible and a third before landing changes nothing |
| GameRules.Integrate | src/features/game/components/GamePage.tsx:268-278 | a body neither jumping nor above ground is untouched; otherwise gravity lowers the velocity and the velocity moves the body; reaching or passing the ground lands it at rest with MAX_JUMPS; posY never ends negative and the body invariant is kept |
| GameRules.ScrollDots | src/features/game/components/GamePage.tsx:296-299 | the dots move left by 0.18 and jump back to 0 once below -2, so an offset in [-2, 0] stays in [-2, 0] |
| GameRules.NewObstacle | src/features/game/components/GamePage.tsx:312-331 | a spawned obstacle has shape 0..2, height 1 or 2 with its centre at 0.8 + (scaleY - 1) * 0.6, speed in [0.15, 0.32), sits at x = 25; after a tall one it is short, otherwise it is tall exactly when the draw is below 0.5 |
| GameRules.RightmostX | src/features/game/components/GamePage.tsx:303-305 | the largest obstacle x (attained by some obstacle), or -999 for no obstacles |
| GameRules.CanSpawn | src/features/game/components/GamePage.tsx:306-309 | the gate only opens once the timer is past 130 and every obstacle is at x <= 13, at least 12 behind the spawn edge |
| GameRules.CanSpawnIff | src/features/game/components/GamePage.tsx:306-309 | the spawn gate holds exactly when the timer is past 130 and every obstacle is at x <= 13 |
| GameRules.Advance | src/features/game/components/GamePage.tsx:345-347 | an obstacle moves left by exactly its speed and spins by 0.02; a well-formed obstacle strictly moves left and stays well-formed, keeping its mesh, shape, height, centre y and speed |
| GameRules.Collides | src/features/game/components/GamePage.tsx:349-354 | contact needs the obstacle within 1.1 of the player's centre on each axis, and an obstacle at the player's x within 1.1 vertically always touches |
| GameRules.WithinRadius | src/features/game/components/GamePage.tsx:349-354 | the squared-distance test `dx² + dy² < 1.1²` bounds each axis by 1.1, and is met when dx is 0 and dy is within 1.1 |
| GameRules.Pass | src/features/game/components/GamePage.tsx:342-366 | the pass never lengthens the list, no survivor is past the cutoff, and well-formedness is kept |
| GameRules.PassKeeps | src/features/game/components/GamePage.tsx:346-365 | each obstacle, moved by its speed, survives exactly when it is not past -15, and otherwise its mesh is among those removed |
| GameRules.PassAppend | src/features/game/components/GamePage.tsx:342-366 | the pass over a concatenation is the concatenation of the passes: survivors keep their order |
| GameRules.AnyHitIff | src/features/game/components/GamePage.tsx:349-357 | the frame hits exactly when some moved obstacle is within 1.1 of the player's centre; the scan does not stop at the first |
| GameRules.PassMeshes | src/features/game/components/GamePage.tsx:359-365 | with distinct meshes, the survivors' meshes are exactly the old meshes minus the removed ones, and stay distinct |
| GameRules.Started | src/features/game/components/GamePage.tsx:100-123 | a started run has no obstacles, a body at rest, score 0, state PLAYING, and satisfies the record invariant |
| GameRules.Tick | src/features/game/components/GamePage.tsx:259-378 | outside PLAYING a frame leaves the record alone; in PLAYING the body takes the physics step, the dots scroll, the state stays PLAYING or becomes GAMEOVER, and the score rises by 0 or 10 |
| GameRules.TickKeepsWorldOk | src/features/game/components/GamePage.tsx:267-366 | a frame keeps the record invariant: body in range, timer non-negative, last height 1 or 2, dots in [-2, 0], obstacles well-formed with distinct meshes |
| GameRules.TickScore | src/features/game/components/GamePage.tsx:338-339 | a frame adds 10 to the score exactly when it spawns and nothing otherwise; a spawn appends exactly one obstacle |
| GameRules.TickSpawnRules | src/features/game/components/GamePage.tsx:301-336 | a spawn needs the timer past 130 and every obstacle at least 12 behind the spawn edge; it resets the timer and records the new height, short after a tall one |
| GameRules.TickObstacles | src/features/game/components/GamePage.tsx:342-366 | a playing frame leaves the old obstacles passed in order, followed by the new one if it survives its first move, and ends the game exactly when some moved obstacle touches the player at its new height |
| GameRules.NoSpawnWithinInterval | src/features/game/components/GamePage.tsx:301-311 | from timer t, the next 130 - t frames spawn nothing and leave the score alone, so spawns are at least 131 frames apart |
| GameRules.FreshRunQuietStart | src/features/game/components/GamePage.tsx:301-311 | a fresh run stays playing, at rest, with no obstacles and unchanged score for its first 130 frames |
| GameRules.FirstSpawnAfterInterval | src/features/game/components/GamePage.tsx:301-340 | the frame after 130 quiet frames spawns and scores 10 |
| GameRules.NoTallPairAppend | src/features/game/components/GamePage.tsx:321-322 | a spawn that obeys "short after tall" keeps the spawn history free of two consecutive tall obstacles |
| GamePage.GetModelUrl | src/features/game/components/GamePage.tsx:26-30 | the URL starts with the base and ends with the character's own asset, `models/Tako.glb` or `models/<name>.stl`, and the rig loads it with the GLTF loader exactly for Tako |
| GamePage.AssetUrlLoader | src/features/game/components/GamePage.tsx:26-30 | whatever the base, a `.glb` asset is loaded with the GLTF loader and a `.stl` asset is not |
| GamePage.StatusToGameState | src/features/game/components/GamePage.tsx:436-438 | the record is PLAYING exactly when the store is playing and GAMEOVER exactly when it is gameover |
| GamePage.PlayerPosition | src/features/game/components/GamePage.tsx:280-294 | while playing the character stands at its body height plus base and offset, bouncing by at most 0.15 and only on the ground; when idle it bobs within 0.3 of its rest height; x is PLAYER_X and z is 0 |
| GamePage.Game.constructor | src/features/game/components/GamePage.tsx:62-78 | a new page has the record at rest with no obstacles, timer 0, last height 1, score 0, state START, an empty scene, no model, and the store set to loading (lines 135-143), with every other store field (score, high score, saved value, character, ducking) untouched |
| GamePage.Game.InitialLoad | src/features/game/components/GamePage.tsx:211-231 | the selected character is loaded with the loader its URL calls for, its tint, base rotation and scale, replacing any earlier model in the scene; the store becomes ready whether the load succeeded or not, and nothing else in the store changes |
| GamePage.Game.ReloadModel | src/features/game/components/GamePage.tsx:145-158 | a character change reloads the rig with the selected character (GLTF exactly for Tako, with its tint, base rotation and scale); the old model leaves the scene and the new one is the only object added; the record and the obstacles' meshes are untouched |
| GamePage.Game.StartGame | src/features/game/components/GamePage.tsx:100-123 | the store starts a run with score 0, every obstacle leaves the scene, and the record becomes a fresh run; the high score and character are kept |
| GamePage.Game.DetachObstacles | src/features/game/components/GamePage.tsx:106-114 | the loop removes every obstacle's mesh from the scene and nothing else |
| GamePage.Game.ResetRun | src/features/game/components/GamePage.tsx:115-122 | the list is emptied and the body, timer and last height are reset |
| GamePage.Game.Jump | src/features/game/components/GamePage.tsx:125-132 | the record changes exactly by the jump rule, and the record invariant is kept |
| GamePage.Game.HandleKey | src/features/game/components/GamePage.tsx:440-452 | only Space or ArrowUp while the store is playing jumps; any other key or status leaves the record unchanged |
| GamePage.Game.HandlePointer | src/features/game/components/GamePage.tsx:498-503 | a click jumps only while the store is playing |
| GamePage.Game.SyncStatus | src/features/game/components/GamePage.tsx:436-438 | the record's state mirrors the store's status |
| GamePage.Game.Step | src/features/game/components/GamePage.tsx:259-378 | one frame moves the record exactly as Tick with the scene's next object as the new mesh, keeps every invariant, attaches the spawned mesh and detaches exactly the culled ones, publishes the score on a spawn, applies `endGame` on contact, and places the character by PlayerPosition; the rig's clock and base rotation are untouched and the scene issues one new id exactly on a spawn |
| GamePage.Game.PlayFrame | src/features/game/components/GamePage.tsx:267-366 | the PLAYING branch: the record moves as Tick, the scene gains the spawn and loses the culled meshes, and the store is over exactly when the frame hit |
| GamePage.Game.BeforePass | src/features/game/components/GamePage.tsx:267-340 | the PLAYING branch up to the pass moves the record as BeforeObstaclePass and keeps the ledger of spawns |
| GamePage.Game.Motion | src/features/game/components/GamePage.tsx:268-299 | physics, character placement and ground scroll of a playing frame |
| GamePage.Game.MoveBody | src/features/game/components/GamePage.tsx:268-278 | the body fields move exactly as Integrate |
| GamePage.Game.PlacePlayer | src/features/game/components/GamePage.tsx:280-294 | a loaded character is moved to PlayerPosition (the idle branch, lines 367-375, when not playing); no model, nothing moves |
| GamePage.Game.ScrollGround | src/features/game/components/GamePage.tsx:296-299 | the dots move as ScrollDots |
| GamePage.Game.SpawnStep | src/features/game/components/GamePage.tsx:301-340 | through the gate, the new obstacle is created, attached and appended, the timer restarts, the last height is recorded and the score rises by 10 and is published; otherwise only the timer advances; the no-tall-pair ledger is kept |
| GamePage.Game.FinishFrame | src/features/game/components/GamePage.tsx:342-366 | the pass completes the frame as Tick and restores the page invariant |
| GamePage.Game.AdvanceObstacles | src/features/game/components/GamePage.tsx:342-366 | the backwards loop leaves the list as Pass, detaches exactly the culled meshes, and ends the game in the record and the store exactly when some obstacle hit |
| GamePage.Game.VisitObstacle | src/features/game/components/GamePage.tsx:343-365 | one iteration extends the handled suffix by one obstacle: moved, tested for contact, spliced out and detached when past -15 |
| GamePage.Game.CheckContact | src/features/game/components/GamePage.tsx:349-357 | a touching obstacle calls `endGame` and sets GAMEOVER; otherwise nothing changes |
| GamePage.Game.HitIsGameOver | src/features/game/components/GamePage.tsx:354-357 | from PLAYING the game is over after the pass exactly when the pass hit |
| GamePage.SpliceStep | src/features/game/components/GamePage.tsx:343-364 | writing the moved copy back into its slot, and splicing the slot out, give the list the pass promises |
| GamePage.PassBookkeeping | src/features/game/components/GamePage.tsx:359-365 | after the pass every listed obstacle's mesh is still in the scene, and the character's model is neither detached nor listed |
| GameStore.StoredHighScore | src/features/game/stores/useGameStore.ts:9-17 | 0 without storage or a stored value, otherwise the stored value floored at 0; never negative |
| GameStore.StoredHighScoreRoundTrip | src/features/game/stores/useGameStore.ts:9-17 | a non-negative high score written to working storage reads back unchanged |
| GameStore.GameStore.constructor | src/features/game/stores/useGameStore.ts:36-41 | loading, score 0, FanFan, not ducking, high score read from storage |
| GameStore.GameStore.SetStatus | src/features/game/stores/useGameStore.ts:42 | any status from any status; nothing else changes |
| GameStore.GameStore.SetScore | src/features/game/stores/useGameStore.ts:43 | the score becomes s; nothing else changes |
| GameStore.GameStore.AddScore | src/features/game/stores/useGameStore.ts:44 | the score rises by delta; nothing else changes |
| GameStore.GameStore.SetHighScore | src/features/game/stores/useGameStore.ts:45-56 | the high score becomes the larger of x and the STORED value (not the in-memory one), is written back when storage works, and is at least x |
| GameStore.GameStore.Persist | src/features/game/stores/useGameStore.ts:63-69 | a write lands in storage only when storage works |
| GameStore.GameStore.SetSelectedModel | src/features/game/stores/useGameStore.ts:57 | only the character changes |
| GameStore.GameStore.SetDucking | src/features/game/stores/useGameStore.ts:58 | only the ducking flag changes |
| GameStore.GameStore.StartGame | src/features/game/stores/useGameStore.ts:59 | playing with score 0 from any status; high score and character kept |
| GameStore.GameStore.EndGame | src/features/game/stores/useGameStore.ts:60-71 | game over, the high score becomes the larger of itself and the score (so it never decreases) and is persisted; the score is kept |
| GameStore.GameStore.Restart | src/features/game/stores/useGameStore.ts:72 | ready with score 0; high score and character kept |
| Runner3D.RunnerColor | src/features/game/game/Runner3D.ts:7-11 | each character's tint is a 24-bit RGB value |
| Runner3D.RunnerColorsDistinct | src/features/game/game/Runner3D.ts:7-11 | no two characters share a tint |
| Runner3D.RunnerScale | src/features/game/game/Runner3D.ts:14-18 | every character is scaled into (0, 1) |
| Runner3D.RunnerYOffset | src/features/game/game/Runner3D.ts:21-25 | every character stands a positive offset above the ground line |
| Runner3D.RunnerBaseRotation | src/features/game/game/Runner3D.ts:29-33 | the STL characters are stood up about x and turned about z by the opposite angle (a negative x angle); Tako only turns about y, by a non-zero angle |
| Runner3D.LoaderFor | src/features/game/game/Runner3D.ts:94 | GLTF exactly when the lower-cased URL ends in `.glb` |
| Runner3D.GltfSuffixGoesToStl | src/features/game/game/Runner3D.ts:94-121 | a `.gltf` URL goes to the STL loader |
| Runner3D.LoaderForIgnoresCase | src/features/game/game/Runner3D.ts:94 | the loader choice does not depend on letter case |
| Runner3D.Runner.constructor | src/features/game/game/Runner3D.ts:55-82 | a rig on the shared scene with no model, FanFan, run time 0 and zero base rotation |
| Runner3D.Runner.GetModel | src/features/game/game/Runner3D.ts:180-182 | the attached model, which is in the scene |
| Runner3D.Runner.LoadModel | src/features/game/game/Runner3D.ts:84-135 | the requested character is recorded even when loading fails; the old model leaves the scene; a successful load attaches exactly one new model with the character's loader, tint, uniform scale and base rotation, stored as the base |
| Runner3D.Runner.Update | src/features/game/game/Runner3D.ts:137-148 | no model, no change; otherwise the model stands at the world height of the 2D body plus its offset, centred (at the ground line exactly at the offset), and takes the pose |
| Runner3D.Runner.UpdateWorld | src/features/game/game/Runner3D.ts:154-161 | no model, no change; otherwise only the height is set, to worldY plus the offset, and the pose applied |
| Runner3D.Runner.ApplyRunPose | src/features/game/game/Runner3D.ts:163-178 | ducking squashes to (0.7, 0.6, 0.7) and tilts by 0.3 without advancing the run clock; running restores the scale, advances the clock by 0.15 and sways about x by at most 0.08; y and z rotation stay at the base |
| Constants.ModelAssetUrl | src/config/constants.ts:2-3 | the URL starts with the base; exactly one leading `/` of the path is dropped; its length is the sum minus that slash |
| Constants.AbsoluteAndRelativeAgree | src/config/constants.ts:3 | a relative path and the same path written absolute give the same URL |
| Constants.OnlyOneSlashDropped | src/config/constants.ts:3 | `//x` keeps its second slash |
| Constants.ModelAssetUrlEndsWith | src/config/constants.ts:3 | the URL ends with whatever the path ends with |
| ModelMesh.Dispatch | src/components/three/ModelMesh.tsx:10-25 | the GLB branch exactly for `.glb`/`.gltf` (case-insensitive); there a `tako` URL is upright at 0.8 of the scale, other GLBs are not; STL passes the scale through; the URL and colour are passed on |
| ModelMesh.DefaultScale | src/components/three/ModelMesh.tsx:10 | without a scale the STL branch renders at 1 |
| ModelMesh.DispatchIgnoresCase | src/components/three/ModelMesh.tsx:11-12 | changing letter case in the URL changes neither the branch, nor the scale, nor `upright` |
| ModelMesh.DispatchUpperCase | src/components/three/ModelMesh.tsx:11-12 | an all-capitals URL is dispatched like the original |
| ModelMesh.StlIgnoresTako | src/components/three/ModelMesh.tsx:24 | a `.stl` URL takes the STL branch with its scale whether or not it mentions tako |
| Catalog.GetProducts | src/features/products/api/getProducts.ts:4-6 | the product list, unchanged |
| Catalog.GetProductById | src/features/products/api/getProducts.ts:8-11 | a found product has the id and is in the list, and is the first with that id; nothing is found exactly when no product has the id |
| Catalog.FirstMatchWins | src/features/products/api/getProducts.ts:9 | with several products under one id, the first in list order is returned |
| ProductStore.ProductStore.constructor | src/features/products/stores/useProductStore.ts:16-18 | nothing selected, modal closed, no colours |
| ProductStore.ProductStore.OpenModal | src/features/products/stores/useProductStore.ts:20-24 | the product is shown and the modal open; the colour map is untouched |
| ProductStore.ProductStore.CloseModal | src/features/products/stores/useProductStore.ts:26-29 | the modal is closed whatever it was (so closing is idempotent); the product is kept |
| ProductStore.ProductStore.ClearProduct | src/features/products/stores/useProductStore.ts:31-34 | the product is forgotten; the modal flag is untouched |
| ProductStore.ProductStore.SetSelectedViewColor | src/features/products/stores/useProductStore.ts:36-42 | the product's colour is set, the key set grows by at most that id, every other entry is kept |
| ProductStore.ProductStore.RecolorTwice | src/features/products/stores/useProductStore.ts:36-42 | of two writes for one product the last wins |
| UIStore.UIStore.constructor | src/stores/useUIStore.ts:16-26 | menu closed, scroll 0, not loading |
| UIStore.UIStore.ToggleMobileMenu | src/stores/useUIStore.ts:18-19 | the menu flag flips; nothing else changes |
| UIStore.UIStore.ToggleTwice | src/stores/useUIStore.ts:18-19 | toggling twice restores the menu flag |
| UIStore.UIStore.CloseMobileMenu | src/stores/useUIStore.ts:20 | the menu is closed afterwards whatever it was, so closing is idempotent |
| UIStore.UIStore.SetScrollY | src/stores/useUIStore.ts:23 | only the scroll position changes |
| UIStore.UIStore.SetLoading | src/stores/useUIStore.ts:26 | only the loading flag changes |
| FallingModels.ToyAt | src/components/three/FallingModelsScene.tsx:31-46 | toy i shows model i mod 3 of FanFan, Rabbit, Tako at its evenly spread height, falls at a speed in [0.12, 0.21] and starts at an x in [-0.85, 0.9] |
| FallingModels.CreateToys | src/components/three/FallingModelsScene.tsx:26-50 | the loop builds exactly eight configs, toy i being ToyAt(i) |
| FallingModels.InitialHeights | src/components/three/FallingModelsScene.tsx:27-31 | starting heights run from 1.3 for the first toy to -1.5 for the last, strictly decreasing, all in the fall band |
| FallingModels.ToyTables | src/components/three/FallingModelsScene.tsx:32-46 | every table index is in range; models cycle FanFan, Rabbit, Tako; speeds lie in [0.12, 0.21] |
| FallingModels.ToyMeshes | src/components/three/FallingModelsScene.tsx:78-82 | through ModelMesh every third toy (Tako) renders as an upright GLB at 0.32 and the others as STL at 0.4, whatever the base URL |
| FallingModels.TakoAsset | src/components/three/FallingModelsScene.tsx:35 | the Tako asset URL is a GLB that mentions `tako` |
| FallingModels.StlAsset | src/components/three/FallingModelsScene.tsx:33-34 | an `.stl` asset is never taken for a GLB |
| FallingModels.FallStep | src/components/three/FallingModelsScene.tsx:69-72 | a toy falls by delta times its speed and wraps to 1.3 once below -1.5, so it never ends below -1.5 and a non-rising toy in the band stays in it |
| FallingModels.FallingToy.constructor | src/components/three/FallingModelsScene.tsx:54-61 | the group starts at the toy's initial height, not turned, with the given initial rotation |
| FallingModels.FallingToy.Frame | src/components/three/FallingModelsScene.tsx:63-73 | the spin accumulates by delta * 0.35, the rotation is the initial one turned about y by the accumulated spin, and the height takes FallStep |
| FallingModels.ToysFitScene | src/components/three/FallingModelsScene.tsx:26-50 | every toy of the table starts inside the band with a positive speed |
| Scenes.Scene.NewObject | src/features/game/components/GamePage.tsx:320 | a created object gets a fresh id that is attached to nothing |
| Scenes.Scene.Add | src/features/game/components/GamePage.tsx:333 | `scene.add` attaches exactly that object |
| Scenes.Scene.Remove | src/features/game/components/GamePage.tsx:360 | `scene.remove` detaches exactly that object; removing a detached one does nothing |

## Left out

- Three.js construction, rendering and teardown are not modelled:
  - scene background and fog, camera, renderer, lights;
  - the ground plane and the dot grid;
  - `renderer.render`, resize handling and the cleanup effect with its `dispose` and `forceContextLoss` calls.

  They carry no game logic. The scene is the set of attached ids, and the dot grid is the single offset it scrolls by.
- Runner3D.Runner.constructor: the rig's own camera, renderer and lights, and `render`/`setSize`, are left out for the same reason. The constructor records only the shared scene.
- The loaders are not modelled: their internals, `geometry.center()`, normal computation and the material traversal. A load's outcome is the boolean `loaded`, and a loaded model carries the tint the traversal or the STL material would give it.
- Loads run as one sequential step. Two overlapping loads and a late, stale load are not modelled.
- GamePage.Game.InitialLoad: the 100 ms `setTimeout` before the store becomes ready is collapsed, so the store is ready when the method returns.
- Numbers are exact reals. IEEE rounding, overflow and NaN are not modelled.
- The collision's `Math.sqrt(dx² + dy²) < 1.1` is compared as `dx² + dy² < 1.1²`. This is the same test on reals.
- `Date.now()` and `Math.sin` are not computed:
  - the frame takes the two sine readings it uses as parameters;
  - the rig takes `Math.sin` as a function bounded by [-1, 1].
- `Math.random()` draws are parameters in [0, 1). The falling toys' random initial rotation is an unconstrained constructor argument (any Euler angles).
- `localStorage` is an optional stored value plus a flag for "no window, or storage throws". The key's text is not modelled. `parseInt` of a non-numeric stored string (NaN in the source) is not modelled: a stored value is an integer.
- The obstacle loop's `if (!obs) continue` and the `?? 0.22` default speed are not modelled. They cannot fire, since every listed obstacle was spawned with a speed.
- The `gameRef.current.scene &&` test in the spawn gate and the `if (scene)` around `scene.add` are not modelled. The page's scene exists from the start.
- An obstacle's geometry and colour per shape are not modelled; an obstacle keeps only its shape index.
- `requestAnimationFrame` and `frameId` are not modelled: `Step` is one frame.
- The product data file is not part of this model. The list is a parameter of `GetProducts` and `GetProductById`, and the Promise wrapping is dropped.
- Case mapping is ASCII only. Non-ASCII letters are left as they are.
- All JSX and presentation is left out:
  - the rotate-to-landscape modal, overlays, links and button styling;
  - every presentational component.

  The buttons' handlers call `setSelectedModel`, `startGame` and `restart`, which are modelled.
- FallingModels.FallingToy.Frame: keeps the toy in the fall band only for a non-negative frame delta. The frame clock never runs backwards, and with a negative delta the source itself lets the toy rise above the band. The callback's `if (!group.current) return` before mounting is not modelled.
- FallingModels.FallingToy.constructor: requires a starting height in the band and a non-negative speed. Every toy of the table meets this (`FallingModels.ToysFitScene`).
