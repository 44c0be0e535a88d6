/**
 * The rules of one frame of the runner in src/features/game/components/GamePage.tsx,
 * as functions over a snapshot of the game record. The Game class in
 * GamePage runs these rules imperatively and is proved to agree with Tick.
 * Positions and speeds are exact reals; each `Math.random()` draw is a value
 * in [0, 1) supplied from outside.
 */
module GameRules {

  const PLAYER_X: real := -4.0
  const OBSTACLE_SPEED_MIN: real := 0.15
  const OBSTACLE_SPEED_MAX: real := 0.32
  /** Minimum number of frames between two spawns. */
  const OBSTACLE_MIN_INTERVAL: int := 130
  /** Minimum gap between the spawn edge and the rightmost obstacle. */
  const OBSTACLE_MIN_DISTANCE: real := 12.0
  const JUMP_FORCE: real := 0.26
  const GRAVITY: real := 0.013
  const MAX_JUMPS: int := 2

  /** Where obstacles appear and where they are discarded. */
  const SPAWN_X: real := 25.0
  const DESPAWN_X: real := -15.0
  /** Height of a short obstacle's centre, and how much higher a tall one sits. */
  const OBSTACLE_BASE_Y: real := 0.8
  const TALL_LIFT: real := 0.6
  /** Height of the player's centre above its ground position. */
  const PLAYER_BASE_Y: real := 0.7
  const HIT_RADIUS: real := 1.1
  const SCORE_PER_SPAWN: int := 10
  const OBSTACLE_SPIN: real := 0.02
  /** The dotted ground scrolls left by DOT_STEP a frame and wraps below DOT_WRAP. */
  const DOT_STEP: real := 0.18
  const DOT_WRAP: real := -2.0
  /** `rightmostX` when there are no obstacles. */
  const NO_OBSTACLE_X: real := -999.0

  /** `gameRef.current.gameState`: 'START', 'PLAYING' or 'GAMEOVER'. */
  datatype GameState = Start | Playing | GameOver

  /** The player's vertical kinematics. */
  datatype Body = Body(posY: real, velocityY: real, isJumping: bool, jumpsRemaining: int)

  /** Standing on the ground with the full jump budget. */
  const Rest: Body := Body(0.0, 0.0, false, MAX_JUMPS)

  /**
   * Never below the ground, budget within 0..MAX_JUMPS, and a body that is
   * not jumping is at rest on the ground with its budget restored.
   */
  predicate BodyOk(b: Body) {
    && b.posY >= 0.0
    && 0 <= b.jumpsRemaining <= MAX_JUMPS
    && (!b.isJumping ==> b == Rest)
  }

  /**
   * `jump()`: only while playing and with budget left; spends one unit and
   * sets the upward velocity, wherever the body is.
   */
  function Jump(b: Body, playing: bool): (r: Body)
    ensures !playing || b.jumpsRemaining <= 0 ==> r == b
    ensures playing && b.jumpsRemaining > 0 ==>
              r == Body(b.posY, JUMP_FORCE, true, b.jumpsRemaining - 1)
    ensures BodyOk(b) ==> BodyOk(r)
  {
    if !playing || b.jumpsRemaining <= 0 then b
    else b.(jumpsRemaining := b.jumpsRemaining - 1, isJumping := true, velocityY := JUMP_FORCE)
  }

  /**
   * The physics part of a frame: while jumping or above ground, gravity
   * lowers the velocity and the velocity moves the body; reaching the ground
   * puts it at rest with a full budget.
   */
  function Integrate(b: Body): (r: Body)
    ensures b.isJumping || b.posY >= 0.0 ==> r.posY >= 0.0
    ensures BodyOk(b) ==> BodyOk(r)
    ensures !(b.isJumping || b.posY > 0.0) ==> r == b
    ensures (b.isJumping || b.posY > 0.0) && r.posY == 0.0 ==> r == Rest
    ensures (b.isJumping || b.posY > 0.0) && b.posY + b.velocityY - GRAVITY > 0.0 ==>
              r == b.(posY := b.posY + b.velocityY - GRAVITY, velocityY := b.velocityY - GRAVITY)
    ensures (b.isJumping || b.posY > 0.0) && b.posY + b.velocityY - GRAVITY <= 0.0 ==> r == Rest
  {
    if b.isJumping || b.posY > 0.0 then
      var v := b.velocityY - GRAVITY;
      var p := b.posY + v;
      if p <= 0.0 then Rest else b.(velocityY := v, posY := p)
    else b
  }

  /**
   * The jump budget allows exactly a double jump: from the ground, two
   * requests spend it and a third, before landing, changes nothing.
   */
  lemma DoubleJumpOnly(b: Body)
    requires BodyOk(b) && !b.isJumping
    ensures Jump(b, true).jumpsRemaining == 1
    ensures Jump(Jump(b, true), true).jumpsRemaining == 0
    ensures Jump(Jump(Jump(b, true), true), true) == Jump(Jump(b, true), true)
  {
  }

  /** The ground-dot scroll of one frame. */
  function ScrollDots(x: real): (r: real)
    ensures r >= DOT_WRAP
    ensures x <= DOT_STEP ==> r <= 0.0
    ensures x - DOT_STEP >= DOT_WRAP ==> r == x - DOT_STEP
    ensures x - DOT_STEP < DOT_WRAP ==> r == 0.0
  {
    var moved := x - DOT_STEP;
    if moved < DOT_WRAP then 0.0 else moved
  }

  /** An obstacle as the page keeps it: its mesh, shape, position, size and speed. */
  datatype Obstacle = Obstacle(
    mesh: nat,
    kind: int,
    x: real,
    y: real,
    scaleY: int,
    speed: real,
    rotationY: real)

  /** What every spawned obstacle satisfies, wherever it has moved to. */
  predicate WellFormed(o: Obstacle) {
    && 0 <= o.kind < 3
    && (o.scaleY == 1 || o.scaleY == 2)
    && o.y == OBSTACLE_BASE_Y + (o.scaleY - 1) as real * TALL_LIFT
    && OBSTACLE_SPEED_MIN <= o.speed < OBSTACLE_SPEED_MAX
  }

  predicate AllWellFormed(s: seq<Obstacle>) {
    forall i :: 0 <= i < |s| ==> WellFormed(s[i])
  }

  /** The three `Math.random()` draws a spawn may use. */
  datatype Draws = Draws(kind: real, tall: real, speed: real)

  predicate DrawsOk(d: Draws) {
    0.0 <= d.kind < 1.0 && 0.0 <= d.tall < 1.0 && 0.0 <= d.speed < 1.0
  }

  /**
   * A new obstacle at the spawn edge: a uniformly drawn shape, tall with
   * probability one half unless the previous one was tall, and a speed in
   * [OBSTACLE_SPEED_MIN, OBSTACLE_SPEED_MAX).
   */
  function NewObstacle(mesh: nat, lastScaleY: int, d: Draws): (o: Obstacle)
    requires DrawsOk(d)
    ensures WellFormed(o)
    ensures o.mesh == mesh && o.x == SPAWN_X && o.rotationY == 0.0
    ensures lastScaleY == 2 ==> o.scaleY == 1
    ensures lastScaleY != 2 ==> (o.scaleY == 2 <==> d.tall < 0.5)
  {
    var kind := (d.kind * 3.0).Floor;
    var scaleY := if lastScaleY == 2 then 1 else if d.tall < 0.5 then 2 else 1;
    var speed := OBSTACLE_SPEED_MIN + d.speed * (OBSTACLE_SPEED_MAX - OBSTACLE_SPEED_MIN);
    Obstacle(mesh, kind, SPAWN_X, OBSTACLE_BASE_Y + (scaleY - 1) as real * TALL_LIFT, scaleY, speed, 0.0)
  }

  /** `Math.max(...obstacles.map(o => o.position.x))`, or NO_OBSTACLE_X for none. */
  function RightmostX(s: seq<Obstacle>): (r: real)
    ensures forall i :: 0 <= i < |s| ==> s[i].x <= r
    ensures s == [] ==> r == NO_OBSTACLE_X
    ensures s != [] ==> exists i :: 0 <= i < |s| && s[i].x == r
  {
    if |s| == 0 then NO_OBSTACLE_X
    else if |s| == 1 then s[0].x
    else
      var rest := RightmostX(s[1..]);
      assert forall i :: 1 <= i < |s| ==> s[i] == s[1..][i - 1];
      if s[0].x >= rest then s[0].x else rest
  }

  /**
   * The spawn gate, given the already incremented timer: enough frames have
   * passed and the rightmost obstacle is far enough from the spawn edge.
   */
  predicate CanSpawn(timer: int, s: seq<Obstacle>): (r: bool)
    ensures r ==> timer > OBSTACLE_MIN_INTERVAL
    ensures r ==> forall i :: 0 <= i < |s| ==> s[i].x <= SPAWN_X - OBSTACLE_MIN_DISTANCE
  {
    timer > OBSTACLE_MIN_INTERVAL && RightmostX(s) <= SPAWN_X - OBSTACLE_MIN_DISTANCE
  }

  /** The gate holds exactly when the timer is past the interval and every obstacle is clear of the edge. */
  lemma CanSpawnIff(timer: int, s: seq<Obstacle>)
    ensures CanSpawn(timer, s) <==>
              timer > OBSTACLE_MIN_INTERVAL &&
              forall i :: 0 <= i < |s| ==> s[i].x <= SPAWN_X - OBSTACLE_MIN_DISTANCE
  {
    if s != [] {
      var r := RightmostX(s);
      var k :| 0 <= k < |s| && s[k].x == r;
    }
  }

  /** One obstacle's move in a frame: left by its speed, spinning a little. */
  function Advance(o: Obstacle): (r: Obstacle)
    ensures WellFormed(o) ==> WellFormed(r)
    ensures r.x == o.x - o.speed && r.rotationY == o.rotationY + OBSTACLE_SPIN
    ensures WellFormed(o) ==> r.x < o.x
    ensures r.mesh == o.mesh && r.scaleY == o.scaleY && r.kind == o.kind && r.y == o.y && r.speed == o.speed
  {
    o.(x := o.x - o.speed, rotationY := o.rotationY + OBSTACLE_SPIN)
  }

  /** Past the trailing cutoff: removed from the scene and the list. */
  predicate Expired(o: Obstacle) {
    o.x < DESPAWN_X
  }

  /**
   * Contact: the obstacle's centre is within HIT_RADIUS of the player's
   * centre (PLAYER_X, posY + PLAYER_BASE_Y); compared squared, no square root.
   */
  predicate Collides(o: Obstacle, posY: real): (r: bool)
    ensures r ==> -HIT_RADIUS < o.x - PLAYER_X < HIT_RADIUS
    ensures r ==> -HIT_RADIUS < o.y - (posY + PLAYER_BASE_Y) < HIT_RADIUS
    ensures o.x == PLAYER_X && -HIT_RADIUS < o.y - (posY + PLAYER_BASE_Y) < HIT_RADIUS ==> r
  {
    var dx := o.x - PLAYER_X;
    var dy := o.y - (posY + PLAYER_BASE_Y);
    WithinRadius(dx, dy);
    dx * dx + dy * dy < HIT_RADIUS * HIT_RADIUS
  }

  /** Within the hit circle means within HIT_RADIUS on each axis; on the vertical axis alone the converse holds. */
  lemma WithinRadius(dx: real, dy: real)
    ensures dx * dx + dy * dy < HIT_RADIUS * HIT_RADIUS ==> -HIT_RADIUS < dx < HIT_RADIUS && -HIT_RADIUS < dy < HIT_RADIUS
    ensures dx == 0.0 && -HIT_RADIUS < dy < HIT_RADIUS ==> dx * dx + dy * dy < HIT_RADIUS * HIT_RADIUS
  {
    SquareBelow(dx);
    SquareBelow(dy);
    assert dx * dx >= 0.0 && dy * dy >= 0.0;
    if dx == 0.0 {
      assert dx * dx == 0.0;
    }
  }

  /** A square is below HIT_RADIUS squared exactly when the value is within HIT_RADIUS of 0. */
  lemma SquareBelow(y: real)
    ensures y * y < HIT_RADIUS * HIT_RADIUS <==> -HIT_RADIUS < y < HIT_RADIUS
  {
    var h := HIT_RADIUS;
    var a := if y >= 0.0 then y else -y;
    assert y * y == a * a;
    if a >= h {
      assert a * a >= h * a >= h * h;
    } else {
      assert a * a <= h * a < h * h;
      assert y * y < HIT_RADIUS * HIT_RADIUS;
    }
  }

  /** The obstacles left after a frame's pass: each advanced, the expired dropped, order kept. */
  function Pass(s: seq<Obstacle>): (r: seq<Obstacle>)
    ensures |r| <= |s|
    ensures forall i :: 0 <= i < |r| ==> !Expired(r[i])
    ensures AllWellFormed(s) ==> AllWellFormed(r)
  {
    if s == [] then []
    else
      var o := Advance(s[0]);
      var rest := Pass(s[1..]);
      assert AllWellFormed(s) ==> AllWellFormed(s[1..]) by {
        if AllWellFormed(s) {
          forall i | 0 <= i < |s[1..]| ensures WellFormed(s[1..][i]) {
            assert s[1..][i] == s[i + 1];
          }
        }
      }
      (if Expired(o) then [] else [o]) + rest
  }

  /** Some obstacle, once advanced, touches the player. */
  predicate AnyHit(s: seq<Obstacle>, posY: real) {
    s != [] && (Collides(Advance(s[0]), posY) || AnyHit(s[1..], posY))
  }

  /** The meshes of the obstacles a pass removes. */
  function ExpiredMeshes(s: seq<Obstacle>): set<nat> {
    if s == [] then {}
    else (if Expired(Advance(s[0])) then {s[0].mesh} else {}) + ExpiredMeshes(s[1..])
  }

  function Meshes(s: seq<Obstacle>): set<nat> {
    if s == [] then {} else {s[0].mesh} + Meshes(s[1..])
  }

  /** No two obstacles share a mesh. */
  predicate DistinctMeshes(s: seq<Obstacle>) {
    s == [] || (s[0].mesh !in Meshes(s[1..]) && DistinctMeshes(s[1..]))
  }

  /** One step of the pass, read from position i of a list. */
  lemma PassStep(a: seq<Obstacle>, i: nat, posY: real)
    requires i < |a|
    ensures Pass(a[i..]) == (if Expired(Advance(a[i])) then [] else [Advance(a[i])]) + Pass(a[i + 1..])
    ensures ExpiredMeshes(a[i..]) == (if Expired(Advance(a[i])) then {a[i].mesh} else {}) + ExpiredMeshes(a[i + 1..])
    ensures AnyHit(a[i..], posY) == (Collides(Advance(a[i]), posY) || AnyHit(a[i + 1..], posY))
  {
    assert a[i..][0] == a[i];
    assert a[i..][1..] == a[i + 1..];
  }

  /** Survivors keep their relative order: a pass over a concatenation is the concatenation of passes. */
  lemma {:induction false} PassAppend(a: seq<Obstacle>, b: seq<Obstacle>)
    ensures Pass(a + b) == Pass(a) + Pass(b)
  {
    if a == [] {
      assert a + b == b;
    } else {
      assert (a + b)[0] == a[0];
      assert (a + b)[1..] == a[1..] + b;
      PassAppend(a[1..], b);
    }
  }

  /** An obstacle survives the pass, advanced, exactly when it does not cross the cutoff. */
  lemma {:induction false} PassKeeps(s: seq<Obstacle>, i: nat)
    requires i < |s|
    ensures !Expired(Advance(s[i])) ==> Advance(s[i]) in Pass(s)
    ensures Expired(Advance(s[i])) ==> s[i].mesh in ExpiredMeshes(s)
  {
    if i > 0 {
      PassKeeps(s[1..], i - 1);
      assert s[1..][i - 1] == s[i];
    }
  }

  /** A collision is any advanced obstacle within reach; the loop does not stop at the first. */
  lemma {:induction false} AnyHitIff(s: seq<Obstacle>, posY: real)
    ensures AnyHit(s, posY) <==> exists i :: 0 <= i < |s| && Collides(Advance(s[i]), posY)
  {
    if s != [] {
      AnyHitIff(s[1..], posY);
      if AnyHit(s[1..], posY) {
        var i :| 0 <= i < |s[1..]| && Collides(Advance(s[1..][i]), posY);
        assert s[1..][i] == s[i + 1];
      }
      if exists i :: 0 <= i < |s| && Collides(Advance(s[i]), posY) {
        var i :| 0 <= i < |s| && Collides(Advance(s[i]), posY);
        if i > 0 {
          assert s[1..][i - 1] == s[i];
        }
      }
    }
  }

  lemma {:induction false} MeshesAppend(s: seq<Obstacle>, o: Obstacle)
    ensures Meshes(s + [o]) == Meshes(s) + {o.mesh}
    ensures o.mesh !in Meshes(s) && DistinctMeshes(s) ==> DistinctMeshes(s + [o])
  {
    if s != [] {
      assert (s + [o])[1..] == s[1..] + [o];
      MeshesAppend(s[1..], o);
    } else {
      assert s + [o] == [o];
    }
  }

  lemma {:induction false} ExpiredMeshesWithin(s: seq<Obstacle>)
    ensures ExpiredMeshes(s) <= Meshes(s)
  {
    if s != [] {
      ExpiredMeshesWithin(s[1..]);
    }
  }

  /** With distinct meshes, the pass keeps exactly the meshes it does not remove. */
  lemma {:induction false} PassMeshes(s: seq<Obstacle>)
    requires DistinctMeshes(s)
    ensures Meshes(Pass(s)) == Meshes(s) - ExpiredMeshes(s)
    ensures DistinctMeshes(Pass(s))
  {
    if s != [] {
      var o := Advance(s[0]);
      var rest := Pass(s[1..]);
      PassMeshes(s[1..]);
      ExpiredMeshesWithin(s[1..]);
      if Expired(o) {
        assert Pass(s) == [] + rest == rest;
      } else {
        assert Pass(s) == [o] + rest;
        assert ([o] + rest)[0] == o && ([o] + rest)[1..] == rest;
      }
    }
  }

  /** The game record that a frame reads and writes, apart from the scene and store. */
  datatype World = World(
    body: Body,
    obstacleTimer: int,
    lastObstacleScaleY: int,
    score: int,
    gameState: GameState,
    obstacles: seq<Obstacle>,
    groundDotsX: real)

  /** What holds of the record between frames. */
  predicate WorldOk(w: World) {
    && BodyOk(w.body)
    && w.obstacleTimer >= 0
    && (w.lastObstacleScaleY == 1 || w.lastObstacleScaleY == 2)
    && DOT_WRAP <= w.groundDotsX <= 0.0
    && AllWellFormed(w.obstacles)
    && DistinctMeshes(w.obstacles)
  }

  /** The record as `startGame` leaves it (ground dots are not reset). */
  function Started(groundDotsX: real): (w: World)
    ensures w.obstacles == [] && w.body == Rest && w.score == 0 && w.gameState == Playing
    ensures DOT_WRAP <= groundDotsX <= 0.0 ==> WorldOk(w)
  {
    World(Rest, 0, 1, 0, Playing, [], groundDotsX)
  }

  /** Whether the frame after w spawns an obstacle. */
  predicate Spawns(w: World) {
    w.gameState == Playing && CanSpawn(w.obstacleTimer + 1, w.obstacles)
  }

  /** The obstacle list after the spawn step, before the pass. */
  function Spawned(w: World, mesh: nat, d: Draws): seq<Obstacle>
    requires DrawsOk(d)
  {
    if Spawns(w) then w.obstacles + [NewObstacle(mesh, w.lastObstacleScaleY, d)] else w.obstacles
  }

  /**
   * The PLAYING branch of `animate` up to the obstacle pass: physics, ground
   * scroll, and the spawn step (new obstacle's mesh `mesh`).
   */
  function BeforeObstaclePass(w: World, mesh: nat, d: Draws): World
    requires DrawsOk(d)
  {
    var spawn := Spawns(w);
    var o := NewObstacle(mesh, w.lastObstacleScaleY, d);
    World(
      Integrate(w.body),
      if spawn then 0 else w.obstacleTimer + 1,
      if spawn then o.scaleY else w.lastObstacleScaleY,
      if spawn then w.score + SCORE_PER_SPAWN else w.score,
      w.gameState,
      Spawned(w, mesh, d),
      ScrollDots(w.groundDotsX))
  }

  /** The obstacle pass, with collision against the body's (already updated) height. */
  function ObstaclePass(w: World): World {
    w.(obstacles := Pass(w.obstacles),
       gameState := if AnyHit(w.obstacles, w.body.posY) then GameOver else w.gameState)
  }

  /**
   * One frame of `animate` on the record: in PLAYING, the steps before the
   * obstacle pass and then the pass. In any other state the record is left alone.
   */
  function Tick(w: World, mesh: nat, d: Draws): (r: World)
    requires DrawsOk(d)
    ensures w.gameState != Playing ==> r == w
    ensures w.gameState == Playing ==> r.gameState == Playing || r.gameState == GameOver
    ensures w.gameState == Playing ==> r.body == Integrate(w.body) && r.groundDotsX == ScrollDots(w.groundDotsX)
    ensures r.score == w.score || r.score == w.score + SCORE_PER_SPAWN
  {
    if w.gameState != Playing then w
    else ObstaclePass(BeforeObstaclePass(w, mesh, d))
  }

  /** Frames preserve the record's invariant, given a mesh no obstacle already uses. */
  lemma TickKeepsWorldOk(w: World, mesh: nat, d: Draws)
    requires WorldOk(w) && DrawsOk(d) && mesh !in Meshes(w.obstacles)
    ensures WorldOk(Tick(w, mesh, d))
  {
    if w.gameState == Playing {
      var pre := Spawned(w, mesh, d);
      if Spawns(w) {
        MeshesAppend(w.obstacles, NewObstacle(mesh, w.lastObstacleScaleY, d));
      }
      PassMeshes(pre);
    }
  }

  /**
   * Scoring is per spawn: a frame adds SCORE_PER_SPAWN exactly when it
   * spawns and nothing otherwise; a spawn appends exactly one obstacle.
   */
  lemma TickScore(w: World, mesh: nat, d: Draws)
    requires DrawsOk(d)
    ensures Tick(w, mesh, d).score == w.score + (if Spawns(w) then SCORE_PER_SPAWN else 0)
    ensures |Spawned(w, mesh, d)| == |w.obstacles| + (if Spawns(w) then 1 else 0)
  {
  }

  /**
   * A spawn needs more than OBSTACLE_MIN_INTERVAL frames since the last one
   * and every obstacle at least OBSTACLE_MIN_DISTANCE behind the new one;
   * it resets the timer and records the new obstacle's height, which is
   * short whenever the previous one was tall.
   */
  lemma TickSpawnRules(w: World, mesh: nat, d: Draws)
    requires DrawsOk(d) && Spawns(w)
    ensures w.obstacleTimer + 1 > OBSTACLE_MIN_INTERVAL
    ensures forall i :: 0 <= i < |w.obstacles| ==>
              SPAWN_X - w.obstacles[i].x >= OBSTACLE_MIN_DISTANCE
    ensures Tick(w, mesh, d).obstacleTimer == 0
    ensures Tick(w, mesh, d).lastObstacleScaleY == NewObstacle(mesh, w.lastObstacleScaleY, d).scaleY
    ensures w.lastObstacleScaleY == 2 ==> Tick(w, mesh, d).lastObstacleScaleY == 1
  {
    CanSpawnIff(w.obstacleTimer + 1, w.obstacles);
  }

  /**
   * The pass in a playing frame: the old obstacles move on and are culled in
   * order, followed by the new one if it was spawned and survived its first
   * move; the game ends exactly when some advanced obstacle touches the
   * player at its new height.
   */
  lemma TickObstacles(w: World, mesh: nat, d: Draws)
    requires DrawsOk(d) && w.gameState == Playing
    ensures Tick(w, mesh, d).obstacles ==
              Pass(w.obstacles) + (if Spawns(w) then Pass([NewObstacle(mesh, w.lastObstacleScaleY, d)]) else [])
    ensures Tick(w, mesh, d).gameState == GameOver <==>
              exists i :: 0 <= i < |Spawned(w, mesh, d)| &&
                Collides(Advance(Spawned(w, mesh, d)[i]), Integrate(w.body).posY)
  {
    var pre := Spawned(w, mesh, d);
    if Spawns(w) {
      PassAppend(w.obstacles, [NewObstacle(mesh, w.lastObstacleScaleY, d)]);
    } else {
      assert Pass(w.obstacles) + [] == Pass(w.obstacles);
    }
    AnyHitIff(pre, Integrate(w.body).posY);
  }

  /** Frames in sequence, the i-th frame's new mesh being mesh + i. */
  function Run(w: World, mesh: nat, ds: seq<Draws>): World
    requires forall i :: 0 <= i < |ds| ==> DrawsOk(ds[i])
    decreases |ds|
  {
    if ds == [] then w else Run(Tick(w, mesh, ds[0]), mesh + 1, ds[1..])
  }

  /**
   * Spawns are spaced: from a frame with timer t, the next
   * OBSTACLE_MIN_INTERVAL - t frames add nothing to the score.
   */
  lemma {:induction false} NoSpawnWithinInterval(w: World, mesh: nat, ds: seq<Draws>)
    requires forall i :: 0 <= i < |ds| ==> DrawsOk(ds[i])
    requires w.obstacleTimer >= 0 && w.obstacleTimer + |ds| <= OBSTACLE_MIN_INTERVAL
    ensures Run(w, mesh, ds).score == w.score
    ensures Run(w, mesh, ds).obstacleTimer <= w.obstacleTimer + |ds|
    decreases |ds|
  {
    if ds != [] {
      var w' := Tick(w, mesh, ds[0]);
      assert !Spawns(w);
      NoSpawnWithinInterval(w', mesh + 1, ds[1..]);
    }
  }

  /**
   * A fresh run spawns nothing in its first OBSTACLE_MIN_INTERVAL frames and
   * stays playing at rest with an empty course; the next frame spawns.
   */
  lemma {:induction false} FreshRunQuietStart(w: World, mesh: nat, ds: seq<Draws>)
    requires forall i :: 0 <= i < |ds| ==> DrawsOk(ds[i])
    requires w.gameState == Playing && w.obstacles == [] && w.body == Rest && w.obstacleTimer >= 0
    requires w.obstacleTimer + |ds| <= OBSTACLE_MIN_INTERVAL
    ensures Run(w, mesh, ds).obstacles == []
    ensures Run(w, mesh, ds).gameState == Playing
    ensures Run(w, mesh, ds).body == Rest
    ensures Run(w, mesh, ds).score == w.score
    ensures Run(w, mesh, ds).obstacleTimer == w.obstacleTimer + |ds|
    decreases |ds|
  {
    if ds != [] {
      var w' := Tick(w, mesh, ds[0]);
      assert w'.obstacles == [] && w'.body == Rest && w'.gameState == Playing;
      FreshRunQuietStart(w', mesh + 1, ds[1..]);
    }
  }

  /** After OBSTACLE_MIN_INTERVAL quiet frames, the first obstacle appears. */
  lemma FirstSpawnAfterInterval(w: World, mesh: nat, ds: seq<Draws>, d: Draws, mesh2: nat)
    requires forall i :: 0 <= i < |ds| ==> DrawsOk(ds[i])
    requires DrawsOk(d)
    requires w.gameState == Playing && w.obstacles == [] && w.body == Rest && w.obstacleTimer == 0
    requires |ds| == OBSTACLE_MIN_INTERVAL
    ensures Spawns(Run(w, mesh, ds))
    ensures Tick(Run(w, mesh, ds), mesh2, d).score == w.score + SCORE_PER_SPAWN
  {
    FreshRunQuietStart(w, mesh, ds);
  }

  /** No two consecutive spawns in a height history are tall. */
  predicate NoTallPair(h: seq<int>) {
    forall i :: 0 <= i < |h| - 1 ==> !(h[i] == 2 && h[i + 1] == 2)
  }

  /** `lastObstacleScaleY` as a function of the heights spawned so far (1 before any). */
  function LastHeight(h: seq<int>): int {
    if h == [] then 1 else h[|h| - 1]
  }

  /** A spawn that respects the anti-repetition rule keeps the history free of tall pairs. */
  lemma NoTallPairAppend(h: seq<int>, next: int)
    requires NoTallPair(h)
    requires LastHeight(h) == 2 ==> next == 1
    ensures NoTallPair(h + [next]) && LastHeight(h + [next]) == next
  {
    var h' := h + [next];
    forall i | 0 <= i < |h'| - 1 ensures !(h'[i] == 2 && h'[i + 1] == 2) {
      if i < |h| - 1 {
        assert h'[i] == h[i] && h'[i + 1] == h[i + 1];
      } else {
        assert h'[i] == LastHeight(h) && h'[i + 1] == next;
      }
    }
  }
}
