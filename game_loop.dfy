/** The game state that src/main.cpp keeps in globals (initial values from src/util.h) and
    the frame-by-frame updates of `updateScene`, `move_func` and `key_callback`. */
module GameLoop {
  import opened Common
  import opened Objects
  import opened GameRules
  import Particles

  // GLFW's key and action codes.
  const KeySpace: int := 32
  const KeyZ: int := 90
  const KeyEscape: int := 256
  const KeyRight: int := 262
  const KeyLeft: int := 263
  const Release: int := 0
  const Press: int := 1

  /** The size of the `keys` table. */
  const NumKeys: int := 1024

  /** The slices and stacks of the player's snowball (src/util.h:86). */
  const SnowballSegments: nat := 20

  /** A scene recycle moves a model matrix back by 200 along z: `translate(0, 0, -200) * M`
      adds -200 to the z translation of M and leaves the rest of M as it is. */
  const RecycleShift: real := 200.0

  /** The z translations of a list of model matrices after one recycle. */
  function Shifted(zs: seq<real>): (r: seq<real>)
    ensures |r| == |zs|
    ensures forall i :: 0 <= i < |zs| ==> r[i] + RecycleShift == zs[i]
    ensures forall i, j :: 0 <= i < |zs| && 0 <= j < |zs| ==> r[i] - r[j] == zs[i] - zs[j]
  {
    seq(|zs|, i requires 0 <= i < |zs| => zs[i] - RecycleShift)
  }

  /** The z translations of one scene's models: grass, trees, terrain and path. */
  datatype Scene = Scene(grass: seq<real>, tree: seq<real>, terrain: seq<real>, path: real)

  /** A scene moved back by a recycle: its plants if drawn, its terrain if drawn, always its
      path. */
  function MovedBack(sc: Scene, drawPlant: bool, drawTerrain: bool): (r: Scene)
    ensures r.path == sc.path - RecycleShift
    ensures |r.grass| == |sc.grass| && |r.tree| == |sc.tree| && |r.terrain| == |sc.terrain|
    ensures !drawPlant ==> r.grass == sc.grass && r.tree == sc.tree
    ensures !drawTerrain ==> r.terrain == sc.terrain
  {
    Scene(if drawPlant then Shifted(sc.grass) else sc.grass,
          if drawPlant then Shifted(sc.tree) else sc.tree,
          if drawTerrain then Shifted(sc.terrain) else sc.terrain,
          sc.path - RecycleShift)
  }

  /** Both scenes, and whether scene A is the one the next recycle moves. */
  datatype Scenery = Scenery(a: Scene, b: Scene, updateA: bool)

  /** The recycle test of a frame whose distance counter is `delta`: past 100 the scene
      `updateA` names moves back, the other stays and is next; otherwise nothing moves. The
      flags say which models of each scene are drawn. */
  function Recycle(sc: Scenery, delta: real, plantA: bool, terrainA: bool, plantB: bool, terrainB: bool): (r: Scenery)
    ensures delta > 100.0 ==> r.updateA == !sc.updateA
    ensures delta > 100.0 && sc.updateA ==> r.a.path == sc.a.path - RecycleShift && r.b == sc.b
    ensures delta > 100.0 && !sc.updateA ==> r.b.path == sc.b.path - RecycleShift && r.a == sc.a
    ensures delta <= 100.0 ==> r == sc
  {
    if delta <= 100.0 then sc
    else if sc.updateA then sc.(a := MovedBack(sc.a, plantA, terrainA), updateA := false)
    else sc.(b := MovedBack(sc.b, plantB, terrainB), updateA := true)
  }

  /** The snowball's position and speed, and the game's distances. */
  datatype Motion = Motion(position: Vec3, speed: real, offsetZ: real, distTotal: real, distDelta: real)

  /** The physics step of a frame of length `dt`, taken only while `running`: the ball moves
      back along z by its speed times `dt`, which is also this frame's `offset_z` and what
      both distances grow by; it sits on `radius` and accelerates. */
  function Step(m: Motion, running: bool, accelerator: real, radius: real, dt: real): (r: Motion)
    ensures r.offsetZ == (if running then m.speed * dt else 0.0)
    ensures r.distTotal == m.distTotal + r.offsetZ && r.distDelta == m.distDelta + r.offsetZ
    ensures r.position.x == m.position.x
    ensures running ==>
      r.position.z == m.position.z - r.offsetZ && r.position.y == radius && r.speed == m.speed + accelerator * dt
    ensures !running ==> r.position == m.position && r.speed == m.speed
  {
    if running then
      var d := m.speed * dt;
      Motion(m.position.(z := m.position.z - d, y := radius), m.speed + accelerator * dt, d,
             m.distTotal + d, m.distDelta + d)
    else
      m.(offsetZ := 0.0)
  }

  /** The ball after the melt of a physics step: `setRadius(radius - meltSpeed * dt)` while
      `running`, unchanged otherwise. */
  function Melt(s: BallShape, running: bool, meltSpeed: real, dt: real): (t: BallShape)
    ensures t.radius == s.radius - (if running then meltSpeed * dt else 0.0)
    ensures t.slices == s.slices && t.stacks == s.stacks
    ensures !running ==> t == s
  {
    if running then Resized(s, s.radius - meltSpeed * dt) else s
  }

  /** The distance counter after the recycle test. */
  function Recycled(delta: real): (d: real)
    ensures delta > 100.0 ==> d == delta - 100.0 && d > 0.0
    ensures delta <= 100.0 ==> d == delta
  {
    if delta > 100.0 then delta - 100.0 else delta
  }

  /** The two stage machines and the flags they drive. */
  datatype Stages = Stages(stageA: nat, stageB: nat, drawPlantA: bool, drawPlantB: bool,
                           drawTerrainA: bool, drawTerrainB: bool, drawSnow: bool, startMovePS: bool,
                           drawSnowHouse: bool, pathMudA: bool, pathMudB: bool)

  /** The stage machines and their flags after `updateScene`'s checks at distance `dist`:
      scene A gets mud and terrain past 900, snow past 1900 and loses terrain past 2500;
      scene B gets mud and terrain past 1000, the moving snow generator past 2000 and loses
      terrain past 2600; the snow house appears past 2700. */
  function Advanced(s: Stages, dist: real): Stages
  {
    Stages(NextStage(s.stageA, dist, 900.0, 1900.0),
           NextStage(s.stageB, dist, 1000.0, 2000.0),
           s.drawPlantA && !(s.stageA == 1 && dist > 900.0),
           s.drawPlantB && !(s.stageB == 1 && dist > 1000.0),
           dist <= 2500.0 && (s.drawTerrainA || (s.stageA == 1 && dist > 900.0)),
           dist <= 2600.0 && (s.drawTerrainB || (s.stageB == 1 && dist > 1000.0)),
           s.drawSnow || ((s.stageA == 1 || s.stageA == 2) && dist > 1900.0),
           s.startMovePS || ((s.stageB == 1 || s.stageB == 2) && dist > 2000.0),
           s.drawSnowHouse || dist > 2700.0,
           s.pathMudA || (s.stageA == 1 && dist > 900.0),
           s.pathMudB || (s.stageB == 1 && dist > 1000.0))
  }

  /** The stages and flags as src/util.h starts them. */
  const StartStages: Stages := Stages(1, 1, true, true, false, false, false, false, false, false, false)

  /** From the start, the stage machines and their flags are a function of the distance
      alone, one threshold per flag. */
  lemma AdvancedFromStart(d: real)
    ensures Advanced(StartStages, d) ==
      Stages(if d > 1900.0 then 3 else if d > 900.0 then 2 else 1,
             if d > 2000.0 then 3 else if d > 1000.0 then 2 else 1,
             d <= 900.0, d <= 1000.0, 900.0 < d <= 2500.0, 1000.0 < d <= 2600.0,
             d > 1900.0, d > 2000.0, d > 2700.0, d > 900.0, d > 1000.0)
  {
  }

  /** A second round of checks at the same distance changes nothing. */
  lemma AdvancedIdempotent(s: Stages, d: real)
    ensures Advanced(Advanced(s, d), d) == Advanced(s, d)
  {
  }

  /** From the start, checks at a distance `d1` and later at `d2 >= d1` leave the stages as
      one check at `d2` would: the distance travelled so far decides them. */
  lemma AdvancedAgain(d1: real, d2: real)
    requires d1 <= d2
    ensures Advanced(Advanced(StartStages, d1), d2) == Advanced(StartStages, d2)
  {
    AdvancedFromStart(d1);
    AdvancedFromStart(d2);
  }

  /** The score, the lane window and its type window, with the road they run along: every
      safe lane ever pushed and its two type slots. */
  datatype Track = Track(score: nat, road: seq<int>, roadTypes: seq<nat>, lanes: seq<int>, types: seq<nat>)

  /** The lane window is the stretch of the road from row Pops(score) on, and the type
      window the matching two slots per row. */
  predicate Consistent(t: Track)
  {
    var size := |t.lanes|;
    var p := Pops(t.score, size);
    size >= 2 && |t.types| == 2 * size &&
    |t.road| == p + size && |t.roadTypes| == 2 * |t.road| &&
    t.lanes == t.road[p..] && t.types == t.roadTypes[2 * p..]
  }

  /** The scoring of one row: the score goes up by one and, once the new score reaches half
      the window, the window moves on by one row drawn from `r`, `t0`, `t1`, which the road
      gains. */
  function Scored(t: Track, r: nat, t0: nat, t1: nat): (u: Track)
    requires |t.lanes| > 0 && |t.types| >= 2
    ensures u.score == t.score + 1
    ensures u.score < |t.lanes| / 2 ==> u == t.(score := u.score)
    ensures u.score >= |t.lanes| / 2 ==>
      u.lanes == Slide(t.lanes, r) && u.types == t.types[2..] + [t0, t1] &&
      u.road == t.road + [Lane(r)] && u.roadTypes == t.roadTypes + [t0, t1]
  {
    if t.score + 1 >= |t.lanes| / 2 then
      Track(t.score + 1, t.road + [Lane(r)], t.roadTypes + [t0, t1], Slide(t.lanes, r), t.types[2..] + [t0, t1])
    else
      t.(score := t.score + 1)
  }

  /** Scoring keeps the window on the road: the pop that comes with a score at or past half
      the window exactly matches the row the road gains. */
  lemma ScoredConsistent(t: Track, r: nat, t0: nat, t1: nat)
    requires Consistent(t)
    ensures Consistent(Scored(t, r, t0, t1))
  {
    var size := |t.lanes|;
    var p := Pops(t.score, size);
    var u := Scored(t, r, t0, t1);
    if u.score >= size / 2 {
      assert Pops(u.score, size) == p + 1;
      assert t.road[p..][1..] + [Lane(r)] == u.road[p + 1..];
      assert t.roadTypes[2 * p..][2..] + [t0, t1] == u.roadTypes[2 * (p + 1)..];
    } else {
      assert Pops(u.score, size) == p;
    }
  }

  /** Everything a frame of `updateScene` reads or writes besides the snow: the stages,
      the scenes, the ball's motion, shape and spin with its acceleration and melt rate,
      the flags, the track and the barriers' settings. */
  datatype World = World(stages: Stages, scenes: Scenery, motion: Motion, shape: BallShape, rotAngle: real,
                         accelerator: real, meltSpeed: real, bTemp: bool, bGameOver: bool,
                         gameProcessFlag: bool, bWin: bool, track: Track, layout: BarrierLayout)

  /** The frame up to the row check: the win test on the ball's z, the recycle, the spin by
      `spin * dt` and the physics step, taken while `bTemp && gameProcessFlag`. */
  function Prepared(w: World, dt: real, spin: real): World
  {
    var running := w.bTemp && w.gameProcessFlag;
    w.(bWin := w.bWin || w.motion.position.z < -3000.0,
       scenes := Recycle(w.scenes, w.motion.distDelta, w.stages.drawPlantA, w.stages.drawTerrainA,
                         w.stages.drawPlantB, w.stages.drawTerrainB),
       motion := Step(w.motion.(distDelta := Recycled(w.motion.distDelta)), running, w.accelerator,
                      w.shape.radius, dt),
       rotAngle := w.rotAngle + spin * dt,
       shape := Melt(w.shape, running, w.meltSpeed, dt))
  }

  /** Row `score` taken by a ball at `x`: its outcome, whose game over toggles `bTemp`
      and `bGameOver` and whose bonus grows the ball by 0.01, and the row scored. */
  function Taken(w: World, x: real, r: nat, t0: nat, t1: nat): (World, RowOutcome)
    requires Consistent(w.track)
  {
    var o := CheckedRowOutcome(w.track.lanes, w.track.types, w.track.score, x, w.shape.radius);
    (w.(bTemp := w.bTemp != (o == GameOver), bGameOver := w.bGameOver != (o == GameOver),
        shape := if o == Bonus then Resized(w.shape, w.shape.radius + 0.01) else w.shape,
        track := Scored(w.track, r, t0, t1)),
     o)
  }

  /** The row check for a ball at (`x`, `z`): inside the band of row `score` the row is
      taken; outside it nothing changes. */
  function Checked(w: World, x: real, z: real, r: nat, t0: nat, t1: nat): (World, Option<RowOutcome>)
    requires Consistent(w.track)
  {
    if InBand(z, w.track.score, w.layout.spacing) then
      var taken := Taken(w, x, r, t0, t1);
      (taken.0, Some(taken.1))
    else
      (w, None)
  }

  /** The part of an `updateScene` frame after the stages and the snow: the preparation, the
      row check on the position read before the physics step, then the barriers' spin grows
      by 0.01 wrapped to [0, 360). */
  function Finished(w: World, dt: real, spin: real, r: nat, t0: nat, t1: nat): (res: (World, Option<RowOutcome>))
    requires Consistent(w.track)
    ensures Consistent(res.0.track)
  {
    ScoredConsistent(w.track, r, t0, t1);
    var checked := Checked(Prepared(w, dt, spin), w.motion.position.x, w.motion.position.z, r, t0, t1);
    (checked.0.(layout := checked.0.layout.(rotSpeed := WrapDegrees(checked.0.layout.rotSpeed + 0.01))), checked.1)
  }

  /** What a frame does outside the row check: the win test, the recycle, the physics step
      with the ball's old radius, the spin, and the barriers' spin growing by 0.01 wrapped
      to [0, 360); the stages, the start flag and the ball's rates stay. */
  lemma FinishedMotion(w: World, dt: real, spin: real, r: nat, t0: nat, t1: nat)
    requires Consistent(w.track)
    ensures var res := Finished(w, dt, spin, r, t0, t1);
      && res.0.bWin == (w.bWin || w.motion.position.z < -3000.0)
      && res.0.scenes == Recycle(w.scenes, w.motion.distDelta, w.stages.drawPlantA, w.stages.drawTerrainA,
                                 w.stages.drawPlantB, w.stages.drawTerrainB)
      && res.0.motion == Step(w.motion.(distDelta := Recycled(w.motion.distDelta)),
                              w.bTemp && w.gameProcessFlag, w.accelerator, w.shape.radius, dt)
      && res.0.rotAngle == w.rotAngle + spin * dt
      && res.0.layout == w.layout.(rotSpeed := WrapDegrees(w.layout.rotSpeed + 0.01))
      && res.0.stages == w.stages && res.0.gameProcessFlag == w.gameProcessFlag
      && res.0.accelerator == w.accelerator && res.0.meltSpeed == w.meltSpeed
  {
  }

  /** The row check of a frame: it reads the ball's position from before the physics step
      and its radius from after the melt; there is an outcome exactly when the old z lies
      in the band of row `score`, and it is the outcome of that row of the old windows. A
      game over toggles `bTemp` and `bGameOver`, a bonus grows the melted ball by 0.01, and
      a checked row is scored. */
  lemma FinishedRow(w: World, dt: real, spin: real, r: nat, t0: nat, t1: nat)
    requires Consistent(w.track)
    ensures var res := Finished(w, dt, spin, r, t0, t1);
      var melted := Melt(w.shape, w.bTemp && w.gameProcessFlag, w.meltSpeed, dt);
      && (res.1.Some? <==> InBand(w.motion.position.z, w.track.score, w.layout.spacing))
      && (res.1.Some? ==>
            res.1.value == CheckedRowOutcome(w.track.lanes, w.track.types, w.track.score,
                                             w.motion.position.x, melted.radius))
      && res.0.shape == (if res.1 == Some(Bonus) then Resized(melted, melted.radius + 0.01) else melted)
      && res.0.bTemp == (w.bTemp != (res.1 == Some(GameOver)))
      && res.0.bGameOver == (w.bGameOver != (res.1 == Some(GameOver)))
      && res.0.track == (if res.1.Some? then Scored(w.track, r, t0, t1) else w.track)
  {
  }

  /** `move_func`'s horizontal steering: LEFT first, then RIGHT on the updated x. */
  function SteerX(x: real, left: bool, right: bool): (r: real)
    ensures -3.2 < x < 3.2 ==> -3.2 < r < 3.2
    ensures left && !right ==> r == (if x > -3.0 then x - 0.2 else x)
    ensures right && !left ==> r == (if x < 3.0 then x + 0.2 else x)
    ensures left && right ==> r == (if x <= -3.0 then x + 0.2 else if x < 3.2 then x else x - 0.2)
    ensures !left && !right ==> r == x
  {
    var x1 := if left && x > -3.0 then x - 0.2 else x;
    if right && x1 < 3.0 then x1 + 0.2 else x1
  }

  class Game {
    const snowball: SnowBall
    const barriers: Barriers
    const keys: array<bool>
    /** The snowflake system `ps`, and `factor`, the blend toward the snow texture. */
    const ps: Particles.ParticleSystem
    var factor: real

    var score: nat
    var bTemp: bool
    var bGameOver: bool
    var bWin: bool
    var gameProcessFlag: bool

    /** The globals `stageA`, `stageB`, `drawPlantA`, `drawPlantB`, `drawTerrainA`,
        `drawTerrainB`, `drawSnow`, `startMovePS` and `drawSnowHouse`, and whether `pathTexA`
        / `pathTexB` point at the mud texture, as one record. */
    var stages: Stages

    var distTotal: real
    var distDelta: real
    var offsetZ: real

    /** The z translations of the models of scenes A and B (`grassModelA`, `treeModelA`,
        `terrainModelA`, `pathModelA` and their B twins) and `updateA`, which scene the next
        recycle moves, as one record. */
    var scenes: Scenery

    /** Every safe lane ever pushed, and their type slots: the road the window runs along. */
    ghost var road: seq<int>
    ghost var roadTypes: seq<nat>

    /** The lane window is the stretch of the road from row Pops(score) on, and the type
        window the matching two slots per row. */
    ghost predicate Valid()
      reads this`score, this`road, this`roadTypes, barriers`deque, barriers`barTypes
    {
      keys.Length == NumKeys && Consistent(Progress())
    }

    /** The score and the windows with the road, as one value. */
    ghost function Progress(): Track
      reads this`score, this`road, this`roadTypes, barriers`deque, barriers`barTypes
    {
      Track(score, road, roadTypes, barriers.deque, barriers.barTypes)
    }

    /** Everything a frame reads or writes besides the snow, as one value. */
    ghost function Snapshot(): World
      reads this`stages, this`scenes, this`offsetZ, this`distTotal, this`distDelta, this`bTemp, this`bGameOver,
        this`gameProcessFlag, this`bWin, this`score, this`road, this`roadTypes,
        snowball`curPosition, snowball`speed, snowball`rotAngle, snowball`accelerator, snowball`meltSpeed,
        snowball.ball, barriers`deque, barriers`barTypes, barriers`baseline, barriers`rotSpeed,
        barriers`spacing, barriers`rowSize
    {
      World(stages, scenes, Movement(), snowball.ball.Shape(), snowball.rotAngle, snowball.accelerator,
            snowball.meltSpeed, bTemp, bGameOver, gameProcessFlag, bWin, Progress(), barriers.Layout())
    }

    /** The settings of the player's snowball, `SnowBall snowball(1.0f, 20, 20, 1.0, 0.0,
        10)` with the default melt rate: radius 1, 20 slices and stacks, spin angle 1,
        speed 0, acceleration 10, melt rate 0.01, at (0, 1, 4). */
    static ghost predicate PlayerSnowball(s: SnowBall)
      reads s, s.ball
    {
      s.ball.radius == 1.0 && s.ball.slices == SnowballSegments && s.ball.stacks == SnowballSegments &&
      s.curPosition == Vec3(0.0, 1.0, 4.0) && s.rotAngle == 1.0 &&
      s.speed == 0.0 && s.accelerator == 10.0 && s.meltSpeed == 0.01
    }

    /** The player's snowball as src/util.h:86 declares it. */
    static method NewPlayerSnowball() returns (s: SnowBall)
      ensures fresh(s) && fresh(s.ball) && PlayerSnowball(s)
      ensures s.ball.vertex == SphereVertices(s.ball.slices, s.ball.stacks) && s.ball.uvcord == SphereUVs(s.ball.slices, s.ball.stacks)
    {
      s := new SnowBall(1.0, SnowballSegments, SnowballSegments, 1.0, 0.0, 10.0);
    }

    /** The default `Barriers` with its windows filled at start-up: 20 lanes drawn from
        `rs` and their 40 type slots `types`. */
    static method NewWindow(rs: seq<nat>, types: seq<nat>) returns (b: Barriers)
      requires |rs| >= 20 && |types| == 40
      ensures fresh(b)
      ensures b.deque == Lanes(rs[..20]) && b.barTypes == types
      ensures b.rowSize == 20 && b.spacing == 30.0 && b.rotSpeed == 0.0
    {
      b := new Barriers();
      var exited := b.InitDeque(rs);
      exited := b.InitBarTypes(types);
    }

    /** The globals as src/util.h declares them, around the player's snowball `ball`, a
        default `Barriers` and the snow system `ps`; `rs` stands for the rand() values of the
        window's initDeque and `types` for its type slots. `ball` is the snowball of
        src/util.h:86, as `NewPlayerSnowball` builds it. */
    constructor (ball: SnowBall, ps: Particles.ParticleSystem, rs: seq<nat>, types: seq<nat>)
      requires ps.Valid() && |rs| >= 20 && |types| == 40
      requires PlayerSnowball(ball)
      ensures Valid() && this.ps.Valid()
      ensures snowball == ball && PlayerSnowball(snowball)
      ensures this.ps == ps && factor == 0.0 && fresh(barriers) && fresh(keys)
      ensures road == Lanes(rs[..20]) && roadTypes == types
      ensures barriers.deque == road && barriers.barTypes == types
      ensures barriers.rowSize == 20 && barriers.spacing == 30.0 && barriers.rotSpeed == 0.0
      ensures score == 0 && bTemp && !bGameOver && !bWin && !gameProcessFlag
      ensures stages == StartStages
      ensures scenes == Scenery(Scene([], [], [], 0.0), Scene([], [], [], 0.0), true)
      ensures distTotal == 0.0 && distDelta == 0.0 && offsetZ == 0.0
      ensures forall k :: 0 <= k < keys.Length ==> !keys[k]
    {
      snowball := ball;
      this.ps := ps;
      factor := 0.0;
      var b := NewWindow(rs, types);
      barriers := b;
      keys := new bool[NumKeys](_ => false);
      score := 0;
      bTemp := true;
      bGameOver := false;
      bWin := false;
      gameProcessFlag := false;
      stages := StartStages;
      distTotal := 0.0;
      distDelta := 0.0;
      offsetZ := 0.0;
      scenes := Scenery(Scene([], [], [], 0.0), Scene([], [], [], 0.0), true);
      road := Lanes(rs[..20]);
      roadTypes := types;
      new;
      assert |barriers.deque| == 20 && Pops(score, 20) == 0;
      assert road[0..] == road && roadTypes[0..] == roadTypes;
    }

    /** The distance-driven stage machine. The source interleaves the checks of scenes A and
        B; they touch disjoint state, so they are taken here scene by scene. */
    method UpdateStages()
      modifies this`stages
      ensures stages == Advanced(old(stages), distTotal)
    {
      UpdateStageA();
      UpdateStageB();
      if distTotal > 2700.0 {
        stages := stages.(drawSnowHouse := true);
      }
    }

    /** Scene A: mud and terrain past 900, snow past 1900, terrain off past 2500. */
    method UpdateStageA()
      modifies this`stages
      ensures var s := old(stages); var entered := s.stageA == 1 && distTotal > 900.0;
        stages == s.(stageA := NextStage(s.stageA, distTotal, 900.0, 1900.0),
                     pathMudA := s.pathMudA || entered,
                     drawPlantA := s.drawPlantA && !entered,
                     drawTerrainA := distTotal <= 2500.0 && (s.drawTerrainA || entered),
                     drawSnow := s.drawSnow || ((s.stageA == 1 || s.stageA == 2) && distTotal > 1900.0))
    {
      var s := stages;
      if distTotal > 900.0 && s.stageA == 1 {
        s := s.(stageA := s.stageA + 1, pathMudA := true, drawPlantA := false, drawTerrainA := true);
      }
      if distTotal > 1900.0 && s.stageA == 2 {
        s := s.(stageA := s.stageA + 1, drawSnow := true);
      }
      if distTotal > 2500.0 && s.drawTerrainA {
        s := s.(drawTerrainA := false);
      }
      stages := s;
    }

    /** Scene B: mud and terrain past 1000, the moving snow generator past 2000, terrain
        off past 2600. */
    method UpdateStageB()
      modifies this`stages
      ensures var s := old(stages); var entered := s.stageB == 1 && distTotal > 1000.0;
        stages == s.(stageB := NextStage(s.stageB, distTotal, 1000.0, 2000.0),
                     pathMudB := s.pathMudB || entered,
                     drawPlantB := s.drawPlantB && !entered,
                     drawTerrainB := distTotal <= 2600.0 && (s.drawTerrainB || entered),
                     startMovePS := s.startMovePS || ((s.stageB == 1 || s.stageB == 2) && distTotal > 2000.0))
    {
      var s := stages;
      if distTotal > 1000.0 && s.stageB == 1 {
        s := s.(stageB := s.stageB + 1, pathMudB := true, drawPlantB := false, drawTerrainB := true);
      }
      if distTotal > 2000.0 && s.stageB == 2 {
        s := s.(stageB := s.stageB + 1, startMovePS := true);
      }
      if distTotal > 2600.0 && s.drawTerrainB {
        s := s.(drawTerrainB := false);
      }
      stages := s;
    }

    /** Applies `temp * M` to every matrix of a list in place. */
    static method ShiftBack(zs: seq<real>) returns (r: seq<real>)
      ensures r == Shifted(zs)
    {
      r := zs;
      var i := 0;
      while i < |r|
        invariant 0 <= i <= |r| == |zs|
        invariant forall k :: 0 <= k < i ==> r[k] == zs[k] - RecycleShift
        invariant forall k :: i <= k < |r| ==> r[k] == zs[k]
      {
        r := r[i := r[i] - RecycleShift];
        i := i + 1;
      }
    }

    /** The snowball's motion and the distances as one value. */
    function Movement(): Motion
      reads snowball`curPosition, snowball`speed, this`offsetZ, this`distTotal, this`distDelta
    {
      Motion(snowball.curPosition, snowball.speed, offsetZ, distTotal, distDelta)
    }

    /** Once 100 units have been travelled, the scene `updateA` names is moved 200 back
        and the other scene is next. */
    method RecycleScenes()
      modifies this`scenes, this`distDelta
      ensures scenes == Recycle(old(scenes), old(distDelta), stages.drawPlantA, stages.drawTerrainA,
                                stages.drawPlantB, stages.drawTerrainB)
      ensures distDelta == Recycled(old(distDelta))
    {
      if distDelta > 100.0 {
        if scenes.updateA {
          RecycleA();
          scenes := scenes.(updateA := !scenes.updateA);
        } else {
          RecycleB();
          scenes := scenes.(updateA := !scenes.updateA);
        }
        distDelta := distDelta - 100.0;
      }
    }

    method RecycleA()
      modifies this`scenes
      ensures scenes == old(scenes).(a := MovedBack(old(scenes).a, stages.drawPlantA, stages.drawTerrainA))
    {
      if stages.drawPlantA {
        var grass := ShiftBack(scenes.a.grass);
        var tree := ShiftBack(scenes.a.tree);
        scenes := scenes.(a := scenes.a.(grass := grass, tree := tree));
      }
      if stages.drawTerrainA {
        var terrain := ShiftBack(scenes.a.terrain);
        scenes := scenes.(a := scenes.a.(terrain := terrain));
      }
      scenes := scenes.(a := scenes.a.(path := scenes.a.path - RecycleShift));
    }

    method RecycleB()
      modifies this`scenes
      ensures scenes == old(scenes).(b := MovedBack(old(scenes).b, stages.drawPlantB, stages.drawTerrainB))
    {
      if stages.drawPlantB {
        var grass := ShiftBack(scenes.b.grass);
        var tree := ShiftBack(scenes.b.tree);
        scenes := scenes.(b := scenes.b.(grass := grass, tree := tree));
      }
      if stages.drawTerrainB {
        var terrain := ShiftBack(scenes.b.terrain);
        scenes := scenes.(b := scenes.b.(terrain := terrain));
      }
      scenes := scenes.(b := scenes.b.(path := scenes.b.path - RecycleShift));
    }

    /** The snowball physics step of one frame of length `dt`, taken only while the game
        runs (`bTemp`) and has started (`gameProcessFlag`). */
    method StepPhysics(dt: real)
      modifies this`distTotal, this`distDelta, this`offsetZ, snowball`curPosition, snowball`speed, snowball.ball
      ensures Movement() == Step(old(Movement()), bTemp && gameProcessFlag, snowball.accelerator, old(snowball.ball.radius), dt)
      ensures snowball.ball.Shape() == Melt(old(snowball.ball.Shape()), bTemp && gameProcessFlag, snowball.meltSpeed, dt)
    {
      if bTemp && gameProcessFlag {
        var speed := snowball.speed;
        var accelerator := snowball.accelerator;
        snowball.curPosition := snowball.curPosition.(z := snowball.curPosition.z - speed * dt);
        snowball.curPosition := snowball.curPosition.(y := snowball.ball.radius);
        snowball.speed := speed + accelerator * dt;
        snowball.ball.SetRadius(snowball.ball.radius - snowball.meltSpeed * dt);
        offsetZ := speed * dt;
        distTotal := distTotal + offsetZ;
        distDelta := distDelta + offsetZ;
      } else {
        offsetZ := 0.0;
      }
    }

    /** The scoring of one row. */
    method ScoreRow(r: nat, t0: nat, t1: nat)
      requires Valid()
      modifies this`score, this`road, this`roadTypes, barriers`deque, barriers`barTypes
      ensures Progress() == Scored(old(Progress()), r, t0, t1)
      ensures Snapshot() == old(Snapshot()).(track := Scored(old(Progress()), r, t0, t1))
    {
      ScoredConsistent(Progress(), r, t0, t1);
      var size := |barriers.deque|;
      score := score + 1;
      if score >= size / 2 {
        barriers.Update(r, t0, t1);
        road := road + [Lane(r)];
        roadTypes := roadTypes + [t0, t1];
      }
    }

    /** Row selection, collision and scoring for a ball at (`x`, `z`). `r` stands for the
        rand() value of the window update and `t0`, `t1` for the new row's two type slots.
        The result is the row's outcome when the ball is inside the row's band. */
    method CheckRow(x: real, z: real, r: nat, t0: nat, t1: nat) returns (outcome: Option<RowOutcome>)
      requires Valid()
      modifies this`score, this`bTemp, this`bGameOver, this`road, this`roadTypes, barriers`deque,
        barriers`barTypes, snowball.ball
      ensures Valid()
      // The checked slot holds row number `score` of the road, pinned or not.
      ensures var size := |old(barriers.deque)|;
        old(barriers.deque)[ActiveRowIndex(old(score), size)] == old(road)[old(score)]
      ensures var size := |old(barriers.deque)|; var slots := FoodSlots(old(score), size);
        old(score) < size / 2 || size % 2 == 0 ==>
          old(barriers.barTypes)[slots.0] == old(roadTypes)[2 * old(score)] &&
          old(barriers.barTypes)[slots.1] == old(roadTypes)[2 * old(score) + 1]
      ensures (Snapshot(), outcome) == Checked(old(Snapshot()), x, z, r, t0, t1)
    {
      StretchPinnedRow(road, score, |barriers.deque|);
      StretchFoodSlots(roadTypes, score, |barriers.deque|);
      outcome := CheckBand(x, z, r, t0, t1);
    }

    /** The band test of the row check: inside the band of row `score` the row is taken,
        outside it nothing changes. */
    method CheckBand(x: real, z: real, r: nat, t0: nat, t1: nat) returns (outcome: Option<RowOutcome>)
      requires Valid()
      modifies this`score, this`bTemp, this`bGameOver, this`road, this`roadTypes, barriers`deque,
        barriers`barTypes, snowball.ball
      ensures Valid()
      ensures (Snapshot(), outcome) == Checked(old(Snapshot()), x, z, r, t0, t1)
    {
      if InBand(z, score, barriers.spacing) {
        var o := TakeRow(x, r, t0, t1);
        outcome := Some(o);
      } else {
        outcome := None;
      }
    }

    /** The collision and the scoring of row `score` for a ball at `x`. */
    method TakeRow(x: real, r: nat, t0: nat, t1: nat) returns (o: RowOutcome)
      requires Valid()
      modifies this`score, this`bTemp, this`bGameOver, this`road, this`roadTypes, barriers`deque,
        barriers`barTypes, snowball.ball
      ensures Valid()
      ensures (Snapshot(), o) == Taken(old(Snapshot()), x, r, t0, t1)
    {
      o := CheckedRowOutcome(barriers.deque, barriers.barTypes, score, x, snowball.ball.radius);
      ghost var w := Snapshot();
      ApplyOutcome(o);
      ScoreRow(r, t0, t1);
      ScoredConsistent(w.track, r, t0, t1);
    }

    /** The effect of a row's outcome: a game over toggles (does not set) `bTemp` and
        `bGameOver`, a bonus grows the ball by 0.01. */
    method ApplyOutcome(o: RowOutcome)
      modifies this`bTemp, this`bGameOver, snowball.ball
      ensures bTemp == (old(bTemp) != (o == GameOver)) && bGameOver == (old(bGameOver) != (o == GameOver))
      ensures snowball.ball.Shape() ==
        if o == Bonus then Resized(old(snowball.ball.Shape()), old(snowball.ball.radius) + 0.01)
        else old(snowball.ball.Shape())
      ensures var w := old(Snapshot());
        Snapshot() == w.(bTemp := w.bTemp != (o == GameOver), bGameOver := w.bGameOver != (o == GameOver),
                         shape := if o == Bonus then Resized(w.shape, w.shape.radius + 0.01) else w.shape)
    {
      if o == GameOver {
        bTemp := !bTemp;
        bGameOver := !bGameOver;
      } else if o == Bonus {
        snowball.ball.SetRadius(snowball.ball.radius + 0.01);
      }
    }

    /** The part of an `updateScene` frame between the stage machine and the row check:
        the win test, scene recycling, the spin and the physics step. */
    method PrepareFrame(dt: real, spin: real)
      modifies this`bWin, this`scenes, this`distDelta, this`distTotal, this`offsetZ,
        snowball`curPosition, snowball`speed, snowball`rotAngle, snowball.ball
      ensures Snapshot() == Prepared(old(Snapshot()), dt, spin)
    {
      TestWinAndRecycle();
      MoveBall(spin, dt);
    }

    /** The win test on the ball's z, then the scene recycle. */
    method TestWinAndRecycle()
      modifies this`bWin, this`scenes, this`distDelta
      ensures var w := old(Snapshot());
        Snapshot() == w.(bWin := w.bWin || w.motion.position.z < -3000.0,
                         scenes := Recycle(w.scenes, w.motion.distDelta, w.stages.drawPlantA, w.stages.drawTerrainA,
                                           w.stages.drawPlantB, w.stages.drawTerrainB),
                         motion := w.motion.(distDelta := Recycled(w.motion.distDelta)))
    {
      if snowball.curPosition.z < -3000.0 {
        bWin := true;
      }
      RecycleScenes();
    }

    /** The spin by `spin * dt`, then the physics step. */
    method MoveBall(spin: real, dt: real)
      modifies this`distDelta, this`distTotal, this`offsetZ,
        snowball`curPosition, snowball`speed, snowball`rotAngle, snowball.ball
      ensures var w := old(Snapshot()); var running := w.bTemp && w.gameProcessFlag;
        Snapshot() == w.(rotAngle := w.rotAngle + spin * dt,
                         motion := Step(w.motion, running, w.accelerator, w.shape.radius, dt),
                         shape := Melt(w.shape, running, w.meltSpeed, dt))
    {
      SpinBall(spin, dt);
      StepPhysics(dt);
    }

    /** The ball's spin of one frame: `rotAngle` grows by `spin * dt`, where `spin` stands
        for `getRotSpeed()`, the speed over the radius in radians. */
    method SpinBall(spin: real, dt: real)
      modifies snowball`rotAngle
      ensures snowball.rotAngle == old(snowball.rotAngle) + spin * dt
    {
      var rotAngle := snowball.rotAngle;
      snowball.rotAngle := rotAngle + spin * dt;
    }

    /** The part of an `updateScene` frame after the stage machine and the snow, in the
        source's order: the preparation above, the row check with the position read before
        the physics step and the radius after it, then the barriers' rotation speed. The
        outcome is present exactly when the ball's old z lies in the band of row `score`,
        and is then the outcome of that row of the old window. */
    method FinishFrame(dt: real, spin: real, r: nat, t0: nat, t1: nat) returns (outcome: Option<RowOutcome>)
      requires Valid()
      modifies this`bWin, this`scenes, this`distDelta, this`distTotal, this`offsetZ,
        this`score, this`bTemp, this`bGameOver, this`road, this`roadTypes,
        barriers`deque, barriers`barTypes, barriers`rotSpeed,
        snowball`curPosition, snowball`speed, snowball`rotAngle, snowball.ball
      ensures Valid()
      ensures (Snapshot(), outcome) == Finished(old(Snapshot()), dt, spin, r, t0, t1)
    {
      var currentX := snowball.curPosition.x;
      var currentZ := snowball.curPosition.z;
      PrepareFrame(dt, spin);
      outcome := CheckRow(currentX, currentZ, r, t0, t1);
      barriers.SetRotSpeed(barriers.rotSpeed + 0.01);
    }

    /** The snow part of `updateScene`: while `drawSnow` is set, the emitter follows the
        ball (at height 30) when `startMovePS` is set, the system advances by `dt` with
        this frame's `offset_z` not yet recomputed, and the texture blend `factor` grows
        by 0.05 * `dt` while it is below 0.9. `jit` stands for the spawns' random values and
        `dragFor` for the per-particle drag. */
    method UpdateSnow(dt: real, jit: seq<real>, dragFor: Particles.Particle -> Vec3)
      requires ps.CanUpdate(dt, jit)
      modifies ps`positionGenerator, ps`particles, ps`lastParticle, ps`totalNumLive, ps.positionData, this`factor
      ensures ps.Valid()
      ensures stages.drawSnow ==>
        ps.positionGenerator == (if stages.startMovePS then Vec3(0.0, 30.0, snowball.curPosition.z) else old(ps.positionGenerator)) &&
        factor == (if old(factor) < 0.9 then old(factor) + 0.05 * dt else old(factor)) &&
        Particles.Updated(old(ps.State()), ps.State(), ps.SpawnCount(dt), ps.Settings(),
                          dt, offsetZ, jit, dragFor)
      ensures !stages.drawSnow ==>
        factor == old(factor) && ps.positionGenerator == old(ps.positionGenerator) && ps.State() == old(ps.State())
    {
      if stages.drawSnow {
        var system := ps;
        if stages.startMovePS {
          system.SetGeneratorPos(Vec3(0.0, 30.0, snowball.curPosition.z));
        }
        system.Update(dt, offsetZ, jit, dragFor);
        if factor < 0.9 {
          factor := factor + 0.05 * dt;
        }
      }
    }

    /** The start of an `updateScene` frame: the stage machine, then the snow. */
    method AdvanceAndSnow(dt: real, jit: seq<real>, dragFor: Particles.Particle -> Vec3)
      requires ps.CanUpdate(dt, jit)
      modifies this`stages, ps`positionGenerator, ps`particles, ps`lastParticle, ps`totalNumLive,
        ps.positionData, this`factor
      ensures ps.Valid()
      ensures stages.drawSnow ==>
        ps.positionGenerator == (if stages.startMovePS then Vec3(0.0, 30.0, snowball.curPosition.z) else old(ps.positionGenerator)) &&
        factor == (if old(factor) < 0.9 then old(factor) + 0.05 * dt else old(factor)) &&
        Particles.Updated(old(ps.State()), ps.State(), ps.SpawnCount(dt), ps.Settings(),
                          dt, offsetZ, jit, dragFor)
      ensures !stages.drawSnow ==>
        factor == old(factor) && ps.positionGenerator == old(ps.positionGenerator) && ps.State() == old(ps.State())
      ensures Snapshot() == old(Snapshot()).(stages := Advanced(old(stages), distTotal))
    {
      UpdateStages();
      UpdateSnow(dt, jit, dragFor);
    }

    /** One `updateScene` frame of length `dt`: the stage machine, the snow, then the rest.
        `jit` and `dragFor` stand for the snow's random values and drag, `spin`, `r`, `t0`
        and `t1` for the frame's spin and the new row's rand() values. */
    method UpdateScene(dt: real, spin: real, r: nat, t0: nat, t1: nat, jit: seq<real>,
                       dragFor: Particles.Particle -> Vec3) returns (outcome: Option<RowOutcome>)
      requires Valid() && ps.CanUpdate(dt, jit)
      modifies this, barriers`deque, barriers`barTypes, barriers`rotSpeed,
        snowball`curPosition, snowball`speed, snowball`rotAngle, snowball.ball,
        ps`positionGenerator, ps`particles, ps`lastParticle, ps`totalNumLive, ps.positionData
      ensures Valid() && ps.Valid()
      ensures stages.drawSnow ==>
        ps.positionGenerator == (if stages.startMovePS then Vec3(0.0, 30.0, old(snowball.curPosition.z)) else old(ps.positionGenerator)) &&
        factor == (if old(factor) < 0.9 then old(factor) + 0.05 * dt else old(factor)) &&
        Particles.Updated(old(ps.State()), ps.State(), ps.SpawnCount(dt), ps.Settings(),
                          dt, old(offsetZ), jit, dragFor)
      ensures !stages.drawSnow ==>
        factor == old(factor) && ps.positionGenerator == old(ps.positionGenerator) && ps.State() == old(ps.State())
      ensures (Snapshot(), outcome) ==
        Finished(old(Snapshot()).(stages := Advanced(old(stages), old(distTotal))), dt, spin, r, t0, t1)
    {
      AdvanceAndSnow(dt, jit, dragFor);
      outcome := FinishFrame(dt, spin, r, t0, t1);
    }

    /** `move_func`'s snowball steering from the LEFT and RIGHT entries of `keys`. */
    method MoveFunc()
      requires Valid()
      modifies snowball`curPosition
      ensures snowball.curPosition == old(snowball.curPosition).(x := SteerX(old(snowball.curPosition.x), keys[KeyLeft], keys[KeyRight]))
    {
      if keys[KeyLeft] {
        if snowball.curPosition.x > -3.0 {
          snowball.curPosition := snowball.curPosition.(x := snowball.curPosition.x - 0.2);
        }
      }
      if keys[KeyRight] {
        if snowball.curPosition.x < 3.0 {
          snowball.curPosition := snowball.curPosition.(x := snowball.curPosition.x + 0.2);
        }
      }
    }

    /** `key_callback`: SPACE pauses or resumes and clears a game over, the key table
        follows presses and releases, and the two results ask for the window to close
        (ESC) and for a screenshot (Z). */
    method KeyCallback(key: int, action: int) returns (closeWindow: bool, takeScreenshot: bool)
      requires Valid() && 0 <= key < NumKeys
      modifies this`bTemp, this`bGameOver, keys
      ensures closeWindow <==> key == KeyEscape && action == Press
      ensures takeScreenshot <==> key == KeyZ && action == Press
      ensures key == KeySpace && action == Press ==> bTemp == !old(bTemp) && !bGameOver
      ensures !(key == KeySpace && action == Press) ==> bTemp == old(bTemp) && bGameOver == old(bGameOver)
      ensures keys[..] == if action == Press then old(keys[..])[key := true]
                          else if action == Release then old(keys[..])[key := false]
                          else old(keys[..])
    {
      closeWindow := key == KeyEscape && action == Press;
      if key == KeySpace && action == Press {
        bTemp := !bTemp;
        if bGameOver {
          bGameOver := !bGameOver;
        }
      }
      if action == Press {
        keys[key] := true;
      } else if action == Release {
        keys[key] := false;
      }
      takeScreenshot := key == KeyZ && action == Press;
    }
  }
}
