/** The snowflake particle pool of src/particle_system.h: a fixed arena of `total_num`
    particles, a cursor that resumes the search for a dead slot, respawning from a
    generator box, life decrement, and the dense packing of the survivors' positions
    into `particle_position_data`. Positions and velocities are exact reals; the drag
    direction (a normalisation) is an input function, and `rand() / RAND_MAX` values are
    an input sequence of reals in [0, 1]. */
module Particles {
  import opened Common

  /** The constant gravity vector every particle carries. */
  const Gravity := Vec3(0.0, -9.80665, 0.0)

  datatype Particle = Particle(dragCoef: real, size: real, position: Vec3,
                               velocity: Vec3, drag: Vec3, life: real)

  /** A slot `getfirstDeadParticle` may hand out: its life is used up. */
  predicate Dead(p: Particle) { p.life <= 0.0 }

  /** A freshly constructed particle: at the origin, at rest, and dead (life -1). */
  function NewParticle(dragCoef: real, size: real): (p: Particle)
    ensures Dead(p) && p.life == -1.0
    ensures p.dragCoef == dragCoef && p.size == size
  {
    Particle(dragCoef, size, Zero3, Zero3, Zero3, -1.0)
  }

  /** The settings `respawn` reads: generator position, the x and z ranges, and the
      period that becomes the new life. */
  datatype Emitter = Emitter(origin: Vec3, rangeX: real, rangeZ: real, period: real)

  /** `RANDOM_MIN_MAX(lo, hi)` with `j` standing for `rand() / RAND_MAX`. */
  function RandomMinMax(lo: real, hi: real, j: real): (v: real)
    ensures 0.0 <= j <= 1.0 && lo <= hi ==> lo <= v <= hi
    ensures j == 0.0 ==> v == lo
    ensures j == 1.0 ==> v == hi
  {
    var d := hi - lo;
    if 0.0 <= j <= 1.0 && 0.0 <= d then
      PartOfSpan(j, d);
      lo + j * d
    else
      lo + j * d
  }

  /** A fraction j in [0, 1] of a span d >= 0 lies in [0, d]. */
  lemma PartOfSpan(j: real, d: real)
    requires 0.0 <= j <= 1.0 && 0.0 <= d
    ensures 0.0 <= j * d <= d
  {
    assert (1.0 - j) * d >= 0.0;
  }

  /** `respawn`: a new position in the generator box, zero velocity, and a full life. */
  function Respawned(p: Particle, e: Emitter, jx: real, jy: real, jz: real): (q: Particle)
    ensures q.life == e.period && q.velocity == Zero3
    ensures q.dragCoef == p.dragCoef && q.size == p.size && q.drag == p.drag
    ensures 0.0 <= jx <= 1.0 && 0.0 <= e.rangeX ==>
      e.origin.x - e.rangeX <= q.position.x <= e.origin.x + e.rangeX
    ensures 0.0 <= jy <= 1.0 ==> e.origin.y - 10.0 <= q.position.y <= e.origin.y
    ensures 0.0 <= jz <= 1.0 && 0.0 <= e.rangeZ ==>
      e.origin.z - e.rangeZ <= q.position.z <= e.origin.z + e.rangeZ
  {
    p.(position := Vec3(e.origin.x + RandomMinMax(-e.rangeX, e.rangeX, jx),
                        e.origin.y + RandomMinMax(-10.0, 0.0, jy),
                        e.origin.z + RandomMinMax(-e.rangeZ, e.rangeZ, jz)),
       velocity := Zero3,
       life := e.period)
  }

  /** The first dead slot in [lo, hi), if any. */
  function SearchDead(ps: seq<Particle>, lo: nat, hi: nat): (r: Option<nat>)
    requires lo <= hi <= |ps|
    ensures r.Some? ==> (lo <= r.value < hi && Dead(ps[r.value]) &&
                         forall j :: lo <= j < r.value ==> !Dead(ps[j]))
    ensures r.None? ==> forall j :: lo <= j < hi ==> !Dead(ps[j])
    decreases hi - lo
  {
    if lo == hi then None
    else if Dead(ps[lo]) then Some(lo)
    else SearchDead(ps, lo + 1, hi)
  }

  /** What `getfirstDeadParticle` returns when the cursor stands at `cursor`: the first
      dead slot at or after the cursor, else the first dead slot before it, else 0. */
  function FirstDead(ps: seq<Particle>, cursor: nat): (i: nat)
    requires cursor <= |ps|
    ensures |ps| > 0 ==> i < |ps|
    ensures (exists j :: cursor <= j < |ps| && Dead(ps[j])) ==>
      cursor <= i && Dead(ps[i]) && forall j :: cursor <= j < i ==> !Dead(ps[j])
    ensures (forall j :: cursor <= j < |ps| ==> !Dead(ps[j])) && (exists j :: 0 <= j < cursor && Dead(ps[j])) ==>
      i < cursor && Dead(ps[i]) && forall j :: 0 <= j < i ==> !Dead(ps[j])
    ensures (forall j :: 0 <= j < |ps| ==> !Dead(ps[j])) ==> i == 0
  {
    match SearchDead(ps, cursor, |ps|)
    case Some(i) => i
    case None =>
      match SearchDead(ps, 0, cursor)
      case Some(i) => i
      case None => 0
  }

  /** Asking twice with no change of life in between gives the same slot: the cursor
      left by the first call makes the second call find it at once. */
  lemma FirstDeadStable(ps: seq<Particle>, cursor: nat)
    requires cursor <= |ps|
    ensures FirstDead(ps, FirstDead(ps, cursor)) == FirstDead(ps, cursor)
  {
    var i := FirstDead(ps, cursor);
    if exists j :: 0 <= j < |ps| && Dead(ps[j]) {
      var j :| 0 <= j < |ps| && Dead(ps[j]);
      if !(exists j :: cursor <= j < |ps| && Dead(ps[j])) {
        assert j < cursor;
      }
      assert Dead(ps[i]);
    }
  }

  /** The slots with life left, in increasing pool order. */
  function LiveIndices(ps: seq<Particle>): (r: seq<nat>)
    ensures |r| <= |ps|
    ensures forall k :: 0 <= k < |r| ==> r[k] < |ps| && !Dead(ps[r[k]])
    decreases |ps|
  {
    if |ps| == 0 then []
    else
      var front := ps[..|ps| - 1];
      LiveIndices(front) + (if Dead(ps[|ps| - 1]) then [] else [|ps| - 1])
  }

  /** The live indices are strictly increasing, and every live slot is among them: the
      packed buffer holds each survivor once, in pool order. */
  lemma {:induction false} LiveIndicesOrdered(ps: seq<Particle>)
    ensures forall k, l :: 0 <= k < l < |LiveIndices(ps)| ==> LiveIndices(ps)[k] < LiveIndices(ps)[l]
    ensures forall i :: 0 <= i < |ps| ==> (!Dead(ps[i]) <==> i in LiveIndices(ps))
    decreases |ps|
  {
    if |ps| > 0 {
      var front := ps[..|ps| - 1];
      LiveIndicesOrdered(front);
      forall i | 0 <= i < |ps|
        ensures !Dead(ps[i]) <==> i in LiveIndices(ps)
      {
        if i < |ps| - 1 {
          assert ps[i] == front[i];
          assert i != |ps| - 1;
        }
      }
    }
  }

  /** A pool of freshly constructed particles has no survivor. */
  lemma {:induction false} NewPoolHasNoLive(ps: seq<Particle>, dragCoef: real, size: real)
    requires forall k :: 0 <= k < |ps| ==> ps[k] == NewParticle(dragCoef, size)
    ensures LiveIndices(ps) == []
    decreases |ps|
  {
    if |ps| > 0 {
      NewPoolHasNoLive(ps[..|ps| - 1], dragCoef, size);
    }
  }

  /** The dead slots of a pool. */
  ghost function DeadSet(ps: seq<Particle>): set<nat>
  {
    set j: nat | j < |ps| && Dead(ps[j])
  }

  /** The `num_new_particles` spawns of `update`: each one asks for a dead slot at the
      cursor left by the previous one and respawns it with the next three `rand()`
      values. The result is the new pool, the new cursor, and the slots chosen. */
  function SpawnAll(ps: seq<Particle>, cursor: nat, k: nat, jit: seq<real>, e: Emitter)
    : (r: (seq<Particle>, nat, seq<nat>))
    requires cursor <= |ps| && 3 * k <= |jit| && (k > 0 ==> |ps| > 0)
    ensures |r.0| == |ps| && r.1 <= |ps| && |r.2| == k
    ensures k > 0 ==> r.1 == r.2[k - 1]
    ensures forall m :: 0 <= m < k ==> r.2[m] < |ps|
    decreases k
  {
    if k == 0 then (ps, cursor, [])
    else
      var prev := SpawnAll(ps, cursor, k - 1, jit, e);
      var i := FirstDead(prev.0, prev.1);
      var j := 3 * (k - 1);
      (prev.0[i := Respawned(prev.0[i], e, jit[j], jit[j + 1], jit[j + 2])], i, prev.2 + [i])
  }

  /** `now` is `ps` with the slots `chosen` revived: they are distinct, were dead in
      `ps`, now have life `period`, every other slot is untouched, and so the pool has
      lost exactly `|chosen|` dead slots. */
  ghost predicate RevivedFrom(ps: seq<Particle>, now: seq<Particle>, chosen: seq<nat>, period: real)
  {
    |now| == |ps| &&
    (forall m, n :: 0 <= m < n < |chosen| ==> chosen[m] != chosen[n]) &&
    (forall m :: 0 <= m < |chosen| ==>
       (chosen[m] < |ps| && Dead(ps[chosen[m]]) && now[chosen[m]].life == period)) &&
    (forall i :: 0 <= i < |ps| && i !in chosen ==> now[i] == ps[i]) &&
    |DeadSet(now)| == |DeadSet(ps)| - |chosen|
  }

  /** One more spawn keeps `RevivedFrom` while a dead slot is left to find. */
  lemma ReviveOne(ps: seq<Particle>, now: seq<Particle>, chosen: seq<nat>, cursor: nat, q: Particle, period: real)
    requires cursor <= |now|
    ensures RevivedFrom(ps, now, chosen, period) && q.life == period && period > 0.0 && |chosen| < |DeadSet(ps)| ==>
      RevivedFrom(ps, now[FirstDead(now, cursor) := q], chosen + [FirstDead(now, cursor)], period)
  {
    if !(RevivedFrom(ps, now, chosen, period) && q.life == period && period > 0.0 && |chosen| < |DeadSet(ps)|) {
      return;
    }
    var i := FirstDead(now, cursor);
    var d :| d in DeadSet(now);
    assert 0 <= d < |now| && Dead(now[d]);
    assert Dead(now[i]);
    assert i !in chosen;
    var next := now[i := q];
    assert DeadSet(next) == DeadSet(now) - {i};
  }

  /** While dead slots remain, the `k` spawns revive `k` different slots that were all
      dead before the spawns began, and touch nothing else. */
  lemma {:induction false} SpawnRevivesDistinct(ps: seq<Particle>, cursor: nat, k: nat, jit: seq<real>, e: Emitter)
    requires cursor <= |ps| && 3 * k <= |jit| && (k > 0 ==> |ps| > 0)
    requires e.period > 0.0 && k <= |DeadSet(ps)|
    ensures RevivedFrom(ps, SpawnAll(ps, cursor, k, jit, e).0, SpawnAll(ps, cursor, k, jit, e).2, e.period)
    decreases k
  {
    if k > 0 {
      var prev := SpawnAll(ps, cursor, k - 1, jit, e);
      var j := 3 * (k - 1);
      var i := FirstDead(prev.0, prev.1);
      var q := Respawned(prev.0[i], e, jit[j], jit[j + 1], jit[j + 2]);
      SpawnAllStep(ps, cursor, k, jit, e, prev, i, j, q);
      SpawnRevivesDistinct(ps, cursor, k - 1, jit, e);
      ReviveOne(ps, prev.0, prev.2, prev.1, q, e.period);
      assert RevivedFrom(ps, prev.0[i := q], prev.2 + [i], e.period);
    }
  }

  /** The last of k spawns, seen from the state the first k - 1 left. */
  lemma SpawnAllStep(ps: seq<Particle>, cursor: nat, k: nat, jit: seq<real>, e: Emitter,
                     prev: (seq<Particle>, nat, seq<nat>), i: nat, j: nat, q: Particle)
    requires cursor <= |ps| && 3 * k <= |jit| && 0 < k && |ps| > 0
    requires prev == SpawnAll(ps, cursor, k - 1, jit, e) && i == FirstDead(prev.0, prev.1)
    requires j == 3 * (k - 1) && q == Respawned(prev.0[i], e, jit[j], jit[j + 1], jit[j + 2])
    ensures SpawnAll(ps, cursor, k, jit, e) == (prev.0[i := q], i, prev.2 + [i])
  {
  }

  /** `updateDrag`: a moving particle gets the drag `dragFor` computes for it (the drag
      equation along the normalised velocity); at rest the drag is kept. */
  function UpdateDrag(p: Particle, dragFor: Particle -> Vec3): (q: Particle)
    ensures q.life == p.life && q.position == p.position && q.velocity == p.velocity
    ensures p.velocity == Zero3 ==> q == p
  {
    if p.velocity != Zero3 then p.(drag := dragFor(p)) else p
  }

  /** One frame of `update` for one particle: its life drops by `dt`, and only if some
      life is left does it move (drag, gravity, and the scene's `offset_z` shift). */
  function Aged(p: Particle, dt: real, offsetZ: real, dragFor: Particle -> Vec3): (q: Particle)
    ensures q.life == p.life - dt
    ensures Dead(q) ==> q == p.(life := p.life - dt)
    ensures q.dragCoef == p.dragCoef && q.size == p.size
  {
    var p1 := p.(life := p.life - dt);
    if Dead(p1) then p1
    else
      var p2 := UpdateDrag(p1, dragFor);
      var v := p2.velocity.Plus(Gravity.Plus(p2.drag).Scale(dt));
      p2.(velocity := v, position := p2.position.Plus(v.Scale(dt)).Plus(Vec3(0.0, 0.0, -offsetZ)))
  }

  /** The first `3 * k` reals of `data` are the positions of the particles
      `ps[idx[0]], ..., ps[idx[k-1]]`. */
  ghost predicate Packed(data: seq<real>, ps: seq<Particle>, idx: seq<nat>, k: nat)
  {
    k <= |idx| && 3 * k <= |data| &&
    forall m :: 0 <= m < k ==>
      (idx[m] < |ps| &&
       data[3 * m] == ps[idx[m]].position.x &&
       data[3 * m + 1] == ps[idx[m]].position.y &&
       data[3 * m + 2] == ps[idx[m]].position.z)
  }

  /** The part of a particle system that `update` changes, as one value. */
  datatype Pool = Pool(particles: seq<Particle>, lastParticle: nat, totalNumLive: nat, positionData: seq<real>)

  /** `after` is what `update(dt)` makes of `before`: `n` spawns from the emitter `e` with
      the random values `jit`, then every particle aged by `dt` with the scene shift
      `offsetZ`; the live count and the packed buffer of live positions follow. */
  ghost predicate Updated(before: Pool, after: Pool, n: nat, e: Emitter, dt: real, offsetZ: real,
                          jit: seq<real>, dragFor: Particle -> Vec3)
  {
    before.lastParticle <= |before.particles| && 3 * n <= |jit| && (n > 0 ==> |before.particles| > 0) &&
    var spawned := SpawnAll(before.particles, before.lastParticle, n, jit, e);
    after.lastParticle == spawned.1 && |after.particles| == |spawned.0| &&
    (forall k :: 0 <= k < |after.particles| ==> after.particles[k] == Aged(spawned.0[k], dt, offsetZ, dragFor)) &&
    after.totalNumLive == |LiveIndices(after.particles)| &&
    Packed(after.positionData, after.particles, LiveIndices(after.particles), after.totalNumLive)
  }

  /** Extending the scanned prefix by slot `i` appends `i` exactly when it is alive. */
  lemma LiveIndicesSnoc(ps: seq<Particle>, i: nat)
    requires i < |ps|
    ensures LiveIndices(ps[..i + 1]) == LiveIndices(ps[..i]) + (if Dead(ps[i]) then [] else [i])
  {
    assert ps[..i + 1][..i] == ps[..i];
  }

  /** One step of the packing loop: slot `i` is replaced, and if it survived its
      position is appended after the `|live|` triples already written. */
  lemma PackedStep(data: seq<real>, data': seq<real>, ps: seq<Particle>, ps': seq<Particle>,
                   live: seq<nat>, i: nat)
    requires Packed(data, ps, live, |live|)
    requires i < |ps| == |ps'| && |data'| == |data| && ps'[..i] == ps[..i]
    requires forall m :: 0 <= m < |live| ==> live[m] < i
    requires forall t :: 0 <= t < 3 * |live| ==> data'[t] == data[t]
    requires !Dead(ps'[i]) ==> (3 * |live| + 2 < |data| &&
      data'[3 * |live|] == ps'[i].position.x &&
      data'[3 * |live| + 1] == ps'[i].position.y &&
      data'[3 * |live| + 2] == ps'[i].position.z)
    ensures var live' := live + (if Dead(ps'[i]) then [] else [i]);
      Packed(data', ps', live', |live'|)
  {
    forall m | 0 <= m < |live|
      ensures ps'[live[m]] == ps[live[m]]
    {
      assert ps'[live[m]] == ps'[..i][live[m]];
    }
  }

  class ParticleSystem {
    const dragCoef: real
    const size: real
    var particles: seq<Particle>
    var positionData: array<real>
    var totalNum: nat
    var generateSpeed: nat
    var totalNumLive: nat
    var positionGenerator: Vec3
    var rangeX: real
    var rangeZ: real
    var lastParticle: nat
    var period: real

    /** The pool has `total_num` slots, the position buffer three reals per slot, and the
        cursor stays inside the pool. */
    ghost predicate Valid()
      reads this`particles, this`positionData, this`totalNum, this`lastParticle
    {
      |particles| == totalNum && positionData.Length == 3 * totalNum && lastParticle <= totalNum
    }

    /** The particles, the cursor, the live count and the buffer as one value. */
    function State(): Pool
      reads this`particles, this`lastParticle, this`totalNumLive, this`positionData, positionData
    {
      Pool(particles, lastParticle, totalNumLive, positionData[..])
    }

    function Settings(): (e: Emitter)
      reads this`positionGenerator, this`rangeX, this`rangeZ, this`period
      ensures e.origin == positionGenerator && e.period == period
      ensures e.rangeX == rangeX && e.rangeZ == rangeZ
    {
      Emitter(positionGenerator, rangeX, rangeZ, period)
    }

    /** The constructor and `init`. The source never sets `last_particle`; here its
        starting value is a parameter, required to lie inside the pool. */
    constructor (generateSpeed: nat, positionGenerator: Vec3, rangeX: real, rangeZ: real,
                 dragCoef: real, size: real, initialCursor: nat)
      requires (4.0 + dragCoef / 400.0) * generateSpeed as real > -1.0
      requires initialCursor <= TruncToNat((4.0 + dragCoef / 400.0) * generateSpeed as real)
      ensures Valid() && fresh(positionData)
      ensures period == 4.0 + dragCoef / 400.0
      ensures totalNum == TruncToNat(period * generateSpeed as real)
      ensures forall k :: 0 <= k < |particles| ==> particles[k] == NewParticle(dragCoef, size)
      ensures totalNumLive == 0 && LiveIndices(particles) == []
      ensures lastParticle == initialCursor
      ensures this.generateSpeed == generateSpeed && this.positionGenerator == positionGenerator
      ensures this.rangeX == rangeX && this.rangeZ == rangeZ
      ensures this.dragCoef == dragCoef && this.size == size
    {
      this.dragCoef := dragCoef;
      this.size := size;
      this.generateSpeed := generateSpeed;
      this.positionGenerator := positionGenerator;
      this.rangeX := rangeX;
      this.rangeZ := rangeZ;
      var p := 4.0 + dragCoef / 400.0;
      var n := TruncToNat(p * generateSpeed as real);
      var ps: seq<Particle> := [];
      var i := 0;
      while i < n
        invariant i <= n && |ps| == i
        invariant forall k :: 0 <= k < i ==> ps[k] == NewParticle(dragCoef, size)
      {
        ps := ps + [NewParticle(dragCoef, size)];
        i := i + 1;
      }
      NewPoolHasNoLive(ps, dragCoef, size);
      period := p;
      totalNum := n;
      particles := ps;
      totalNumLive := 0;
      positionData := new real[3 * n];
      lastParticle := initialCursor;
    }

    /** `getfirstDeadParticle`: scans from the cursor to the end, then from the start up
        to the cursor, and moves the cursor to the slot it returns. */
    method GetFirstDeadParticle() returns (index: nat)
      requires lastParticle <= |particles|
      modifies this`lastParticle
      ensures index == FirstDead(particles, old(lastParticle))
      ensures lastParticle == index
    {
      index := lastParticle;
      while index < |particles|
        invariant lastParticle <= index <= |particles|
        invariant forall j :: lastParticle <= j < index ==> !Dead(particles[j])
      {
        if particles[index].life <= 0.0 {
          lastParticle := index;
          return index;
        }
        index := index + 1;
      }
      index := 0;
      while index < lastParticle
        invariant index <= lastParticle
        invariant forall j :: 0 <= j < index ==> !Dead(particles[j])
      {
        if particles[index].life <= 0.0 {
          lastParticle := index;
          return index;
        }
        index := index + 1;
      }
      lastParticle := 0;
      return 0;
    }

    /** `respawn(particles[k])`, where `jx`, `jy`, `jz` are the three `rand() / RAND_MAX`
        values it draws. */
    method Respawn(k: nat, jx: real, jy: real, jz: real)
      requires k < |particles|
      modifies this`particles
      ensures particles == old(particles)[k := Respawned(old(particles)[k], Settings(), jx, jy, jz)]
    {
      var p := particles[k];
      var pos := Vec3(positionGenerator.x + RandomMinMax(-rangeX, rangeX, jx),
                      positionGenerator.y + RandomMinMax(-10.0, 0.0, jy),
                      positionGenerator.z + RandomMinMax(-rangeZ, rangeZ, jz));
      particles := particles[k := p.(position := pos, velocity := Zero3, life := period)];
    }

    /** The first loop of `update`: `count` spawns, each at the slot the cursor search
        returns. */
    method SpawnParticles(count: nat, jit: seq<real>)
      requires Valid() && 3 * count <= |jit| && (count > 0 ==> totalNum > 0)
      modifies this`particles, this`lastParticle
      ensures Valid()
      ensures particles == SpawnAll(old(particles), old(lastParticle), count, jit, Settings()).0
      ensures lastParticle == SpawnAll(old(particles), old(lastParticle), count, jit, Settings()).1
    {
      var i := 0;
      while i < count
        invariant i <= count && Valid()
        invariant particles == SpawnAll(old(particles), old(lastParticle), i, jit, Settings()).0
        invariant lastParticle == SpawnAll(old(particles), old(lastParticle), i, jit, Settings()).1
      {
        SpawnOne(old(particles), old(lastParticle), i, jit);
        i := i + 1;
      }
    }

    /** Spawn number `i + 1` of the first loop, from the state the first `i` left. */
    method SpawnOne(ghost ps: seq<Particle>, ghost cursor: nat, i: nat, jit: seq<real>)
      requires Valid() && cursor <= |ps| && 3 * (i + 1) <= |jit| && |ps| > 0
      requires particles == SpawnAll(ps, cursor, i, jit, Settings()).0
      requires lastParticle == SpawnAll(ps, cursor, i, jit, Settings()).1
      modifies this`particles, this`lastParticle
      ensures Valid()
      ensures particles == SpawnAll(ps, cursor, i + 1, jit, Settings()).0
      ensures lastParticle == SpawnAll(ps, cursor, i + 1, jit, Settings()).1
    {
      ghost var e := Settings();
      ghost var prev := SpawnAll(ps, cursor, i, jit, e);
      var unused := GetFirstDeadParticle();
      var j := 3 * i;
      Respawn(unused, jit[j], jit[j + 1], jit[j + 2]);
      SpawnAllStep(ps, cursor, i + 1, jit, e, prev, unused, j,
                   Respawned(prev.0[unused], e, jit[j], jit[j + 1], jit[j + 2]));
    }

    /** The second loop of `update`: every particle ages by `dt`, and the positions of the
        survivors are packed, in pool order, at the front of the position buffer. */
    method AgeParticles(dt: real, offsetZ: real, dragFor: Particle -> Vec3)
      requires Valid()
      modifies this`particles, this`totalNumLive, positionData
      ensures Valid()
      ensures |particles| == |old(particles)|
      ensures forall k :: 0 <= k < |particles| ==> particles[k] == Aged(old(particles)[k], dt, offsetZ, dragFor)
      ensures totalNumLive == |LiveIndices(particles)| <= totalNum
      ensures Packed(positionData[..], particles, LiveIndices(particles), totalNumLive)
    {
      ghost var ps0 := particles;
      var count := 0;
      var i := 0;
      while i < totalNum
        invariant i <= totalNum && Valid() && |particles| == |ps0|
        invariant forall k :: 0 <= k < i ==> particles[k] == Aged(ps0[k], dt, offsetZ, dragFor)
        invariant forall k :: i <= k < totalNum ==> particles[k] == ps0[k]
        invariant count == |LiveIndices(particles[..i])|
        invariant Packed(positionData[..], particles, LiveIndices(particles[..i]), count)
      {
        count := AgeSlot(i, count, dt, offsetZ, dragFor);
        i := i + 1;
      }
      assert particles[..i] == particles;
      totalNumLive := count;
    }

    /** One pass of the ageing loop over slot `i`: its life drops, and if it survives it
        moves and its position is written as triple number `count`. */
    method AgeSlot(i: nat, count: nat, dt: real, offsetZ: real, dragFor: Particle -> Vec3)
      returns (count': nat)
      requires Valid() && i < totalNum
      requires count == |LiveIndices(particles[..i])|
      requires Packed(positionData[..], particles, LiveIndices(particles[..i]), count)
      modifies this`particles, positionData
      ensures Valid()
      ensures particles == old(particles)[i := Aged(old(particles)[i], dt, offsetZ, dragFor)]
      ensures count' == |LiveIndices(particles[..i + 1])|
      ensures Packed(positionData[..], particles, LiveIndices(particles[..i + 1]), count')
    {
      var particle := Aged(particles[i], dt, offsetZ, dragFor);
      ghost var live := LiveIndices(particles[..i]);
      ghost var ps1 := particles;
      ghost var data1 := positionData[..];
      particles := particles[i := particle];
      LiveIndicesSnoc(particles, i);
      assert particles[..i + 1][..i] == ps1[..i];
      count' := count;
      if particle.life > 0.0 {
        positionData[3 * count + 0] := particle.position.x;
        positionData[3 * count + 1] := particle.position.y;
        positionData[3 * count + 2] := particle.position.z;
        count' := count + 1;
      }
      PackedStep(data1, positionData[..], ps1, particles, live, i);
    }

    /** `setGeneratorPos`: the emitter moves to `pos`. */
    method SetGeneratorPos(pos: Vec3)
      modifies this`positionGenerator
      ensures positionGenerator == pos
      ensures Settings() == old(Settings()).(origin := pos)
    {
      positionGenerator := pos;
    }

    /** What `update(dt)` needs: a consistent pool, a spawn count trunc(`dt` * generate_speed)
        with three random values for each spawn in `jit`, and a non-empty pool whenever
        anything spawns (an empty one the source would index out of bounds). */
    ghost predicate CanUpdate(dt: real, jit: seq<real>)
      reads this`particles, this`positionData, this`totalNum, this`lastParticle, this`generateSpeed
    {
      Valid() && dt * generateSpeed as real > -1.0 &&
      3 * SpawnCount(dt) <= |jit| && (SpawnCount(dt) > 0 ==> totalNum > 0)
    }

    /** `num_new_particles` of `update(dt)`: dt * generate_speed truncated to a `GLuint`,
        here 0 where that conversion is undefined. */
    function SpawnCount(dt: real): (n: nat)
      reads this`generateSpeed
      ensures dt * generateSpeed as real > -1.0 ==> n == TruncToNat(dt * generateSpeed as real)
      ensures dt * generateSpeed as real < 1.0 ==> n == 0
    {
      if dt * generateSpeed as real > -1.0 then TruncToNat(dt * generateSpeed as real) else 0
    }

    /** `update(dt)`: trunc(dt * generate_speed) spawns, then the ageing pass. */
    method Update(dt: real, offsetZ: real, jit: seq<real>, dragFor: Particle -> Vec3)
      requires CanUpdate(dt, jit)
      modifies this`particles, this`lastParticle, this`totalNumLive, positionData
      ensures Valid() && totalNumLive <= totalNum
      ensures Updated(old(State()), State(), SpawnCount(dt), Settings(), dt, offsetZ, jit, dragFor)
    {
      var numNew := TruncToNat(dt * generateSpeed as real);
      SpawnParticles(numNew, jit);
      AgeParticles(dt, offsetZ, dragFor);
    }
  }
}
