/** The integer-and-comparison rules inside `updateScene` (src/main.cpp:304-577): which row of
    the barrier window is checked, where its safe lane and food are, the three-branch
    collision decision, the distance-driven stage machine, and how the window that the
    scoring slides relates to the endless road of rows. */
module GameRules {
  import opened Common
  import opened Objects

  // ---------------------------------------------------------------------------
  // The checked row
  // ---------------------------------------------------------------------------

  /** The window index of the row being checked: `score` while it is below half the window,
      then pinned at `size / 2 - 1`. */
  function ActiveRowIndex(score: nat, size: nat): (k: nat)
    requires size >= 2
    ensures k < size / 2
  {
    if score < size / 2 then score else size / 2 - 1
  }

  /** The two type slots read for the food check: `2 * score`, `2 * score + 1` while the score
      is below half the window, then the last two slots of the type window. */
  function FoodSlots(score: nat, size: nat): (slots: (nat, nat))
    requires size >= 2
    ensures slots.0 + 1 == slots.1 < 2 * size
  {
    if score < size / 2 then (2 * score, 2 * score + 1) else (size - 2, size - 1)
  }

  /** How many rows the window has been slid by once `score` rows are scored: every scoring
      whose new score reaches half the window pops one row. */
  function Pops(score: nat, size: nat): (p: nat)
    ensures score < size / 2 ==> p == 0
    ensures score >= size / 2 ==> p == score - size / 2 + 1
  {
    if score < size / 2 then 0 else score - size / 2 + 1
  }

  /** The barrier-occupied lanes of a row whose safe lane is `safe`, lower one first. Both
      stay at their initial value 2 for a lane outside {-1, 0, 1}, which the window never holds. */
  function OccupiedLanes(safe: int): (lr: (int, int))
    ensures -1 <= safe <= 1 ==> lr.0 < lr.1 && {safe, lr.0, lr.1} == {-1, 0, 1}
    ensures !(-1 <= safe <= 1) ==> lr == (2, 2)
  {
    if safe == -1 then (0, 1)
    else if safe == 0 then (-1, 1)
    else if safe == 1 then (-1, 0)
    else (2, 2)
  }

  /** The x positions of the food in the checked row: the left occupied lane when its type
      slot is 0, then the right one when its slot is 0. */
  function FoodPositions(left: int, right: int, t0: nat, t1: nat): (food: seq<real>)
    ensures |food| == (if t0 == 0 then 1 else 0) + (if t1 == 0 then 1 else 0)
    ensures t0 == 0 ==> food[0] == 3.0 * left as real
    ensures t1 == 0 ==> food[|food| - 1] == 3.0 * right as real
  {
    (if t0 == 0 then [3.0 * left as real] else []) + (if t1 == 0 then [3.0 * right as real] else [])
  }

  /** The food list never repeats a lane: with two entries they are the two occupied lanes. */
  lemma FoodPositionsDistinct(safe: int, t0: nat, t1: nat)
    requires -1 <= safe <= 1
    ensures var lr := OccupiedLanes(safe); var food := FoodPositions(lr.0, lr.1, t0, t1);
      |food| <= 2 && (|food| == 2 ==> food[0] < food[1]) &&
      forall k :: 0 <= k < |food| ==> food[k] != 3.0 * safe as real
  {
  }

  // ---------------------------------------------------------------------------
  // The collision decision
  // ---------------------------------------------------------------------------

  datatype RowOutcome = GameOver | Bonus | Pass

  function Abs(v: real): (a: real)
    ensures a >= 0.0 && (a == v || a == -v)
  {
    if v < 0.0 then -v else v
  }

  /** The ball is within 1.2 of the safe lane's centre. */
  predicate InSafeZone(x: real, safeX: real)
  {
    safeX - 1.2 <= x <= safeX + 1.2
  }

  /** The ball's z lies in the open band (rowZ + 1, rowZ + 3) behind the checked row,
      with rowZ = -(score + 1) * spacing. */
  predicate InBand(z: real, score: nat, spacing: real)
  {
    var rowZ := -(score + 1) as real * spacing;
    rowZ + 1.0 < z < rowZ + 3.0
  }

  /** The three-branch decision of src/main.cpp:529-567 for a ball at `x` with `radius`. */
  function RowDecision(food: seq<real>, safeX: real, x: real, radius: real): (o: RowOutcome)
    ensures |food| == 0 ==> o != Bonus && (o == GameOver <==> !InSafeZone(x, safeX) || radius < 0.05)
    ensures |food| == 1 ==> (o == Bonus <==> Abs(x - food[0]) < 1.0)
    ensures |food| == 1 ==> (o == GameOver <==> Abs(x - food[0]) >= 1.0 && (!InSafeZone(x, safeX) || radius < 0.05))
    ensures |food| >= 2 ==> o != GameOver && (o == Bonus <==> !InSafeZone(x, safeX))
  {
    if |food| == 0 then
      if x < safeX - 1.2 || x > safeX + 1.2 || radius < 0.05 then GameOver else Pass
    else if |food| == 1 then
      if Abs(x - food[0]) < 1.0 then Bonus
      else if x < safeX - 1.2 || x > safeX + 1.2 || radius < 0.05 then GameOver
      else Pass
    else
      if x < safeX - 1.2 || x > safeX + 1.2 then Bonus else Pass
  }

  /** A ball inside the safe zone with radius at least 0.05 never ends the game, whatever
      the food; a row with two food never ends it at all. */
  lemma SafeBallSurvives(food: seq<real>, safeX: real, x: real, radius: real)
    requires (InSafeZone(x, safeX) && radius >= 0.05) || |food| >= 2
    ensures RowDecision(food, safeX, x, radius) != GameOver
  {
  }

  /** The whole decision for the checked row of a window: lane, food and outcome. */
  function CheckedRowOutcome(lanes: seq<int>, types: seq<nat>, score: nat, x: real, radius: real): (o: RowOutcome)
    requires |lanes| >= 2 && |types| == 2 * |lanes|
    ensures var safe := lanes[ActiveRowIndex(score, |lanes|)];
      -1 <= safe <= 1 && InSafeZone(x, 3.0 * safe as real) && radius >= 0.05 ==> o != GameOver
  {
    var safe := lanes[ActiveRowIndex(score, |lanes|)];
    var lr := OccupiedLanes(safe);
    var slots := FoodSlots(score, |lanes|);
    var food := FoodPositions(lr.0, lr.1, types[slots.0], types[slots.1]);
    RowDecision(food, 3.0 * safe as real, x, radius)
  }

  // ---------------------------------------------------------------------------
  // The window as scoring slides it
  // ---------------------------------------------------------------------------

  /** The lane window after `s` rows are scored, from window `w0`, where the k-th slide
      draws `rs[k]`: the scoring that makes the score `s` slides once when `s >= size / 2`. */
  function WindowAfterScores(w0: seq<int>, rs: seq<nat>, s: nat): (w: seq<int>)
    requires |w0| >= 2 && Pops(s, |w0|) <= |rs|
    ensures |w| == |w0|
  {
    if s == 0 then w0
    else
      var w := WindowAfterScores(w0, rs, s - 1);
      if s >= |w0| / 2 then Slide(w, rs[Pops(s, |w0|) - 1]) else w
  }

  /** The type window after `s` rows are scored: two slots per row, slid two at a time;
      `ts` holds the new rows' slots in order. */
  function TypesAfterScores(t0: seq<nat>, ts: seq<nat>, size: nat, s: nat): (t: seq<nat>)
    requires size >= 2 && |t0| == 2 * size && 2 * Pops(s, size) <= |ts|
    ensures |t| == 2 * size
  {
    if s == 0 then t0
    else
      var t := TypesAfterScores(t0, ts, size, s - 1);
      if s >= size / 2 then
        var p := Pops(s, size);
        t[2..] + [ts[2 * p - 2], ts[2 * p - 1]]
      else t
  }

  /** The window is always a stretch of the endless road `w0 + Lanes(rs)`: the rows from
      number Pops(s) on. */
  lemma {:induction false} WindowIsRoadStretch(w0: seq<int>, rs: seq<nat>, s: nat)
    requires |w0| >= 2 && Pops(s, |w0|) <= |rs|
    ensures WindowAfterScores(w0, rs, s) == (w0 + Lanes(rs))[Pops(s, |w0|)..Pops(s, |w0|) + |w0|]
  {
    var road := w0 + Lanes(rs);
    if s > 0 {
      WindowIsRoadStretch(w0, rs, s - 1);
      var p := Pops(s - 1, |w0|);
      if s >= |w0| / 2 {
        var q := Pops(s, |w0|);
        assert q == p + 1;
        assert road[|w0| + q - 1] == Lane(rs[q - 1]);
        assert road[p..p + |w0|][1..] + [Lane(rs[q - 1])] == road[q..q + |w0|];
      }
    }
  }

  /** The type window is the matching stretch of the road's type slots. */
  lemma {:induction false} TypesAreRoadStretch(t0: seq<nat>, ts: seq<nat>, size: nat, s: nat)
    requires size >= 2 && |t0| == 2 * size && 2 * Pops(s, size) <= |ts|
    ensures TypesAfterScores(t0, ts, size, s) == (t0 + ts)[2 * Pops(s, size)..2 * Pops(s, size) + 2 * size]
  {
    var road := t0 + ts;
    if s > 0 {
      TypesAreRoadStretch(t0, ts, size, s - 1);
      var p := Pops(s - 1, size);
      if s >= size / 2 {
        var q := Pops(s, size);
        assert q == p + 1;
        assert road[2 * p..2 * p + 2 * size][2..] + [ts[2 * q - 2], ts[2 * q - 1]] == road[2 * q..2 * q + 2 * size];
      }
    }
  }

  /** In any stretch of a road that starts at row Pops(s), the checked slot holds row `s`. */
  lemma StretchPinnedRow(road: seq<int>, s: nat, size: nat)
    requires size >= 2 && Pops(s, size) + size <= |road|
    ensures road[Pops(s, size)..Pops(s, size) + size][ActiveRowIndex(s, size)] == road[s]
  {
    var p := Pops(s, size);
    var k := ActiveRowIndex(s, size);
    assert p + k == s;
    assert road[p..p + size][k] == road[p + k];
  }

  /** In the matching stretch of the road's type slots, the two food slots are row `s`'s own
      exactly when the score is below half the window or the window has an even number of
      rows; for an odd window past the threshold they are shifted by one slot. */
  lemma StretchFoodSlots(types: seq<nat>, s: nat, size: nat)
    requires size >= 2 && 2 * Pops(s, size) + 2 * size <= |types|
    ensures var slots := FoodSlots(s, size);
      (2 * Pops(s, size) + slots.0 == 2 * s) <==> (s < size / 2 || size % 2 == 0)
    ensures var slots := FoodSlots(s, size);
      (s >= size / 2 && size % 2 == 1) ==> 2 * Pops(s, size) + slots.0 == 2 * s + 1
    ensures var slots := FoodSlots(s, size); var t := types[2 * Pops(s, size)..2 * Pops(s, size) + 2 * size];
      (s < size / 2 || size % 2 == 0) ==> t[slots.0] == types[2 * s] && t[slots.1] == types[2 * s + 1]
  {
    var p := Pops(s, size);
    var slots := FoodSlots(s, size);
    if s >= size / 2 {
      assert 2 * p + slots.0 == 2 * s - 2 * (size / 2) + size;
      if size % 2 == 0 {
        assert 2 * (size / 2) == size;
      } else {
        assert 2 * (size / 2) == size - 1;
      }
    }
    if s < size / 2 || size % 2 == 0 {
      var t := types[2 * p..2 * p + 2 * size];
      assert 2 * p + slots.0 == 2 * s;
      assert t[slots.0] == types[2 * p + slots.0];
      assert t[slots.1] == types[2 * p + slots.1];
    }
  }

  /** The pinned slot is not arbitrary: after `s` scorings the checked row of the window is
      row number `s` of the road, both before and after the score reaches half the window. */
  lemma CheckedRowIsRowScore(w0: seq<int>, rs: seq<nat>, s: nat)
    requires |w0| >= 2 && Pops(s, |w0|) <= |rs|
    ensures WindowAfterScores(w0, rs, s)[ActiveRowIndex(s, |w0|)] == (w0 + Lanes(rs))[s]
  {
    WindowIsRoadStretch(w0, rs, s);
    StretchPinnedRow(w0 + Lanes(rs), s, |w0|);
  }

  /** The food check of the slid type window reads row `s`'s own slots exactly when the
      score is below half the window or the window has an even number of rows. */
  lemma FoodSlotsAreRowScore(t0: seq<nat>, ts: seq<nat>, size: nat, s: nat)
    requires size >= 2 && |t0| == 2 * size && 2 * Pops(s, size) <= |ts|
    ensures var slots := FoodSlots(s, size); var t := TypesAfterScores(t0, ts, size, s);
      (s < size / 2 || size % 2 == 0) ==> t[slots.0] == (t0 + ts)[2 * s] && t[slots.1] == (t0 + ts)[2 * s + 1]
  {
    TypesAreRoadStretch(t0, ts, size, s);
    StretchFoodSlots(t0 + ts, s, size);
  }

  // ---------------------------------------------------------------------------
  // The distance-driven stages
  // ---------------------------------------------------------------------------

  /** One stage step as updateScene takes it: 1 -> 2 past `first`, 2 -> 3 past `second`,
      the two checks in sequence so both can fire in one call. */
  function NextStage(stage: int, dist: real, first: real, second: real): (s: int)
    requires first < second
    ensures stage <= s && (s <= 3 || s == stage)
    ensures s != stage ==> (stage == 1 || stage == 2) && dist > first
    ensures (stage == 1 || stage == 2) && dist > second ==> s == 3
    ensures stage == 1 && first < dist <= second ==> s == 2
    ensures (stage == 1 && dist <= first) || (stage == 2 && dist <= second) ==> s == stage
  {
    var a := if dist > first && stage == 1 then stage + 1 else stage;
    if dist > second && a == 2 then a + 1 else a
  }
}
