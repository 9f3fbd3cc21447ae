/** The game entities of src/objects.h: the tessellated `Ball`, the player's `SnowBall`
    and the `Barriers` lane window. */
module Objects {
  import opened Common

  // ---------------------------------------------------------------------------
  // Sphere tessellation buffers (Ball::genVertCord, Ball::genUVCord)
  // ---------------------------------------------------------------------------

  datatype Axis = AxisX | AxisY | AxisZ

  /** One coordinate pushed by genVertCord, kept symbolic: the `axis` component of the
      unit-sphere point at latitude index `latitude` (of `stacks`) and longitude index
      `longitude` (of `slices`). The trigonometry that turns it into a float is not modelled. */
  datatype SphereCoord = SphereCoord(latitude: nat, longitude: nat, stacks: nat, slices: nat, axis: Axis)

  /** The six coordinates genVertCord pushes for fragment (i, j): the point on the current
      latitude and the point on the next one, each as x, y, z. */
  function VertexCell(slices: nat, stacks: nat, i: nat, j: nat): seq<SphereCoord>
  {
    [SphereCoord(i, j, stacks, slices, AxisX), SphereCoord(i, j, stacks, slices, AxisY),
     SphereCoord(i, j, stacks, slices, AxisZ), SphereCoord(i + 1, j, stacks, slices, AxisX),
     SphereCoord(i + 1, j, stacks, slices, AxisY), SphereCoord(i + 1, j, stacks, slices, AxisZ)]
  }

  /** The four texture coordinates genUVCord pushes for fragment (i, j). */
  function UVCell(slices: nat, stacks: nat, i: nat, j: nat): seq<real>
    requires slices > 0 && stacks > 0
  {
    [j as real / slices as real, i as real / stacks as real,
     j as real / slices as real, (i + 1) as real / stacks as real]
  }

  /** Fragments (i, 0) .. (i, j-1) of one latitude band, in push order. */
  function VertexRow(slices: nat, stacks: nat, i: nat, j: nat): seq<SphereCoord>
  {
    if j == 0 then [] else VertexRow(slices, stacks, i, j - 1) + VertexCell(slices, stacks, i, j - 1)
  }

  /** Bands 0 .. i-1, every band holding all `slices` fragments. */
  function VertexRows(slices: nat, stacks: nat, i: nat): seq<SphereCoord>
  {
    if i == 0 then [] else VertexRows(slices, stacks, i - 1) + VertexRow(slices, stacks, i - 1, slices)
  }

  /** Everything one genVertCord call appends. */
  function SphereVertices(slices: nat, stacks: nat): seq<SphereCoord>
  {
    VertexRows(slices, stacks, stacks)
  }

  function UVRow(slices: nat, stacks: nat, i: nat, j: nat): seq<real>
    requires slices > 0 && stacks > 0
  {
    if j == 0 then [] else UVRow(slices, stacks, i, j - 1) + UVCell(slices, stacks, i, j - 1)
  }

  function UVRows(slices: nat, stacks: nat, i: nat): seq<real>
    requires slices > 0 && stacks > 0
  {
    if i == 0 then [] else UVRows(slices, stacks, i - 1) + UVRow(slices, stacks, i - 1, slices)
  }

  /** Everything one genUVCord call appends (nothing when a loop bound is 0). */
  function SphereUVs(slices: nat, stacks: nat): seq<real>
  {
    if slices == 0 || stacks == 0 then [] else UVRows(slices, stacks, stacks)
  }

  lemma {:induction false} VertexRowLength(slices: nat, stacks: nat, i: nat, j: nat)
    ensures |VertexRow(slices, stacks, i, j)| == 6 * j
  {
    if j > 0 { VertexRowLength(slices, stacks, i, j - 1); }
  }

  lemma {:induction false} VertexRowsLength(slices: nat, stacks: nat, i: nat)
    ensures |VertexRows(slices, stacks, i)| == 6 * RowStart(i, slices)
  {
    if i > 0 {
      VertexRowsLength(slices, stacks, i - 1);
      VertexRowLength(slices, stacks, i - 1, slices);
    }
  }

  /** genVertCord appends exactly 6 * slices * stacks coordinates. */
  lemma SphereVerticesLength(slices: nat, stacks: nat)
    ensures |SphereVertices(slices, stacks)| == 6 * slices * stacks
  {
    VertexRowsLength(slices, stacks, stacks);
    RowStartIsProduct(stacks, slices);
    assert 6 * slices * stacks == 6 * (stacks * slices);
  }

  /** Coordinate r of fragment (i, j) sits at offset 6 * (i * slices + j) + r of what
      genVertCord appends: the buffer is laid out band by band, fragment by fragment. */
  lemma SphereVerticesAt(slices: nat, stacks: nat, i: nat, j: nat, r: nat)
    requires i < stacks && j < slices && r < 6
    ensures 6 * (i * slices + j) + r < |SphereVertices(slices, stacks)|
    ensures SphereVertices(slices, stacks)[6 * (i * slices + j) + r] == VertexCell(slices, stacks, i, j)[r]
  {
    RowStartIsProduct(i, slices);
    VertexRowsAt(slices, stacks, stacks, i, j, r, 6 * (i * slices + j) + r);
  }

  /** The same layout for the first n bands, with the band offset i * slices written
      as RowStart(i, slices). */
  lemma {:induction false} VertexRowsAt(slices: nat, stacks: nat, n: nat, i: nat, j: nat, r: nat, p: nat)
    requires i < n && j < slices && r < 6 && p == 6 * (RowStart(i, slices) + j) + r
    ensures p < |VertexRows(slices, stacks, n)|
    ensures VertexRows(slices, stacks, n)[p] == VertexCell(slices, stacks, i, j)[r]
  {
    var front := VertexRows(slices, stacks, n - 1);
    var band := VertexRow(slices, stacks, n - 1, slices);
    VertexRowsLength(slices, stacks, n - 1);
    VertexRowLength(slices, stacks, n - 1, slices);
    if i < n - 1 {
      RowStartMonotone(i, n - 1, slices);
      EarlierBand(RowStart(i, slices), RowStart(n - 1, slices), slices, j, r, p);
      AppendLeft(front, band, p);
      VertexRowsAt(slices, stacks, n - 1, i, j, r, p);
    } else {
      assert RowStart(i, slices) == RowStart(n - 1, slices);
      AppendRight(front, band, p, 6 * j + r);
      VertexRowAt(slices, stacks, i, slices, j, r);
    }
  }

  /** Offset p of a fragment of a band that ends before `rest` fragments lies in
      the first 6 * rest coordinates. */
  lemma EarlierBand(start: nat, rest: nat, slices: nat, j: nat, r: nat, p: nat)
    requires start + slices <= rest && j < slices && r < 6 && p == 6 * (start + j) + r
    ensures p < 6 * rest
  {
  }

  /** Concatenation is associative. */
  lemma AppendAssoc<T>(a: seq<T>, b: seq<T>, c: seq<T>)
    ensures a + b + c == a + (b + c)
  {
  }

  /** Indexing the front part of a concatenation. */
  lemma AppendLeft<T>(a: seq<T>, b: seq<T>, k: nat)
    requires k < |a|
    ensures k < |a + b| && (a + b)[k] == a[k]
  {
  }

  /** Indexing the back part of a concatenation. */
  lemma AppendRight<T>(a: seq<T>, b: seq<T>, k: nat, l: nat)
    requires l < |b| && k == |a| + l
    ensures k < |a + b| && (a + b)[k] == b[l]
  {
  }

  lemma {:induction false} VertexRowAt(slices: nat, stacks: nat, i: nat, m: nat, j: nat, r: nat)
    requires j < m && r < 6
    ensures 6 * j + r < |VertexRow(slices, stacks, i, m)|
    ensures VertexRow(slices, stacks, i, m)[6 * j + r] == VertexCell(slices, stacks, i, j)[r]
  {
    VertexRowLength(slices, stacks, i, m);
    VertexRowLength(slices, stacks, i, m - 1);
    if j < m - 1 {
      VertexRowAt(slices, stacks, i, m - 1, j, r);
    }
  }

  /** A fraction a / b with a <= b lies in [0, 1]. */
  lemma FractionInUnit(a: nat, b: nat)
    requires 0 < b && a <= b
    ensures 0.0 <= a as real / b as real <= 1.0
  {
  }

  /** Every value appended to the texture-coordinate buffer lies in [0, 1]. */
  lemma {:induction false} UVRowInUnit(slices: nat, stacks: nat, i: nat, j: nat)
    requires slices > 0 && stacks > 0 && i < stacks && j <= slices
    ensures forall k :: 0 <= k < |UVRow(slices, stacks, i, j)| ==> 0.0 <= UVRow(slices, stacks, i, j)[k] <= 1.0
    ensures |UVRow(slices, stacks, i, j)| == 4 * j
  {
    if j > 0 {
      UVRowInUnit(slices, stacks, i, j - 1);
      var prev := UVRow(slices, stacks, i, j - 1);
      var c := UVCell(slices, stacks, i, j - 1);
      FractionInUnit(j - 1, slices);
      FractionInUnit(i, stacks);
      FractionInUnit(i + 1, stacks);
      assert UVRow(slices, stacks, i, j) == prev + c;
      forall k | 0 <= k < |prev + c|
        ensures 0.0 <= (prev + c)[k] <= 1.0
      {
        if k < |prev| {
          assert (prev + c)[k] == prev[k];
        } else {
          assert (prev + c)[k] == c[k - |prev|];
        }
      }
    }
  }

  lemma {:induction false} UVRowsInUnit(slices: nat, stacks: nat, i: nat)
    requires slices > 0 && stacks > 0 && i <= stacks
    ensures forall k :: 0 <= k < |UVRows(slices, stacks, i)| ==> 0.0 <= UVRows(slices, stacks, i)[k] <= 1.0
    ensures |UVRows(slices, stacks, i)| == 4 * RowStart(i, slices)
  {
    if i > 0 {
      UVRowsInUnit(slices, stacks, i - 1);
      UVRowInUnit(slices, stacks, i - 1, slices);
      var prev := UVRows(slices, stacks, i - 1);
      var band := UVRow(slices, stacks, i - 1, slices);
      assert UVRows(slices, stacks, i) == prev + band;
      forall k | 0 <= k < |prev + band|
        ensures 0.0 <= (prev + band)[k] <= 1.0
      {
        if k < |prev| {
          assert (prev + band)[k] == prev[k];
        } else {
          assert (prev + band)[k] == band[k - |prev|];
        }
      }
    }
  }

  /** genUVCord appends 4 * slices * stacks values, all in [0, 1]. */
  lemma SphereUVsFacts(slices: nat, stacks: nat)
    ensures |SphereUVs(slices, stacks)| == 4 * slices * stacks
    ensures forall k :: 0 <= k < |SphereUVs(slices, stacks)| ==> 0.0 <= SphereUVs(slices, stacks)[k] <= 1.0
  {
    if slices > 0 && stacks > 0 {
      UVRowsInUnit(slices, stacks, stacks);
      RowStartIsProduct(stacks, slices);
    }
  }

  /** A ball's radius, resolution and buffers, as one value. */
  datatype BallShape = BallShape(radius: real, slices: nat, stacks: nat, vertex: seq<SphereCoord>, uvcord: seq<real>)

  /** The shape after `setRadius(r)`: radius `r`, and each buffer one sphere longer. */
  function Resized(s: BallShape, r: real): (t: BallShape)
    ensures t.radius == r && t.slices == s.slices && t.stacks == s.stacks
    ensures |t.vertex| >= |s.vertex| && t.vertex[..|s.vertex|] == s.vertex
    ensures |t.uvcord| >= |s.uvcord| && t.uvcord[..|s.uvcord|] == s.uvcord
  {
    s.(radius := r, vertex := s.vertex + SphereVertices(s.slices, s.stacks),
       uvcord := s.uvcord + SphereUVs(s.slices, s.stacks))
  }

  /** Ball (src/objects.h:22-197): a sphere with its vertex and texture-coordinate buffers.
      The vertex-array and buffer handles are left out. */
  class Ball {
    var radius: real
    var slices: nat
    var stacks: nat
    var vertex: seq<SphereCoord>
    var uvcord: seq<real>

    constructor (radius: real := 0.0, slices: nat := 40, stacks: nat := 40)
      ensures this.radius == radius && this.slices == slices && this.stacks == stacks
      ensures vertex == SphereVertices(this.slices, this.stacks) && uvcord == SphereUVs(this.slices, this.stacks)
    {
      this.radius := radius;
      this.slices := slices;
      this.stacks := stacks;
      vertex := [];
      uvcord := [];
      new;
      GenVertCord();
      GenUVCord();
    }

    /** Appends the fragment endpoints band by band; the buffer is never cleared. */
    method GenVertCord()
      modifies this`vertex
      ensures vertex == old(vertex) + SphereVertices(slices, stacks)
    {
      var i := 0;
      while i < stacks
        invariant 0 <= i <= stacks
        invariant vertex == old(vertex) + VertexRows(slices, stacks, i)
      {
        var j := 0;
        while j < slices
          invariant 0 <= j <= slices
          invariant vertex == old(vertex) + VertexRows(slices, stacks, i) + VertexRow(slices, stacks, i, j)
        {
          PushVertexCell(i, j);
          AppendAssoc(old(vertex) + VertexRows(slices, stacks, i), VertexRow(slices, stacks, i, j), VertexCell(slices, stacks, i, j));
          j := j + 1;
        }
        AppendAssoc(old(vertex), VertexRows(slices, stacks, i), VertexRow(slices, stacks, i, slices));
        i := i + 1;
      }
    }

    /** The body of genVertCord's inner loop: the two endpoints of fragment (i, j). */
    method PushVertexCell(i: nat, j: nat)
      modifies this`vertex
      ensures vertex == old(vertex) + VertexCell(slices, stacks, i, j)
    {
      vertex := vertex + [SphereCoord(i, j, stacks, slices, AxisX)];
      vertex := vertex + [SphereCoord(i, j, stacks, slices, AxisY)];
      vertex := vertex + [SphereCoord(i, j, stacks, slices, AxisZ)];
      vertex := vertex + [SphereCoord(i + 1, j, stacks, slices, AxisX)];
      vertex := vertex + [SphereCoord(i + 1, j, stacks, slices, AxisY)];
      vertex := vertex + [SphereCoord(i + 1, j, stacks, slices, AxisZ)];
    }

    /** Appends the texture coordinates band by band; the buffer is never cleared. */
    method GenUVCord()
      modifies this`uvcord
      ensures uvcord == old(uvcord) + SphereUVs(slices, stacks)
    {
      if slices == 0 || stacks == 0 {
        return;
      }
      var i := 0;
      while i < stacks
        invariant 0 <= i <= stacks
        invariant uvcord == old(uvcord) + UVRows(slices, stacks, i)
      {
        var j := 0;
        while j < slices
          invariant 0 <= j <= slices
          invariant uvcord == old(uvcord) + UVRows(slices, stacks, i) + UVRow(slices, stacks, i, j)
        {
          PushUVCell(i, j);
          AppendAssoc(old(uvcord) + UVRows(slices, stacks, i), UVRow(slices, stacks, i, j), UVCell(slices, stacks, i, j));
          j := j + 1;
        }
        AppendAssoc(old(uvcord), UVRows(slices, stacks, i), UVRow(slices, stacks, i, slices));
        i := i + 1;
      }
    }

    /** The body of genUVCord's inner loop: the texture coordinates of fragment (i, j). */
    method PushUVCell(i: nat, j: nat)
      requires slices > 0 && stacks > 0
      modifies this`uvcord
      ensures uvcord == old(uvcord) + UVCell(slices, stacks, i, j)
    {
      uvcord := uvcord + [j as real / slices as real];
      uvcord := uvcord + [i as real / stacks as real];
      uvcord := uvcord + [j as real / slices as real];
      uvcord := uvcord + [(i + 1) as real / stacks as real];
    }

    /** The ball's fields as one value. */
    function Shape(): BallShape
      reads this
    {
      BallShape(radius, slices, stacks, vertex, uvcord)
    }

    method SetRadius(r: real)
      modifies this
      ensures radius == r && slices == old(slices) && stacks == old(stacks)
      ensures vertex == old(vertex) + SphereVertices(slices, stacks)
      ensures uvcord == old(uvcord) + SphereUVs(slices, stacks)
      ensures Shape() == Resized(old(Shape()), r)
    {
      radius := r;
      GenVertCord();
      GenUVCord();
    }

    method SetSlices(n: nat)
      modifies this
      ensures slices == n && radius == old(radius) && stacks == old(stacks)
      ensures vertex == old(vertex) + SphereVertices(n, stacks)
      ensures uvcord == old(uvcord) + SphereUVs(n, stacks)
    {
      slices := n;
      GenVertCord();
      GenUVCord();
    }

    method SetStacks(n: nat)
      modifies this
      ensures stacks == n && radius == old(radius) && slices == old(slices)
      ensures vertex == old(vertex) + SphereVertices(slices, n)
      ensures uvcord == old(uvcord) + SphereUVs(slices, n)
    {
      stacks := n;
      GenVertCord();
      GenUVCord();
    }

    method Reset(r: real, sl: nat, st: nat)
      modifies this
      ensures radius == r && slices == sl && stacks == st
      ensures vertex == old(vertex) + SphereVertices(sl, st)
      ensures uvcord == old(uvcord) + SphereUVs(sl, st)
    {
      radius := r;
      slices := sl;
      stacks := st;
      GenVertCord();
      GenUVCord();
    }
  }

  /** SnowBall (src/objects.h:200-298): the player. The C++ class derives from Ball; here it
      owns its Ball, whose radius and buffers are the snowball's. The texture is left out. */
  class SnowBall {
    const ball: Ball
    var rotAngle: real
    var curPosition: Vec3
    var speed: real
    var accelerator: real
    var meltSpeed: real

    /** The constructor body sets only the y and z of `curPosition`; its x is 0 because a
        default-constructed `glm::vec3` is the zero vector. */
    constructor (radius: real := 0.0, slices: nat := 40, stacks: nat := 40, rotAngle: real := 0.0,
                 speed: real := 12.0, accelerator: real := 1.2, meltSpeed: real := 0.01)
      ensures fresh(ball) && ball.radius == radius && ball.slices == slices && ball.stacks == stacks
      ensures ball.vertex == SphereVertices(ball.slices, ball.stacks) && ball.uvcord == SphereUVs(ball.slices, ball.stacks)
      ensures this.rotAngle == rotAngle && this.speed == speed
      ensures this.accelerator == accelerator && this.meltSpeed == meltSpeed
      ensures curPosition == Vec3(0.0, radius, 4.0 * radius)
    {
      ball := new Ball(radius, slices, stacks);
      this.rotAngle := rotAngle;
      this.speed := speed;
      this.accelerator := accelerator;
      this.meltSpeed := meltSpeed;
      curPosition := Vec3(0.0, radius, radius * 20.0 / 5.0);
    }
  }

  // ---------------------------------------------------------------------------
  // Barriers lane window
  // ---------------------------------------------------------------------------

  /** The safe lane drawn from one `rand()` value: `rand() % 3 - 1`. `rand()` is never
      negative, so C's truncating `%` agrees with Dafny's. */
  function Lane(r: nat): (l: int)
    ensures -1 <= l <= 1
    ensures l == -1 <==> r % 3 == 0
    ensures l == 1 <==> r % 3 == 2
  {
    r % 3 - 1
  }

  /** The lanes drawn from a sequence of `rand()` values, in order. */
  function Lanes(rs: seq<nat>): (ls: seq<int>)
    ensures |ls| == |rs|
    ensures forall k :: 0 <= k < |rs| ==> ls[k] == Lane(rs[k]) && -1 <= ls[k] <= 1
  {
    seq(|rs|, k requires 0 <= k < |rs| => Lane(rs[k]))
  }

  /** The window after one updateDeque: the front row is popped and a new one pushed. */
  function Slide(w: seq<int>, r: nat): (w': seq<int>)
    requires |w| > 0
    ensures |w'| == |w|
    ensures forall i :: 0 <= i < |w| - 1 ==> w'[i] == w[i + 1]
    ensures w'[|w| - 1] == Lane(r)
  {
    w[1..] + [Lane(r)]
  }

  /** The window after one updateDeque per value of `rs`, in order. */
  function SlideAll(w: seq<int>, rs: seq<nat>): seq<int>
    requires |w| > 0
    decreases |rs|
  {
    if rs == [] then w else SlideAll(Slide(w, rs[0]), rs[1..])
  }

  /** k updates slide the window by exactly k rows: the result is the window followed by
      the k new lanes, with the first k rows dropped. */
  lemma {:induction false} SlideAllWindow(w: seq<int>, rs: seq<nat>)
    requires |w| > 0 && |rs| <= |w|
    ensures SlideAll(w, rs) == (w + Lanes(rs))[|rs|..]
    decreases |rs|
  {
    if rs != [] {
      var w1 := Slide(w, rs[0]);
      SlideAllWindow(w1, rs[1..]);
      assert w1 == (w + Lanes(rs))[1..|w| + 1];
      assert Lanes(rs[1..]) == Lanes(rs)[1..];
      assert (w1 + Lanes(rs[1..]))[|rs| - 1..] == (w + Lanes(rs))[|rs|..];
    }
  }

  /** After k < size updates, row i of the window is row i + k of the original, and the last
      k rows are the new lanes; after `size` updates none of the original rows is left. */
  lemma SlideAllRows(w: seq<int>, rs: seq<nat>)
    requires |w| > 0 && |rs| <= |w|
    ensures |SlideAll(w, rs)| == |w|
    ensures forall i :: 0 <= i < |w| - |rs| ==> SlideAll(w, rs)[i] == w[i + |rs|]
    ensures forall i :: |w| - |rs| <= i < |w| ==> SlideAll(w, rs)[i] == Lane(rs[i - (|w| - |rs|)])
    ensures |rs| == |w| ==> SlideAll(w, rs) == Lanes(rs)
  {
    SlideAllWindow(w, rs);
  }

  /** WrapDegrees(v): the angle in [0, 360) that differs from v by whole turns. */
  function WrapDegrees(v: real): (r: real)
    ensures 0.0 <= r < 360.0
    ensures IsWholeTurns(v - r)
  {
    var k := (v / 360.0).Floor;
    assert (v - (v - 360.0 * k as real)) / 360.0 == k as real;
    v - 360.0 * k as real
  }

  /** d is an integer multiple of 360. */
  predicate IsWholeTurns(d: real)
  {
    (d / 360.0).Floor as real == d / 360.0
  }

  /** An angle already in [0, 360) is left as it is. */
  lemma WrapDegreesIdentity(v: real)
    requires 0.0 <= v < 360.0
    ensures WrapDegrees(v) == v
  {
    assert (v / 360.0).Floor == 0;
  }

  /** The only value in [0, 360) that differs from v by k whole turns is WrapDegrees(v). */
  lemma WrapDegreesUnique(v: real, r: real, k: int)
    requires 0.0 <= r < 360.0 && r == v - 360.0 * k as real
    ensures r == WrapDegrees(v)
  {
    assert v / 360.0 == k as real + r / 360.0;
    assert 0.0 <= r / 360.0 < 1.0;
    assert (v / 360.0).Floor == k;
  }

  /** The settings of a barrier row: height, spin, row spacing and window size. */
  datatype BarrierLayout = BarrierLayout(baseline: real, rotSpeed: real, spacing: real, rowSize: int)

  /** Barriers (src/objects.h:304-418): the window of the next `rowSize` rows' safe lanes,
      with the barrier-type window (two slots per row) that src/main.cpp reads through
      `getBarTypes` and slides through `update`. The per-slot model matrices are left out. */
  class Barriers {
    var baseline: real
    var rotSpeed: real
    var spacing: real
    var rowSize: int
    var deque: seq<int>
    var barTypes: seq<nat>

    constructor (baseline: real := 0.8, rotSpeed: real := 0.0, spacing: real := 30.0, rowSize: int := 20)
      ensures this.baseline == baseline && this.rotSpeed == rotSpeed
      ensures this.spacing == spacing && this.rowSize == rowSize
      ensures deque == [] && barTypes == []
    {
      this.baseline := baseline;
      this.rotSpeed := rotSpeed;
      this.spacing := spacing;
      this.rowSize := rowSize;
      deque := [];
      barTypes := [];
    }

    /** The settings as one value. */
    function Layout(): BarrierLayout
      reads this`baseline, this`rotSpeed, this`spacing, this`rowSize
    {
      BarrierLayout(baseline, rotSpeed, spacing, rowSize)
    }

    /** setRotSpeed: stores the value wrapped into [0, 360) by repeated whole turns. */
    method SetRotSpeed(v: real)
      modifies this`rotSpeed
      ensures rotSpeed == WrapDegrees(v)
      ensures 0.0 <= v < 360.0 ==> rotSpeed == v
    {
      rotSpeed := v;
      ghost var k: int := 0;
      while rotSpeed >= 360.0
        invariant rotSpeed == v - 360.0 * k as real
        decreases rotSpeed.Floor
      {
        rotSpeed := rotSpeed - 360.0;
        k := k + 1;
      }
      while rotSpeed < 0.0
        invariant rotSpeed == v - 360.0 * k as real
        invariant rotSpeed < 360.0
        decreases (-rotSpeed).Floor
      {
        rotSpeed := rotSpeed + 360.0;
        k := k - 1;
      }
      WrapDegreesUnique(v, rotSpeed, k);
      if 0.0 <= v < 360.0 {
        WrapDegreesIdentity(v);
      }
    }

    /** The default initDeque: `rs` stands for the successive `rand()` results. A populated
        deque makes the program exit (`exited`) and nothing changes. */
    method InitDeque(rs: seq<nat>) returns (exited: bool)
      requires Max0(rowSize) <= |rs|
      modifies this`deque
      ensures exited <==> old(deque) != []
      ensures exited ==> deque == old(deque)
      ensures !exited ==> deque == Lanes(rs[..Max0(rowSize)])
    {
      if |deque| != 0 {
        return true;
      }
      var loop := 0;
      while loop < rowSize
        invariant 0 <= loop <= Max0(rowSize)
        invariant deque == Lanes(rs[..loop])
      {
        deque := deque + [Lane(rs[loop])];
        loop := loop + 1;
      }
      return false;
    }

    /** The parameterised initDeque: copies the first `rowSize` entries of the given array. */
    method InitDequeFrom(src: array<int>) returns (exited: bool)
      requires Max0(rowSize) <= src.Length
      modifies this`deque
      ensures exited <==> old(deque) != []
      ensures exited ==> deque == old(deque)
      ensures !exited ==> deque == src[..Max0(rowSize)]
    {
      if |deque| != 0 {
        return true;
      }
      var loop := 0;
      while loop < rowSize
        invariant 0 <= loop <= Max0(rowSize)
        invariant deque == src[..loop]
      {
        deque := deque + [src[loop]];
        loop := loop + 1;
      }
      return false;
    }

    /** updateDeque: `r` stands for the `rand()` result; pop the front row, push the new one. */
    method UpdateDeque(r: nat)
      requires |deque| > 0
      modifies this`deque
      ensures deque == Slide(old(deque), r)
    {
      var safeLane := Lane(r);
      deque := deque[1..];
      deque := deque + [safeLane];
    }

    /** The barrier-type half of the initialisation: `2 * rowSize` slots, two per row.
        Exits like initDeque when the type window is already populated. */
    method InitBarTypes(types: seq<nat>) returns (exited: bool)
      requires |types| == 2 * Max0(rowSize)
      modifies this`barTypes
      ensures exited <==> old(barTypes) != []
      ensures barTypes == if exited then old(barTypes) else types
    {
      if |barTypes| != 0 {
        return true;
      }
      barTypes := types;
      return false;
    }

    /** `update` as src/main.cpp calls it: the lane deque moves on by updateDeque and the
        type window by the two slots of a row (`t0`, `t1` are the new row's types). */
    method Update(r: nat, t0: nat, t1: nat)
      requires |deque| > 0 && |barTypes| >= 2
      modifies this`deque, this`barTypes
      ensures deque == Slide(old(deque), r)
      ensures barTypes == old(barTypes)[2..] + [t0, t1]
    {
      UpdateDeque(r);
      barTypes := barTypes[2..] + [t0, t1];
    }
  }
}
