/** The terrain of the snow stage: a square grid of heights read from a height-map
    image, smoothed in place, turned into vertex, texture-coordinate, normal and index
    buffers, and sampled by planar interpolation to stand objects on the ground. */
module TerrainGrid {
  import opened Common

  /** A square grid of heights, row `h` being `g[h]`. */
  type Grid = seq<seq<real>>

  predicate IsGrid(g: Grid, n: nat)
  {
    |g| == n && forall h :: 0 <= h < n ==> |g[h]| == n
  }

  /** Two grids with the same heights everywhere are the same grid. */
  lemma SameGrid(a: Grid, b: Grid, n: nat)
    requires IsGrid(a, n) && IsGrid(b, n)
    requires forall h, w :: 0 <= h < n && 0 <= w < n ==> a[h][w] == b[h][w]
    ensures a == b
  {
    forall h | 0 <= h < n
      ensures a[h] == b[h]
    {
      assert forall w :: 0 <= w < n ==> a[h][w] == b[h][w];
    }
  }

  /** Every height of the grid lies in [0, peak]. */
  predicate Bounded(g: Grid, n: nat, peak: real)
    requires IsGrid(g, n)
  {
    forall h, w :: 0 <= h < n && 0 <= w < n ==> 0.0 <= g[h][w] <= peak
  }

  /** The position of cell (h, w) in a row-major buffer of `rows` rows of `n` cells. */
  function Cell(h: nat, w: nat, rows: nat, n: nat): (k: nat)
    requires h < rows && w < n
    ensures k < RowStart(rows, n)
  {
    RowStartMonotone(h, rows, n);
    RowStart(h, n) + w
  }

  // ---------------------------------------------------------------------------
  // Reading the height map

  /** The smoothing factor `readHeightMapData` applies (the height smoothing is compiled in). */
  const SmoothFactor: real := 0.1

  /** The height of one pixel: its red byte scaled from [0, 255] to [0, peak]. */
  function PixelHeight(peak: real, b: byte): (v: real)
    ensures 0.0 <= peak ==> 0.0 <= v <= peak
    ensures b == 0 ==> v == 0.0
    ensures b == 255 ==> v == peak
  {
    var f := (b as real) / 255.0;
    ScaleUnit(f, peak);
    peak * f
  }

  /** Scaling by a factor in [0, 1] keeps a non-negative value within [0, itself]. */
  lemma ScaleUnit(f: real, peak: real)
    requires 0.0 <= f <= 1.0
    ensures 0.0 <= peak ==> 0.0 <= peak * f <= peak
  {
    if 0.0 <= peak {
      assert peak * (1.0 - f) >= 0.0;
    }
  }

  /** The grid read from a 3-byte-per-pixel image, before smoothing. */
  function FromImage(data: seq<byte>, n: nat, peak: real): (g: Grid)
    requires n >= 1 && 3 * (n * n - 1) < |data|
    ensures IsGrid(g, n)
    ensures 0.0 <= peak ==> Bounded(g, n, peak)
  {
    RowStartIsProduct(n, n);
    seq(n, h requires 0 <= h < n =>
      seq(n, w requires 0 <= w < n => PixelHeight(peak, data[3 * Cell(h, w, n, n)])))
  }

  // ---------------------------------------------------------------------------
  // Smoothing

  datatype CellKind = Corner | Border | Interior

  predicate OnEdge(i: nat, n: nat) { i == 0 || i == n - 1 }

  /** A grid point is a corner when it is on an edge both ways, on the border when it
      is on an edge one way only, and interior otherwise. */
  function Classify(h: nat, w: nat, n: nat): (k: CellKind)
    ensures k == Corner <==> OnEdge(h, n) && OnEdge(w, n)
    ensures k == Border <==> OnEdge(h, n) != OnEdge(w, n)
    ensures k == Interior <==> !OnEdge(h, n) && !OnEdge(w, n)
  {
    if h == 0 || h == n - 1 then
      if w == 0 || w == n - 1 then Corner else Border
    else if w == 0 || w == n - 1 then Border
    else Interior
  }

  /** How many of the eight neighbours a point of each kind has inside the grid. */
  function NeighbourCount(k: CellKind): real
  {
    match k
    case Corner => 3.0
    case Border => 5.0
    case Interior => 8.0
  }

  /** The new height of a point from its own height and the sum of its neighbours. For
      non-negative heights it lies between 0 and the larger of the point's height and its
      neighbours' mean. */
  function SmoothCell(k: CellKind, alpha: real, self: real, sum: real): (v: real)
    ensures 0.0 <= alpha <= 1.0 && 0.0 <= self && 0.0 <= sum ==>
      var mean := sum / NeighbourCount(k);
      0.0 <= v <= (if self >= mean then self else mean)
  {
    match k
    case Corner =>
      WeightedMix(0.75, 0.25, 3.0, alpha, self, sum);
      Mix(0.75, 0.25, alpha, self, sum)
    case Border =>
      WeightedMix(5.0 / 6.0, 1.0 / 6.0, 5.0, alpha, self, sum);
      Mix(5.0 / 6.0, 1.0 / 6.0, alpha, self, sum)
    case Interior =>
      WeightedMix(0.875, 0.125, 8.0, alpha, self, sum);
      Mix(0.875, 0.125, alpha, self, sum)
  }

  /** The smoothing formula: the point's height weighted by `p * alpha` plus the neighbour
      sum weighted by `c * (1 - alpha)`. */
  function Mix(p: real, c: real, alpha: real, self: real, sum: real): real
  {
    p * alpha * self + c * (1.0 - alpha) * sum
  }

  /** Weighting the point by `p` and the neighbour sum by `c` keeps the value between 0 and the
      larger of the point and the neighbour mean `sum / n`, when `c * n` is at most 1. */
  lemma WeightedMix(p: real, c: real, n: real, alpha: real, self: real, sum: real)
    requires 0.0 <= p <= 1.0 && n > 0.0 && 0.0 <= c * n <= 1.0
    ensures 0.0 <= alpha <= 1.0 && 0.0 <= self && 0.0 <= sum ==>
      var mean := sum / n;
      0.0 <= Mix(p, c, alpha, self, sum) <= (if self >= mean then self else mean)
  {
    var mean := sum / n;
    assert mean * n == sum;
    assert c * (1.0 - alpha) * sum == (c * n) * (1.0 - alpha) * mean;
    assert 0.0 <= sum ==> 0.0 <= mean;
    MixBounded(p, c * n, alpha, self, mean);
  }

  /** `p * alpha * self + q * (1 - alpha) * mean`, with weights `p`, `q` and `alpha` in
      [0, 1] and non-negative values, lies between 0 and the larger value. */
  lemma MixBounded(p: real, q: real, alpha: real, self: real, mean: real)
    ensures 0.0 <= p <= 1.0 && 0.0 <= q <= 1.0 && 0.0 <= alpha <= 1.0 && 0.0 <= self && 0.0 <= mean ==>
      0.0 <= p * alpha * self + q * (1.0 - alpha) * mean <= (if self >= mean then self else mean)
  {
    if 0.0 <= p <= 1.0 && 0.0 <= q <= 1.0 && 0.0 <= alpha <= 1.0 && 0.0 <= self && 0.0 <= mean {
      var top := if self >= mean then self else mean;
      var x, y := alpha * self, (1.0 - alpha) * mean;
      ProductNonNeg(alpha, self);
      ProductNonNeg(1.0 - alpha, mean);
      ProductNonNeg(p, x);
      ProductNonNeg(q, y);
      ProductNonNeg(1.0 - p, x);
      ProductNonNeg(1.0 - q, y);
      ProductNonNeg(alpha, top - self);
      ProductNonNeg(1.0 - alpha, top - mean);
      assert p * alpha * self == p * x;
      assert q * (1.0 - alpha) * mean == q * y;
      assert alpha * top + (1.0 - alpha) * top == top;
    }
  }

  lemma ProductNonNeg(a: real, b: real)
    requires a >= 0.0 && b >= 0.0
    ensures a * b >= 0.0
  {
  }

  /** The weights of each kind make a smoothed height a weighted mean that stays in
      [0, peak] when the point and its neighbours do. */
  lemma SmoothCellBounded(k: CellKind, alpha: real, self: real, sum: real, peak: real)
    requires 0.0 <= alpha <= 1.0 && 0.0 <= self <= peak
    requires 0.0 <= sum <= NeighbourCount(k) * peak
    ensures 0.0 <= SmoothCell(k, alpha, self, sum) <= peak
  {
    assert sum / NeighbourCount(k) <= peak;
  }

  /** A neighbour's height, or 0 when it lies outside the grid. */
  function Nb(g: Grid, n: nat, inside: bool, h: int, w: int): real
    requires IsGrid(g, n)
    requires inside ==> 0 <= h < n && 0 <= w < n
  {
    if inside then g[h][w] else 0.0
  }

  /** The sum of the eight neighbours of (h, w) as the in-place row-major sweep sees
      them: the neighbours already visited (the row above and the left one) are read
      from the grid being written, `g`, the others from the grid before smoothing, `g0`. */
  function NeighbourSum(g0: Grid, g: Grid, n: nat, h: nat, w: nat): real
    requires IsGrid(g0, n) && IsGrid(g, n) && h < n && w < n
  {
    Nb(g0, n, w < n - 1, h, w + 1) + Nb(g, n, w > 0, h, w - 1)
    + Nb(g, n, h > 0 && w < n - 1, h - 1, w + 1) + Nb(g0, n, h < n - 1 && w > 0, h + 1, w - 1)
    + Nb(g, n, h > 0, h - 1, w) + Nb(g0, n, h < n - 1, h + 1, w)
    + Nb(g, n, h > 0 && w > 0, h - 1, w - 1) + Nb(g0, n, h < n - 1 && w < n - 1, h + 1, w + 1)
  }

  /** The neighbour sum of a point with bounded neighbours is bounded by the number of
      neighbours its kind has. */
  lemma NeighbourSumBounded(g0: Grid, g: Grid, n: nat, h: nat, w: nat, peak: real)
    requires n >= 2 && IsGrid(g0, n) && IsGrid(g, n) && h < n && w < n
    requires Bounded(g0, n, peak) && Bounded(g, n, peak)
    ensures 0.0 <= NeighbourSum(g0, g, n, h, w) <= NeighbourCount(Classify(h, w, n)) * peak
  {
    assert 0.0 <= g0[h][w] <= peak;
  }

  /** The smoothed height of a point of a bounded grid is bounded. */
  lemma SmoothedPointBounded(g0: Grid, g: Grid, alpha: real, n: nat, h: nat, w: nat, peak: real)
    requires n >= 2 && IsGrid(g0, n) && IsGrid(g, n) && h < n && w < n && 0.0 <= alpha <= 1.0
    requires Bounded(g0, n, peak) && Bounded(g, n, peak)
    ensures 0.0 <= SmoothCell(Classify(h, w, n), alpha, g0[h][w], NeighbourSum(g0, g, n, h, w)) <= peak
  {
    NeighbourSumBounded(g0, g, n, h, w, peak);
    SmoothCellBounded(Classify(h, w, n), alpha, g0[h][w], NeighbourSum(g0, g, n, h, w), peak);
  }

  /** (i, j) comes before (h, w) in row-major order. */
  predicate Earlier(i: nat, j: nat, h: nat, w: nat)
  {
    i < h || (i == h && j < w)
  }

  /** The neighbour sum of (h, w) reads `g` only at points before (h, w). */
  lemma NeighbourSumFrame(g0: Grid, g: Grid, g': Grid, n: nat, h: nat, w: nat)
    requires IsGrid(g0, n) && IsGrid(g, n) && IsGrid(g', n) && h < n && w < n
    requires forall i, j :: 0 <= i < n && 0 <= j < n && Earlier(i, j, h, w) ==> g[i][j] == g'[i][j]
    ensures NeighbourSum(g0, g, n, h, w) == NeighbourSum(g0, g', n, h, w)
  {
  }

  /** `g` is the grid once the sweep has reached (h, w): every earlier point holds its
      smoothed height, every later point still holds its height in `g0`. */
  ghost predicate SmoothedUpTo(g0: Grid, g: Grid, alpha: real, n: nat, h: nat, w: nat)
    requires IsGrid(g0, n) && IsGrid(g, n)
  {
    forall i, j :: 0 <= i < n && 0 <= j < n ==> SmoothedPoint(g0, g, alpha, n, h, w, i, j)
  }

  /** Point (i, j) of `g` as the sweep leaves it once it has reached (h, w). */
  ghost predicate SmoothedPoint(g0: Grid, g: Grid, alpha: real, n: nat, h: nat, w: nat, i: nat, j: nat)
    requires IsGrid(g0, n) && IsGrid(g, n) && i < n && j < n
  {
    g[i][j] == (if Earlier(i, j, h, w)
                then SmoothCell(Classify(i, j, n), alpha, g0[i][j], NeighbourSum(g0, g, n, i, j))
                else g0[i][j])
  }

  /** `g1` is `g0` after a whole in-place smoothing sweep with factor `alpha`. */
  ghost predicate Smoothed(g0: Grid, g1: Grid, alpha: real, n: nat)
  {
    IsGrid(g0, n) && IsGrid(g1, n) && SmoothedUpTo(g0, g1, alpha, n, n, 0)
  }

  /** The points the sweep has not reached yet still hold their original heights. */
  lemma LaterUnchanged(g0: Grid, g: Grid, alpha: real, n: nat, h: nat, w: nat)
    requires IsGrid(g0, n) && IsGrid(g, n) && SmoothedUpTo(g0, g, alpha, n, h, w)
    ensures forall i, j :: 0 <= i < n && 0 <= j < n && !Earlier(i, j, h, w) ==> g[i][j] == g0[i][j]
  {
    forall i: nat, j: nat | i < n && j < n && !Earlier(i, j, h, w)
      ensures g[i][j] == g0[i][j]
    {
      assert SmoothedPoint(g0, g, alpha, n, h, w, i, j);
    }
  }

  /** Writing the smoothed height of (h, w) moves the sweep on by one point. */
  lemma {:induction false} SmoothStep(g0: Grid, g: Grid, alpha: real, n: nat, h: nat, w: nat, v: real)
    requires IsGrid(g0, n) && IsGrid(g, n) && h < n && w < n
    requires SmoothedUpTo(g0, g, alpha, n, h, w)
    requires v == SmoothCell(Classify(h, w, n), alpha, g0[h][w], NeighbourSum(g0, g, n, h, w))
    ensures IsGrid(g[h := g[h][w := v]], n)
    ensures SmoothedUpTo(g0, g[h := g[h][w := v]], alpha, n, h, w + 1)
  {
    var g' := g[h := g[h][w := v]];
    assert IsGrid(g', n);
    var w' := w + 1;
    forall i: nat, j: nat | i < n && j < n
      ensures SmoothedPoint(g0, g', alpha, n, h, w', i, j)
    {
      assert SmoothedPoint(g0, g, alpha, n, h, w, i, j);
      if Earlier(i, j, h, w + 1) {
        NeighbourSumFrame(g0, g, g', n, i, j);
      }
      if i != h || j != w {
        assert g'[i][j] == g[i][j];
      }
    }
  }

  /** The sweep reaching the end of row h is the sweep reaching the start of row h + 1. */
  lemma NextRow(g0: Grid, g: Grid, alpha: real, n: nat, h: nat)
    requires IsGrid(g0, n) && IsGrid(g, n)
    requires SmoothedUpTo(g0, g, alpha, n, h, n)
    ensures SmoothedUpTo(g0, g, alpha, n, h + 1, 0)
  {
    var h' := h + 1;
    forall i: nat, j: nat | i < n && j < n
      ensures SmoothedPoint(g0, g, alpha, n, h', 0, i, j)
    {
      assert SmoothedPoint(g0, g, alpha, n, h, n, i, j);
      assert Earlier(i, j, h, n) <==> Earlier(i, j, h + 1, 0);
    }
  }

  // ---------------------------------------------------------------------------
  // Buffers

  /** The coordinate reached from 0 by k steps of `cs`, accumulated as the loops of
      `computeBufferObjects` accumulate it. */
  function Offset(k: nat, cs: real): real
  {
    if k == 0 then 0.0 else Offset(k - 1, cs) + cs
  }

  /** The accumulated coordinate is k cell sizes. */
  lemma {:induction false} OffsetIsProduct(k: nat, cs: real)
    ensures Offset(k, cs) == k as real * cs
  {
    if k > 0 {
      OffsetIsProduct(k - 1, cs);
      assert (k - 1) as real * cs + cs == k as real * cs;
    }
  }

  /** One row of vertex positions: x and z step by the cell size, y is the height. */
  function RowVertices(g: Grid, n: nat, h: nat, cs: real): seq<Vec3>
    requires IsGrid(g, n) && h < n
  {
    seq(n, w requires 0 <= w < n => Vec3(Offset(w, cs), g[h][w], Offset(h, cs)))
  }

  /** The vertex buffer of the first `rows` rows, in row-major order. */
  function GridVertices(g: Grid, n: nat, rows: nat, cs: real): (r: seq<Vec3>)
    requires IsGrid(g, n) && rows <= n
    ensures |r| == RowStart(rows, n)
  {
    if rows == 0 then [] else GridVertices(g, n, rows - 1, cs) + RowVertices(g, n, rows - 1, cs)
  }

  /** The vertex of grid point (h, w) sits at x = w cells, z = h cells, at its height. */
  lemma {:induction false} GridVerticesAt(g: Grid, n: nat, rows: nat, cs: real, h: nat, w: nat)
    requires IsGrid(g, n) && h < rows <= n && w < n
    ensures GridVertices(g, n, rows, cs)[Cell(h, w, rows, n)] == Vec3(Offset(w, cs), g[h][w], Offset(h, cs))
  {
    if h < rows - 1 {
      GridVerticesAt(g, n, rows - 1, cs, h, w);
    }
  }

  /** The texture coordinate of grid point (h, w): its x and z divided by the size. */
  function UV(h: nat, w: nat, cs: real, size: real): (real, real)
    requires size != 0.0
  {
    (Offset(w, cs) / size, Offset(h, cs) / size)
  }

  function RowUVs(n: nat, h: nat, cs: real, size: real): seq<(real, real)>
    requires size != 0.0
  {
    seq(n, w requires 0 <= w < n => UV(h, w, cs, size))
  }

  /** The texture coordinates of the first `rows` rows, in row-major order. */
  function GridUVs(n: nat, rows: nat, cs: real, size: real): (r: seq<(real, real)>)
    requires size != 0.0
    ensures |r| == RowStart(rows, n)
  {
    if rows == 0 then [] else GridUVs(n, rows - 1, cs, size) + RowUVs(n, rows - 1, cs, size)
  }

  /** The texture coordinate of grid point (h, w) is that point's. */
  lemma {:induction false} GridUVsAt(n: nat, rows: nat, cs: real, size: real, h: nat, w: nat)
    requires size != 0.0 && h < rows && w < n
    ensures GridUVs(n, rows, cs, size)[Cell(h, w, rows, n)] == UV(h, w, cs, size)
  {
    if h < rows - 1 {
      GridUVsAt(n, rows - 1, cs, size, h, w);
    }
  }

  function RowNormals(n: nat, h: nat, normalAt: (nat, nat) -> Vec3): seq<Vec3>
  {
    seq(n, w requires 0 <= w < n => normalAt(h, w))
  }

  /** The normal buffer: the normal computed for each grid point, in row-major order. */
  function GridNormals(n: nat, rows: nat, normalAt: (nat, nat) -> Vec3): (r: seq<Vec3>)
    ensures |r| == RowStart(rows, n)
  {
    if rows == 0 then [] else GridNormals(n, rows - 1, normalAt) + RowNormals(n, rows - 1, normalAt)
  }

  /** The normal of grid point (h, w) is the one computed for it. */
  lemma {:induction false} GridNormalsAt(n: nat, rows: nat, normalAt: (nat, nat) -> Vec3, h: nat, w: nat)
    requires h < rows && w < n
    ensures GridNormals(n, rows, normalAt)[Cell(h, w, rows, n)] == normalAt(h, w)
  {
    if h < rows - 1 {
      GridNormalsAt(n, rows - 1, normalAt, h, w);
    }
  }

  /** The two triangles of the cell whose bottom-left vertex is `bl`:
      (bottom-left, bottom-right, top-right) and (bottom-left, top-right, top-left). */
  function Quad(bl: nat, n: nat): seq<nat>
  {
    [bl, bl + 1, bl + n + 1, bl, bl + n + 1, bl + n]
  }

  /** Entry `t` of the triangle pair of quad number `k`. */
  function Slot(k: nat, t: nat): nat
    requires t < 6
  {
    6 * k + t
  }

  /** The triangle pairs of the first `count` cells of row h, six indices per cell. */
  function RowQuads(n: nat, h: nat, count: nat): (r: seq<nat>)
    ensures |r| == 6 * count
  {
    seq(6 * count, i requires 0 <= i < 6 * count => Quad(RowStart(h, n) + i / 6, n)[i % 6])
  }

  /** Quad number k of a row is the triangle pair of cell k of that row. */
  lemma RowQuadsAt(n: nat, h: nat, count: nat, k: nat, t: nat)
    requires k < count && t < 6
    ensures RowQuads(n, h, count)[Slot(k, t)] == Quad(RowStart(h, n) + k, n)[t]
  {
    assert Slot(k, t) / 6 == k && Slot(k, t) % 6 == t;
  }

  /** The cells of a row are emitted one after another. */
  lemma RowQuadsSnoc(n: nat, h: nat, count: nat)
    ensures RowQuads(n, h, count + 1) == RowQuads(n, h, count) + Quad(RowStart(h, n) + count, n)
  {
    var a, b := RowQuads(n, h, count + 1), RowQuads(n, h, count) + Quad(RowStart(h, n) + count, n);
    forall i | 0 <= i < |a|
      ensures a[i] == b[i]
    {
      if i < 6 * count {
        assert i / 6 < count;
      } else {
        assert i / 6 == count && i % 6 == i - 6 * count;
      }
    }
  }

  /** The quads of a row of cells name points of that row and the row above it. */
  lemma RowQuadsBounded(n: nat, h: nat, count: nat)
    requires count < n
    ensures forall i :: 0 <= i < |RowQuads(n, h, count)| ==> RowQuads(n, h, count)[i] < RowStart(h, n) + 2 * n
  {
    forall i | 0 <= i < |RowQuads(n, h, count)|
      ensures RowQuads(n, h, count)[i] < RowStart(h, n) + 2 * n
    {
      assert i / 6 < count;
    }
  }

  /** The index buffer of the first `rows` rows of cells of a grid `m` cells (so
      m + 1 points) wide; every index names a point of the first rows + 1 rows. */
  function GridIndices(m: nat, rows: nat): (r: seq<nat>)
    requires rows <= m
    ensures |r| == 6 * RowStart(rows, m)
  {
    if rows == 0 then [] else GridIndices(m, rows - 1) + RowQuads(m + 1, rows - 1, m)
  }

  /** Every index of the first `rows` rows of cells names a point of the first
      rows + 1 rows of the grid. */
  lemma {:induction false} GridIndicesBounded(m: nat, rows: nat)
    requires rows <= m
    ensures forall i :: 0 <= i < |GridIndices(m, rows)| ==> GridIndices(m, rows)[i] < RowStart(rows, m + 1) + m + 1
  {
    if rows > 0 {
      GridIndicesBounded(m, rows - 1);
      RowQuadsBounded(m + 1, rows - 1, m);
      assert RowStart(rows, m + 1) == RowStart(rows - 1, m + 1) + m + 1;
    }
  }

  /** Entry t of the triangle pair of cell (h, w) in the index buffer. */
  lemma GridIndicesAt(m: nat, rows: nat, h: nat, w: nat, t: nat)
    requires h < rows <= m && w < m && t < 6
    ensures Slot(RowStart(h, m) + w, t) < |GridIndices(m, rows)|
    ensures GridIndices(m, rows)[Slot(RowStart(h, m) + w, t)] == Quad(RowStart(h, m + 1) + w, m + 1)[t]
  {
    GridIndicesEntry(m, rows, h, w, t, Slot(RowStart(h, m) + w, t), Quad(RowStart(h, m + 1) + w, m + 1)[t]);
  }

  lemma {:induction false} GridIndicesEntry(m: nat, rows: nat, h: nat, w: nat, t: nat, j: nat, q: nat)
    requires h < rows <= m && w < m && t < 6
    requires j == Slot(RowStart(h, m) + w, t) && q == Quad(RowStart(h, m + 1) + w, m + 1)[t]
    ensures j < |GridIndices(m, rows)| && GridIndices(m, rows)[j] == q
  {
    if h < rows - 1 {
      GridIndicesEntry(m, rows - 1, h, w, t, j, q);
      GridIndicesPrefix(m, rows - 1, rows, j);
    } else {
      RowQuadsAt(m + 1, h, m, w, t);
      GridIndicesLastRow(m, rows, Slot(w, t), j, q);
    }
  }

  /** Adding rows of cells leaves the indices of the earlier rows in place. */
  lemma {:induction false} GridIndicesPrefix(m: nat, r1: nat, r2: nat, j: nat)
    requires r1 <= r2 <= m && j < |GridIndices(m, r1)|
    ensures j < |GridIndices(m, r2)| && GridIndices(m, r2)[j] == GridIndices(m, r1)[j]
  {
    if r1 < r2 {
      if r1 < r2 - 1 {
        GridIndicesPrefix(m, r1, r2 - 1, j);
      }
      var prev := GridIndices(m, r2 - 1);
      var row := RowQuads(m + 1, r2 - 1, m);
      assert GridIndices(m, r2) == prev + row;
      assert (prev + row)[j] == prev[j];
    }
  }

  lemma GridIndicesLastRow(m: nat, rows: nat, i: nat, j: nat, q: nat)
    requires 0 < rows <= m && i < 6 * m && j == 6 * RowStart(rows - 1, m) + i
    requires RowQuads(m + 1, rows - 1, m)[i] == q
    ensures GridIndices(m, rows)[j] == q
  {
    var prev := GridIndices(m, rows - 1);
    var row := RowQuads(m + 1, rows - 1, m);
    assert GridIndices(m, rows) == prev + row;
    assert (prev + row)[|prev| + i] == row[i];
  }

  /** The buffers hold one vertex, uv and normal per grid point and six indices per
      cell, and every index names a vertex. */
  lemma {:induction false} BufferSizes(g: Grid, m: nat, cs: real, size: real, normalAt: (nat, nat) -> Vec3)
    requires IsGrid(g, m + 1) && size != 0.0
    ensures |GridVertices(g, m + 1, m + 1, cs)| == (m + 1) * (m + 1)
    ensures |GridUVs(m + 1, m + 1, cs, size)| == (m + 1) * (m + 1)
    ensures |GridNormals(m + 1, m + 1, normalAt)| == (m + 1) * (m + 1)
    ensures |GridIndices(m, m)| == 6 * (m * m)
    ensures forall i :: 0 <= i < |GridIndices(m, m)| ==> GridIndices(m, m)[i] < (m + 1) * (m + 1)
  {
    var n := m + 1;
    RowStartIsProduct(n, n);
    RowStartIsProduct(m, m);
    assert RowStart(n, n) == RowStart(m, n) + n;
    assert |GridIndices(m, m)| == 6 * RowStart(m, m);
    GridIndicesBounded(m, m);
  }

  /** The triangles of cell (h, w) join its four corner vertices: bottom-left (h, w),
      bottom-right (h, w + 1), top-right (h + 1, w + 1) and top-left (h + 1, w). */
  lemma {:induction false} QuadCorners(n: nat, h: nat, w: nat)
    requires h < n - 1 && w < n - 1
    ensures var q := Quad(RowStart(h, n) + w, n);
      q[0] == Cell(h, w, n, n) && q[1] == Cell(h, w + 1, n, n) && q[2] == Cell(h + 1, w + 1, n, n)
      && q[3] == q[0] && q[4] == q[2] && q[5] == Cell(h + 1, w, n, n)
  {
    assert RowStart(h + 1, n) == RowStart(h, n) + n;
  }

  /** Appending row `h` to the first `h` rows of a buffer gives the first `h + 1`. */
  lemma VerticesStep(a: seq<Vec3>, g: Grid, n: nat, h: nat, cs: real)
    requires IsGrid(g, n) && h < n
    ensures (a + GridVertices(g, n, h, cs)) + RowVertices(g, n, h, cs) == a + GridVertices(g, n, h + 1, cs)
  {
    assert (a + GridVertices(g, n, h, cs)) + RowVertices(g, n, h, cs) == a + (GridVertices(g, n, h, cs) + RowVertices(g, n, h, cs));
  }

  lemma UVsStep(a: seq<(real, real)>, n: nat, h: nat, cs: real, size: real)
    requires size != 0.0
    ensures (a + GridUVs(n, h, cs, size)) + RowUVs(n, h, cs, size) == a + GridUVs(n, h + 1, cs, size)
  {
    assert (a + GridUVs(n, h, cs, size)) + RowUVs(n, h, cs, size) == a + (GridUVs(n, h, cs, size) + RowUVs(n, h, cs, size));
  }

  lemma NormalsStep(a: seq<Vec3>, n: nat, h: nat, normalAt: (nat, nat) -> Vec3)
    ensures (a + GridNormals(n, h, normalAt)) + RowNormals(n, h, normalAt) == a + GridNormals(n, h + 1, normalAt)
  {
    assert (a + GridNormals(n, h, normalAt)) + RowNormals(n, h, normalAt) == a + (GridNormals(n, h, normalAt) + RowNormals(n, h, normalAt));
  }

  /** The index buffer gains the quads of row `h` only while a row lies below it. */
  lemma IndicesStep(a: seq<nat>, m: nat, h: nat)
    requires h <= m
    ensures (a + GridIndices(m, h)) + RowQuads(m + 1, h, if h < m then m else 0)
         == a + GridIndices(m, if h + 1 < m + 1 then h + 1 else m)
  {
    if h < m {
      assert GridIndices(m, h + 1) == GridIndices(m, h) + RowQuads(m + 1, h, m);
      assert (a + GridIndices(m, h)) + RowQuads(m + 1, h, m) == a + (GridIndices(m, h) + RowQuads(m + 1, h, m));
    } else {
      assert RowQuads(m + 1, h, 0) == [];
    }
  }

  lemma EmptyAppend<T>(s: seq<T>)
    ensures [] + s == s
  {
  }

  lemma PrefixSnoc<T>(s: seq<T>, w: nat)
    requires w < |s|
    ensures s[..w + 1] == s[..w] + [s[w]]
  {
  }

  // ---------------------------------------------------------------------------
  // Altitude

  /** The height at (x, z) of the plane through three vertices (`genAltitudeCoord`): it
      passes through each of the three. */
  function PlaneAltitude(v1: Vec3, v2: Vec3, v3: Vec3, x: real, z: real): (y: real)
    requires v2.Minus(v1).Cross(v3.Minus(v1)).y != 0.0
    ensures x == v1.x && z == v1.z ==> y == v1.y
    ensures x == v2.x && z == v2.z ==> y == v2.y
    ensures x == v3.x && z == v3.z ==> y == v3.y
  {
    var a, b := v2.Minus(v1), v3.Minus(v1);
    var c := a.Cross(b);
    assert c.Dot(a) == 0.0;
    assert c.Dot(b) == 0.0;
    PlaneAt(c, v1, v1);
    PlaneAt(c, v1, v2);
    PlaneAt(c, v1, v3);
    var product := -c.Dot(v1);
    -(c.x * x + c.z * z + product) / c.y
  }

  lemma PlaneAt(c: Vec3, v1: Vec3, p: Vec3)
    requires c.y != 0.0 && c.Dot(p.Minus(v1)) == 0.0
    ensures -(c.x * p.x + c.z * p.z + -c.Dot(v1)) / c.y == p.y
  {
    assert c.x * p.x + c.z * p.z - c.Dot(v1) == -(c.y * p.y);
  }

  /** C's truncation of a floating-point value toward zero. */
  function Trunc(q: real): (t: int)
    ensures q >= 0.0 ==> t == q.Floor
  {
    if q >= 0.0 then q.Floor else -((-q).Floor)
  }

  /** C's `fmod`: the remainder of a truncating division, with the sign of `a`. Divided
      by `b` it is the part of a / b that truncation drops; for non-negative `a` and
      positive `b` that is a fraction in [0, 1). */
  function FMod(a: real, b: real): (r: real)
    requires b != 0.0
    ensures r / b == a / b - Trunc(a / b) as real
    ensures b > 0.0 && a >= 0.0 ==> 0.0 <= r / b < 1.0
  {
    var t := Trunc(a / b) as real;
    DivRemainder(a, b, t);
    a - b * t
  }

  /** Taking `t` whole times `b` off `a` takes `t` off the quotient, and the quotient of a
      non-negative by a positive value is non-negative. */
  lemma DivRemainder(a: real, b: real, t: real)
    requires b != 0.0
    ensures (a - b * t) / b == a / b - t
    ensures b > 0.0 && a >= 0.0 ==> a / b >= 0.0
  {
    assert (a / b - t) * b == a - b * t;
    assert (a / b) * b == a;
  }

  /** A whole number of cells from the origin sits on a grid line: it truncates to
      that number and leaves no remainder. */
  lemma OnGridLine(w: nat, cs: real)
    requires cs > 0.0
    ensures TruncToNat((w as real * cs) / cs) == w && FMod(w as real * cs, cs) / cs == 0.0
  {
    assert (w as real * cs) / cs == w as real;
  }

  /** A non-negative z lies below n cells of size cs exactly when z / cs is below n. */
  lemma DivBelow(z: real, cs: real, n: real)
    requires cs > 0.0 && z >= 0.0
    ensures z / cs < n <==> z < cs * n
  {
    assert (z / cs) * cs == z;
    if z / cs < n {
      assert (n - z / cs) * cs > 0.0;
    }
    if z < cs * n {
      assert (n - z / cs) * cs > 0.0;
    }
  }

  /** The altitude inside one cell, at offsets (xc, zc) in [0, 1) from its corner
      (h00 at the corner, h01 one step in x, h10 one step in z, h11 diagonally): the
      barycentric mix of the corners of the triangle (xc, zc) lies in, and h00 at the
      corner itself. */
  function CellAltitude(h00: real, h01: real, h10: real, h11: real, xc: real, zc: real): (a: real)
    ensures xc < zc ==> a == h00 * (1.0 - zc) + h10 * (zc - xc) + h11 * xc
    ensures zc <= xc ==> a == h00 * (1.0 - xc) + h01 * (xc - zc) + h11 * zc
    ensures xc == 0.0 && zc == 0.0 ==> a == h00
  {
    if xc < zc then
      LowerTriangle(h00, h10, h11, xc, zc);
      PlaneAltitude(Vec3(0.0, h00, 0.0), Vec3(1.0, h11, 1.0), Vec3(0.0, h10, 1.0), xc, zc)
    else
      UpperTriangle(h00, h01, h11, xc, zc);
      PlaneAltitude(Vec3(0.0, h00, 0.0), Vec3(1.0, h01, 0.0), Vec3(1.0, h11, 1.0), xc, zc)
  }

  /** The lower-left triangle of a cell (x < z) interpolates between its corners. */
  lemma LowerTriangle(h00: real, h10: real, h11: real, x: real, z: real)
    ensures PlaneAltitude(Vec3(0.0, h00, 0.0), Vec3(1.0, h11, 1.0), Vec3(0.0, h10, 1.0), x, z)
      == h00 * (1.0 - z) + h10 * (z - x) + h11 * x
  {
  }

  /** The upper-right triangle of a cell (z <= x) interpolates between its corners. */
  lemma UpperTriangle(h00: real, h01: real, h11: real, x: real, z: real)
    ensures PlaneAltitude(Vec3(0.0, h00, 0.0), Vec3(1.0, h01, 0.0), Vec3(1.0, h11, 1.0), x, z)
      == h00 * (1.0 - x) + h01 * (x - z) + h11 * z
  {
  }

  lemma ScaleBounded(a: real, wa: real, peak: real)
    requires 0.0 <= a <= peak && wa >= 0.0
    ensures 0.0 <= a * wa <= peak * wa
  {
    assert (peak - a) * wa >= 0.0;
  }

  lemma SumOfThree(x1: real, y1: real, x2: real, y2: real, x3: real, y3: real)
    requires 0.0 <= x1 <= y1 && 0.0 <= x2 <= y2 && 0.0 <= x3 <= y3
    ensures 0.0 <= x1 + x2 + x3 <= y1 + y2 + y3
  {
  }

  /** A weighted mean of heights in [0, peak] with non-negative weights lies in [0, peak]. */
  lemma MeanBounded(a: real, b: real, c: real, wa: real, wb: real, wc: real, peak: real)
    requires 0.0 <= a <= peak && 0.0 <= b <= peak && 0.0 <= c <= peak
    requires wa >= 0.0 && wb >= 0.0 && wc >= 0.0 && wa + wb + wc == 1.0
    ensures 0.0 <= a * wa + b * wb + c * wc <= peak
  {
    ScaleBounded(a, wa, peak);
    ScaleBounded(b, wb, peak);
    ScaleBounded(c, wc, peak);
    SumOfThree(a * wa, peak * wa, b * wb, peak * wb, c * wc, peak * wc);
    assert peak * wa + peak * wb + peak * wc == peak * (wa + wb + wc);
    assert peak * (wa + wb + wc) == peak;
  }

  /** The altitude inside a cell is a weighted mean of three corner heights, so it
      stays within the bounds the corners keep; at the corner it is h00. */
  lemma CellAltitudeBounded(h00: real, h01: real, h10: real, h11: real, xc: real, zc: real, peak: real)
    requires 0.0 <= xc < 1.0 && 0.0 <= zc < 1.0
    requires 0.0 <= h00 <= peak && 0.0 <= h01 <= peak && 0.0 <= h10 <= peak && 0.0 <= h11 <= peak
    ensures 0.0 <= CellAltitude(h00, h01, h10, h11, xc, zc) <= peak
  {
    if xc < zc {
      LowerBounded(h00, h01, h10, h11, xc, zc, peak);
    } else {
      UpperBounded(h00, h01, h10, h11, xc, zc, peak);
    }
  }

  lemma LowerBounded(h00: real, h01: real, h10: real, h11: real, x: real, z: real, peak: real)
    requires 0.0 <= x < z < 1.0
    requires 0.0 <= h00 <= peak && 0.0 <= h10 <= peak && 0.0 <= h11 <= peak
    ensures 0.0 <= CellAltitude(h00, h01, h10, h11, x, z) <= peak
  {
    LowerTriangle(h00, h10, h11, x, z);
    MeanBounded(h00, h10, h11, 1.0 - z, z - x, x, peak);
  }

  lemma UpperBounded(h00: real, h01: real, h10: real, h11: real, x: real, z: real, peak: real)
    requires 0.0 <= z <= x < 1.0
    requires 0.0 <= h00 <= peak && 0.0 <= h01 <= peak && 0.0 <= h11 <= peak
    ensures 0.0 <= CellAltitude(h00, h01, h10, h11, x, z) <= peak
  {
    UpperTriangle(h00, h01, h11, x, z);
    MeanBounded(h00, h01, h11, 1.0 - x, x - z, z, peak);
  }


  /** The terrain object: its settings, the height grid and the buffers built from it. */
  class Terrain {
    /** Number of grid points along each edge. */
    const cells: nat
    /** Length of an edge of the square. */
    const size: real
    /** The height of a white pixel. */
    const peak: real
    const heights: array2<real>
    var vertices: seq<Vec3>
    var texCoords: seq<(real, real)>
    var normals: seq<Vec3>
    var indices: seq<nat>

    ghost predicate Valid()
    {
      cells >= 2 && heights.Length0 == cells && heights.Length1 == cells
    }

    /** The heights as a grid of values. */
    ghost function Heights(): (g: Grid)
      reads heights
      requires Valid()
      ensures IsGrid(g, cells)
      ensures forall h, w :: 0 <= h < cells && 0 <= w < cells ==> g[h][w] == heights[h, w]
    {
      seq(cells, h requires 0 <= h < cells reads heights =>
        seq(cells, w requires 0 <= w < cells reads heights => heights[h, w]))
    }

    /** The distance between neighbouring grid points. */
    function CellSize(): real
      requires Valid()
    {
      size / (cells as real - 1.0)
    }

    /** `Terrain(heightMapPath, size, peak)`: `data` is the pixel data of the image
        at `heightMapPath`, `normalAt(h, w)` the normal computed at grid point (h, w). */
    constructor (data: seq<byte>, normalAt: (nat, nat) -> Vec3, size: real, peak: real)
      requires size != 0.0
      requires 3 * (256 * 256 - 1) < |data|
      ensures Valid() && cells == 256 && this.size == size && this.peak == peak && fresh(heights)
      ensures Smoothed(FromImage(data, cells, peak), Heights(), SmoothFactor, cells)
      ensures 0.0 <= peak ==> Bounded(Heights(), cells, peak)
      ensures vertices == GridVertices(Heights(), cells, cells, CellSize())
      ensures texCoords == GridUVs(cells, cells, CellSize(), size)
      ensures normals == GridNormals(cells, cells, normalAt)
      ensures indices == GridIndices(cells - 1, cells - 1)
    {
      cells := 256;
      this.size := size;
      this.peak := peak;
      heights := new real[256, 256];
      vertices, texCoords, normals, indices := [], [], [], [];
      new;
      Load(data, normalAt);
    }

    /** The body of the constructor once the fields exist: the heights from the
        image, the smoothing sweep, then the buffers built from empty. */
    method Load(data: seq<byte>, normalAt: (nat, nat) -> Vec3)
      requires Valid() && size != 0.0 && 3 * (cells * cells - 1) < |data|
      requires vertices == [] && texCoords == [] && normals == [] && indices == []
      modifies heights, this`vertices, this`texCoords, this`normals, this`indices
      ensures Smoothed(FromImage(data, cells, peak), Heights(), SmoothFactor, cells)
      ensures 0.0 <= peak ==> Bounded(Heights(), cells, peak)
      ensures vertices == GridVertices(Heights(), cells, cells, CellSize())
      ensures texCoords == GridUVs(cells, cells, CellSize(), size)
      ensures normals == GridNormals(cells, cells, normalAt)
      ensures indices == GridIndices(cells - 1, cells - 1)
    {
      ReadHeightMapData(data);
      ghost var smoothed := Heights();
      ComputeBufferObjects(normalAt);
      assert Heights() == smoothed;
      EmptyAppend(GridVertices(Heights(), cells, cells, CellSize()));
      EmptyAppend(GridUVs(cells, cells, CellSize(), size));
      EmptyAppend(GridNormals(cells, cells, normalAt));
      EmptyAppend(GridIndices(cells - 1, cells - 1));
    }

    /** `readHeightMapData`: the heights of the image's pixels, then one smoothing sweep. */
    method ReadHeightMapData(data: seq<byte>)
      requires Valid() && 3 * (cells * cells - 1) < |data|
      modifies heights
      ensures Smoothed(FromImage(data, cells, peak), Heights(), SmoothFactor, cells)
      ensures 0.0 <= peak ==> Bounded(Heights(), cells, peak)
    {
      FillHeights(data);
      Smoothing(SmoothFactor);
    }

    /** The loop of `readHeightMapData`: each grid point takes the height of the red
        byte of its pixel, at offset 3 (h * cells + w). */
    method FillHeights(data: seq<byte>)
      requires Valid() && 3 * (cells * cells - 1) < |data|
      modifies heights
      ensures Heights() == FromImage(data, cells, peak)
    {
      ghost var img := FromImage(data, cells, peak);
      RowStartIsProduct(cells, cells);
      var h := 0;
      while h < cells
        invariant h <= cells
        invariant forall i, j :: 0 <= i < h && 0 <= j < cells ==> heights[i, j] == img[i][j]
      {
        var w := 0;
        while w < cells
          invariant w <= cells
          invariant forall i, j :: (0 <= i < h && 0 <= j < cells) || (i == h && 0 <= j < w) ==>
            heights[i, j] == img[i][j]
        {
          heights[h, w] := PixelHeight(peak, data[3 * Cell(h, w, cells, cells)]);
          w := w + 1;
        }
        h := h + 1;
      }
      SameGrid(Heights(), img, cells);
    }

    /** `smoothing(alpha)`: one in-place row-major sweep replacing each height by the
        weighted mean of itself and its neighbours for its kind of point. */
    method Smoothing(alpha: real)
      requires Valid()
      modifies heights
      ensures Smoothed(old(Heights()), Heights(), alpha, cells)
      ensures 0.0 <= alpha <= 1.0 && Bounded(old(Heights()), cells, peak) ==> Bounded(Heights(), cells, peak)
    {
      ghost var g0 := Heights();
      ghost var g := g0;
      ghost var bounded := 0.0 <= alpha <= 1.0 && Bounded(g0, cells, peak);
      var h := 0;
      while h < cells
        invariant h <= cells && SweepAt(g0, g, alpha, h, 0, bounded)
      {
        g := SmoothRow(h, alpha, g0, g, bounded);
        h := h + 1;
      }
      assert h == cells;
      SameGrid(Heights(), g, cells);
      assert Smoothed(g0, g, alpha, cells);
    }

    /** The state of the sweep of `smoothing` once it has reached (h, w): the
        array holds `g`, which is `g0` smoothed up to (h, w), and stays in
        [0, peak] when `bounded` says the start did. */
    ghost predicate SweepAt(g0: Grid, g: Grid, alpha: real, h: nat, w: nat, bounded: bool)
      reads heights
      requires Valid()
    {
      IsGrid(g0, cells) && IsGrid(g, cells)
      && (forall i, j :: 0 <= i < cells && 0 <= j < cells ==> heights[i, j] == g[i][j])
      && SmoothedUpTo(g0, g, alpha, cells, h, w)
      && (bounded ==> 0.0 <= alpha <= 1.0 && Bounded(g0, cells, peak) && Bounded(g, cells, peak))
    }

    /** The inner loop of `smoothing`: the sweep along row h. */
    method SmoothRow(h: nat, alpha: real, ghost g0: Grid, ghost g: Grid, ghost bounded: bool)
      returns (ghost g': Grid)
      requires Valid() && h < cells && SweepAt(g0, g, alpha, h, 0, bounded)
      modifies heights
      ensures SweepAt(g0, g', alpha, h + 1, 0, bounded)
    {
      g' := g;
      var w := 0;
      while w < cells
        invariant w <= cells && SweepAt(g0, g', alpha, h, w, bounded)
      {
        g' := SmoothAt(h, w, alpha, g0, g', bounded);
        w := w + 1;
      }
      assert w == cells;
      NextRow(g0, g', alpha, cells, h);
    }

    /** One step of the sweep: the new height of point (h, w). */
    method SmoothAt(h: nat, w: nat, alpha: real, ghost g0: Grid, ghost g: Grid, ghost bounded: bool)
      returns (ghost g': Grid)
      requires Valid() && h < cells && w < cells && SweepAt(g0, g, alpha, h, w, bounded)
      modifies heights
      ensures SweepAt(g0, g', alpha, h, w + 1, bounded)
    {
      var kind := PointKind(h, w);
      LaterUnchanged(g0, g, alpha, cells, h, w);
      var sum := NeighbourTotal(h, w, g0, g);
      assert heights[h, w] == g0[h][w];
      var v := SmoothCell(kind, alpha, heights[h, w], sum);
      if bounded {
        SmoothedPointBounded(g0, g, alpha, cells, h, w, peak);
      }
      heights[h, w] := v;
      SmoothStep(g0, g, alpha, cells, h, w, v);
      g' := g[h := g[h][w := v]];
    }

    /** The border and corner flags of `smoothing` for point (h, w). */
    method PointKind(h: nat, w: nat) returns (kind: CellKind)
      requires Valid() && h < cells && w < cells
      ensures kind == Classify(h, w, cells)
    {
      var borderFlag, vertexFlag := false, false;
      if h == 0 || h == cells - 1 {
        borderFlag := true;
        if w == 0 || w == cells - 1 {
          vertexFlag := true;
          borderFlag := false;
        }
      } else if w == 0 || w == cells - 1 {
        borderFlag := true;
      }
      kind := if vertexFlag then Corner else if borderFlag then Border else Interior;
    }

    /** The sum of the eight neighbours of (h, w) that `smoothing` reads, missing
        neighbours counting 0, at a moment of the sweep when the array holds `g`. */
    method NeighbourTotal(h: nat, w: nat, ghost g0: Grid, ghost g: Grid) returns (sum: real)
      requires Valid() && h < cells && w < cells && IsGrid(g0, cells) && IsGrid(g, cells)
      requires forall i, j :: 0 <= i < cells && 0 <= j < cells ==> heights[i, j] == g[i][j]
      requires forall i, j :: 0 <= i < cells && 0 <= j < cells && !Earlier(i, j, h, w) ==> g[i][j] == g0[i][j]
      ensures sum == NeighbourSum(g0, g, cells, h, w)
    {
      var right := if w < cells - 1 then heights[h, w + 1] else 0.0;
      var toprt := if h > 0 && w < cells - 1 then heights[h - 1, w + 1] else 0.0;
      var top := if h > 0 then heights[h - 1, w] else 0.0;
      var toplt := if h > 0 && w > 0 then heights[h - 1, w - 1] else 0.0;
      var left := if w > 0 then heights[h, w - 1] else 0.0;
      var btmlt := if h < cells - 1 && w > 0 then heights[h + 1, w - 1] else 0.0;
      var btm := if h < cells - 1 then heights[h + 1, w] else 0.0;
      var btmrt := if h < cells - 1 && w < cells - 1 then heights[h + 1, w + 1] else 0.0;
      sum := right + left + toprt + btmlt + top + btm + toplt + btmrt;
    }

    /** `computeBufferObjects`: one vertex, uv and normal per grid point and two
        triangles per cell, all in row-major order. */
    method ComputeBufferObjects(normalAt: (nat, nat) -> Vec3)
      requires Valid() && size != 0.0
      modifies this`vertices, this`texCoords, this`normals, this`indices
      ensures vertices == old(vertices) + GridVertices(Heights(), cells, cells, CellSize())
      ensures texCoords == old(texCoords) + GridUVs(cells, cells, CellSize(), size)
      ensures normals == old(normals) + GridNormals(cells, cells, normalAt)
      ensures indices == old(indices) + GridIndices(cells - 1, cells - 1)
    {
      ghost var g := Heights();
      var cs := size / (cells as real - 1.0);
      var y := 0.0;
      var h := 0;
      while h < cells
        invariant h <= cells && y == Offset(h, cs)
        invariant vertices == old(vertices) + GridVertices(g, cells, h, cs)
        invariant texCoords == old(texCoords) + GridUVs(cells, h, cs, size)
        invariant normals == old(normals) + GridNormals(cells, h, normalAt)
        invariant indices == old(indices) + GridIndices(cells - 1, if h < cells then h else cells - 1)
      {
        PushGridRow(h, y, cs, normalAt, g, old(vertices), old(texCoords), old(normals), old(indices));
        y := y + cs;
        h := h + 1;
      }
    }

    /** The outer loop body of `computeBufferObjects`: after row `h` the buffers hold
        the first `h + 1` rows of the grid. */
    method PushGridRow(h: nat, y: real, cs: real, normalAt: (nat, nat) -> Vec3, ghost g: Grid,
                       ghost v0: seq<Vec3>, ghost t0: seq<(real, real)>, ghost n0: seq<Vec3>, ghost i0: seq<nat>)
      requires Valid() && size != 0.0 && h < cells && y == Offset(h, cs)
      requires IsGrid(g, cells) && forall i, j :: 0 <= i < cells && 0 <= j < cells ==> g[i][j] == heights[i, j]
      requires vertices == v0 + GridVertices(g, cells, h, cs)
      requires texCoords == t0 + GridUVs(cells, h, cs, size)
      requires normals == n0 + GridNormals(cells, h, normalAt)
      requires indices == i0 + GridIndices(cells - 1, h)
      modifies this`vertices, this`texCoords, this`normals, this`indices
      ensures vertices == v0 + GridVertices(g, cells, h + 1, cs)
      ensures texCoords == t0 + GridUVs(cells, h + 1, cs, size)
      ensures normals == n0 + GridNormals(cells, h + 1, normalAt)
      ensures indices == i0 + GridIndices(cells - 1, if h + 1 < cells then h + 1 else cells - 1)
    {
      PushRow(h, y, cs, normalAt, g);
      VerticesStep(v0, g, cells, h, cs);
      UVsStep(t0, cells, h, cs, size);
      NormalsStep(n0, cells, h, normalAt);
      IndicesStep(i0, cells - 1, h);
    }

    /** One pass of the outer loop of `computeBufferObjects`: the vertices, uvs and
        normals of row h, and the triangles of the cells above it. */
    method PushRow(h: nat, y: real, cs: real, normalAt: (nat, nat) -> Vec3, ghost g: Grid)
      requires Valid() && size != 0.0 && h < cells && y == Offset(h, cs)
      requires IsGrid(g, cells) && forall i, j :: 0 <= i < cells && 0 <= j < cells ==> g[i][j] == heights[i, j]
      modifies this`vertices, this`texCoords, this`normals, this`indices
      ensures vertices == old(vertices) + RowVertices(g, cells, h, cs)
      ensures texCoords == old(texCoords) + RowUVs(cells, h, cs, size)
      ensures normals == old(normals) + RowNormals(cells, h, normalAt)
      ensures indices == old(indices) + RowQuads(cells, h, if h < cells - 1 then cells - 1 else 0)
    {
      var x := 0.0;
      var w := 0;
      while w < cells
        invariant w <= cells && x == Offset(w, cs)
        invariant vertices == old(vertices) + RowVertices(g, cells, h, cs)[..w]
        invariant texCoords == old(texCoords) + RowUVs(cells, h, cs, size)[..w]
        invariant normals == old(normals) + RowNormals(cells, h, normalAt)[..w]
        invariant indices == old(indices) + RowQuads(cells, h, if h < cells - 1 then (if w < cells - 1 then w else cells - 1) else 0)
      {
        PushPoint(h, w, x, y, cs, normalAt, g, old(vertices), old(texCoords), old(normals), old(indices));
        x := x + cs;
        w := w + 1;
      }
      assert RowVertices(g, cells, h, cs)[..cells] == RowVertices(g, cells, h, cs);
      assert RowUVs(cells, h, cs, size)[..cells] == RowUVs(cells, h, cs, size);
      assert RowNormals(cells, h, normalAt)[..cells] == RowNormals(cells, h, normalAt);
    }

    /** The inner loop body of `computeBufferObjects`: point (h, w) and, unless it
        is on the last row or column, the two triangles of the cell it is the
        bottom-left corner of. */
    method PushPoint(h: nat, w: nat, x: real, y: real, cs: real, normalAt: (nat, nat) -> Vec3, ghost g: Grid,
                     ghost v0: seq<Vec3>, ghost t0: seq<(real, real)>, ghost n0: seq<Vec3>, ghost i0: seq<nat>)
      requires Valid() && size != 0.0 && h < cells && w < cells && y == Offset(h, cs) && x == Offset(w, cs)
      requires IsGrid(g, cells) && g[h][w] == heights[h, w]
      requires vertices == v0 + RowVertices(g, cells, h, cs)[..w]
      requires texCoords == t0 + RowUVs(cells, h, cs, size)[..w]
      requires normals == n0 + RowNormals(cells, h, normalAt)[..w]
      requires indices == i0 + RowQuads(cells, h, if h < cells - 1 then w else 0)
      modifies this`vertices, this`texCoords, this`normals, this`indices
      ensures vertices == v0 + RowVertices(g, cells, h, cs)[..w + 1]
      ensures texCoords == t0 + RowUVs(cells, h, cs, size)[..w + 1]
      ensures normals == n0 + RowNormals(cells, h, normalAt)[..w + 1]
      ensures indices == i0 + RowQuads(cells, h, if h < cells - 1 then (if w + 1 < cells - 1 then w + 1 else cells - 1) else 0)
    {
      PushVertex(h, w, x, y, cs, g, v0);
      PushUV(h, w, x, y, cs, t0);
      normals := normals + [normalAt(h, w)];
      PrefixSnoc(RowNormals(cells, h, normalAt), w);
      if h < cells - 1 && w < cells - 1 {
        PushQuad(h, w, i0);
      }
    }

    /** The vertex of point (h, w): its offsets along the grid and its height. */
    method PushVertex(h: nat, w: nat, x: real, y: real, cs: real, ghost g: Grid, ghost v0: seq<Vec3>)
      requires Valid() && h < cells && w < cells && y == Offset(h, cs) && x == Offset(w, cs)
      requires IsGrid(g, cells) && g[h][w] == heights[h, w]
      requires vertices == v0 + RowVertices(g, cells, h, cs)[..w]
      modifies this`vertices
      ensures vertices == v0 + RowVertices(g, cells, h, cs)[..w + 1]
    {
      vertices := vertices + [Vec3(x, heights[h, w], y)];
      assert RowVertices(g, cells, h, cs)[w] == Vec3(x, heights[h, w], y);
      PrefixSnoc(RowVertices(g, cells, h, cs), w);
    }

    /** The texture coordinate of point (h, w): its offsets scaled by the terrain size. */
    method PushUV(h: nat, w: nat, x: real, y: real, cs: real, ghost t0: seq<(real, real)>)
      requires Valid() && size != 0.0 && h < cells && w < cells && y == Offset(h, cs) && x == Offset(w, cs)
      requires texCoords == t0 + RowUVs(cells, h, cs, size)[..w]
      modifies this`texCoords
      ensures texCoords == t0 + RowUVs(cells, h, cs, size)[..w + 1]
    {
      texCoords := texCoords + [(x / size, y / size)];
      assert RowUVs(cells, h, cs, size)[w] == (x / size, y / size);
      PrefixSnoc(RowUVs(cells, h, cs, size), w);
    }

    /** The two triangles of cell (h, w), with (h, w) as bottom-left corner. */
    method PushQuad(h: nat, w: nat, ghost i0: seq<nat>)
      requires Valid() && h < cells - 1 && w < cells - 1
      requires indices == i0 + RowQuads(cells, h, w)
      modifies this`indices
      ensures indices == i0 + RowQuads(cells, h, w + 1)
    {
      var bottomLeft: nat := RowStart(h, cells) + w;
      var bottomRight: nat := bottomLeft + 1;
      var topLeft: nat := bottomLeft + cells;
      var topRight: nat := topLeft + 1;
      assert [bottomLeft, bottomRight, topRight, bottomLeft, topRight, topLeft] == Quad(bottomLeft, cells);
      RowQuadsSnoc(cells, h, w);
      indices := indices + [bottomLeft, bottomRight, topRight, bottomLeft, topRight, topLeft];
    }

    /** `getAltitude(x, z)`: the height of the terrain surface above (x, z); a point
        outside the grid is the fatal error `_VECTOR_ILLEGAL_SIZE_`. Inside a cell the
        surface is the plane of the lower-left triangle when the offset in x is below
        the offset in z, and of the upper-right triangle otherwise. */
    function GetAltitude(x: real, z: real): (r: Result<real, nat>)
      reads heights
      requires Valid() && size != 0.0
      requires z / CellSize() > -1.0 && x / CellSize() > -1.0
      ensures r.Err? ==> r.error == IllegalSize
    {
      var cs := CellSize();
      var hgrid := TruncToNat(z / cs);
      var wgrid := TruncToNat(x / cs);
      if hgrid >= cells - 1 || wgrid >= cells - 1 then Err(IllegalSize)
      else
        Ok(CellAltitude(heights[hgrid, wgrid], heights[hgrid, wgrid + 1], heights[hgrid + 1, wgrid],
                        heights[hgrid + 1, wgrid + 1], FMod(x, cs) / cs, FMod(z, cs) / cs))
    }

    lemma CellSizeSpansGrid()
      requires Valid() && size > 0.0
      ensures CellSize() > 0.0 && CellSize() * (cells as real - 1.0) == size
    {
    }

    /** A point with non-negative coordinates has an altitude exactly when it lies
        inside the square [0, size) x [0, size). */
    lemma AltitudeDomain(x: real, z: real)
      requires Valid() && size > 0.0 && x >= 0.0 && z >= 0.0
      ensures GetAltitude(x, z).Ok? <==> x < size && z < size
    {
      var cs := CellSize();
      CellSizeSpansGrid();
      DivBelow(z, cs, cells as real - 1.0);
      DivBelow(x, cs, cells as real - 1.0);
      assert z / cs >= 0.0 && x / cs >= 0.0;
    }

    /** At a grid point the altitude is the height stored there. */
    lemma AltitudeAtGridPoint(h: nat, w: nat)
      requires Valid() && size > 0.0 && h < cells - 1 && w < cells - 1
      ensures GetAltitude(w as real * CellSize(), h as real * CellSize()) == Ok(heights[h, w])
    {
      var cs := CellSize();
      CellSizeSpansGrid();
      OnGridLine(w, cs);
      OnGridLine(h, cs);
      var x, z := w as real * cs, h as real * cs;
      var h00, h01, h10, h11 := heights[h, w], heights[h, w + 1], heights[h + 1, w], heights[h + 1, w + 1];
      assert GetAltitude(x, z) == Ok(CellAltitude(h00, h01, h10, h11, FMod(x, cs) / cs, FMod(z, cs) / cs));
      assert GetAltitude(x, z) == Ok(h00);
      assert x == w as real * CellSize() && z == h as real * CellSize();
    }

    lemma AltitudeAtPoint(h: nat, w: nat, x: real, z: real)
      requires Valid() && size > 0.0 && h < cells - 1 && w < cells - 1
      requires x == w as real * CellSize() && z == h as real * CellSize()
      ensures x / CellSize() > -1.0 && z / CellSize() > -1.0 && GetAltitude(x, z) == Ok(heights[h, w])
    {
      AltitudeAtGridPoint(h, w);
    }

    /** The altitude at each vertex of the mesh inside the grid's cells is the
        vertex's own height: sampling the terrain agrees with the mesh drawn. */
    lemma VertexAltitude(h: nat, w: nat)
      requires Valid() && size > 0.0 && h < cells - 1 && w < cells - 1
      ensures var v := GridVertices(Heights(), cells, cells, CellSize())[Cell(h, w, cells, cells)];
        v.x / CellSize() > -1.0 && v.z / CellSize() > -1.0 && GetAltitude(v.x, v.z) == Ok(v.y)
    {
      var cs := CellSize();
      CellSizeSpansGrid();
      GridVerticesAt(Heights(), cells, cells, cs, h, w);
      var v := GridVertices(Heights(), cells, cells, cs)[Cell(h, w, cells, cells)];
      assert v == Vec3(Offset(w, cs), heights[h, w], Offset(h, cs));
      OffsetIsProduct(w, cs);
      OffsetIsProduct(h, cs);
      assert v.x == w as real * cs && v.z == h as real * cs;
      AltitudeAtPoint(h, w, v.x, v.z);
    }

    /** On a terrain whose heights lie in [0, peak], so does every altitude. */
    lemma AltitudeBounded(x: real, z: real)
      requires Valid() && size > 0.0 && x >= 0.0 && z >= 0.0
      requires Bounded(Heights(), cells, peak)
      ensures GetAltitude(x, z).Ok? ==> 0.0 <= GetAltitude(x, z).value <= peak
    {
      var cs := CellSize();
      CellSizeSpansGrid();
      assert z / cs >= 0.0 && x / cs >= 0.0;
      var hg := TruncToNat(z / cs);
      var wg := TruncToNat(x / cs);
      if hg < cells - 1 && wg < cells - 1 {
        CellAltitudeBounded(heights[hg, wg], heights[hg, wg + 1], heights[hg + 1, wg], heights[hg + 1, wg + 1],
                            FMod(x, cs) / cs, FMod(z, cs) / cs, peak);
      }
    }
  }
}
