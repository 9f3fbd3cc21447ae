/** The height-map generators: a string-keyed parameter dictionary, the circle-strike
    and Perlin-noise generator settings read from it, the index arithmetic of the
    smooth-noise pass, and the row-major layout of the saved grayscale image. */
module HeightMapGen {
  import opened Common

  datatype Algorithm = NoneAlgorithm | PerlinNoiseAlgorithm | CircleStrikeAlgorithm

  /** What a dictionary entry's untyped pointer points to, tagged with the type it was
      stored with. */
  datatype ParamValue =
    | AlgorithmParam(algorithm: Algorithm)
    | PathParam(path: string)
    | UIntParam(n: nat)
    | RealParam(x: real)

  const DefaultPath: string := "../assets/terrains/"
  const DefaultSize: nat := 256
  const DefaultCircleRadius: real := 50.0
  const DefaultForwardFlx: real := 1.0
  const DefaultBackwardFlx: real := -1.0
  const DefaultSmooth: real := 2.0
  const DefaultPersistence: nat := 2
  const PerlinOctaves: nat := 8

  const BaseKeys: set<string> := {"algorithm", "heightMapPath", "width", "height"}
  const CircleStrikeKeys: set<string> := BaseKeys + {"circleRadius", "forwardFlx", "backwardFlx"}
  const PerlinKeys: set<string> := BaseKeys + {"smooth", "persistence"}

  /** Every key that the generators read holds a value of the type they read it as:
      reading it through another type is undefined behaviour. */
  ghost predicate WellTyped(m: map<string, ParamValue>)
  {
    ("algorithm" in m ==> m["algorithm"].AlgorithmParam?) &&
    ("heightMapPath" in m ==> m["heightMapPath"].PathParam?) &&
    ("width" in m ==> m["width"].UIntParam?) &&
    ("height" in m ==> m["height"].UIntParam?) &&
    ("circleRadius" in m ==> m["circleRadius"].RealParam?) &&
    ("forwardFlx" in m ==> m["forwardFlx"].RealParam?) &&
    ("backwardFlx" in m ==> m["backwardFlx"].RealParam?) &&
    ("smooth" in m ==> m["smooth"].RealParam?) &&
    ("persistence" in m ==> m["persistence"].UIntParam?)
  }

  /** `HeightMapParams` and its two derived parameter structs: a map from names to
      values that the constructors fill in. */
  class HeightMapParams {
    var entries: map<string, ParamValue>

    /** `HeightMapParams(algorithm, heightMapPath, width, height)`. */
    constructor (algorithm: Algorithm, heightMapPath: string, width: nat, height: nat)
      ensures entries.Keys == BaseKeys && WellTyped(entries)
      ensures entries["algorithm"] == AlgorithmParam(algorithm)
      ensures entries["heightMapPath"] == PathParam(heightMapPath)
      ensures entries["width"] == UIntParam(width) && entries["height"] == UIntParam(height)
    {
      entries := map[];
      new;
      InsertBase(algorithm, heightMapPath, width, height);
    }

    /** `CircleStrikeParams(circleRadius, forwardFlx, backwardFlx, heightMapPath)`: the
        base entries for the circle-strike algorithm at the default size, then three more. */
    constructor CircleStrike(circleRadius: real, forwardFlx: real, backwardFlx: real, heightMapPath: string)
      ensures entries.Keys == CircleStrikeKeys && WellTyped(entries)
      ensures entries["algorithm"] == AlgorithmParam(CircleStrikeAlgorithm)
      ensures entries["heightMapPath"] == PathParam(heightMapPath)
      ensures entries["width"] == UIntParam(DefaultSize) && entries["height"] == UIntParam(DefaultSize)
      ensures entries["circleRadius"] == RealParam(circleRadius)
      ensures entries["forwardFlx"] == RealParam(forwardFlx)
      ensures entries["backwardFlx"] == RealParam(backwardFlx)
    {
      entries := map[];
      new;
      InsertBase(CircleStrikeAlgorithm, heightMapPath, DefaultSize, DefaultSize);
      Insert("circleRadius", RealParam(circleRadius));
      Insert("forwardFlx", RealParam(forwardFlx));
      Insert("backwardFlx", RealParam(backwardFlx));
    }

    /** `PerlinNoiseParams(smooth, persistence, heightMapPath)`: the base entries for the
        Perlin-noise algorithm at the default size, then two more. */
    constructor PerlinNoise(smooth: real, persistence: nat, heightMapPath: string)
      ensures entries.Keys == PerlinKeys && WellTyped(entries)
      ensures entries["algorithm"] == AlgorithmParam(PerlinNoiseAlgorithm)
      ensures entries["heightMapPath"] == PathParam(heightMapPath)
      ensures entries["width"] == UIntParam(DefaultSize) && entries["height"] == UIntParam(DefaultSize)
      ensures entries["smooth"] == RealParam(smooth)
      ensures entries["persistence"] == UIntParam(persistence)
    {
      entries := map[];
      new;
      InsertBase(PerlinNoiseAlgorithm, heightMapPath, DefaultSize, DefaultSize);
      Insert("smooth", RealParam(smooth));
      Insert("persistence", UIntParam(persistence));
    }

    /** `(*this)[key] = value`: insert, or overwrite an existing entry. */
    method Insert(key: string, value: ParamValue)
      modifies this`entries
      ensures entries == old(entries)[key := value]
    {
      entries := entries[key := value];
    }

    /** The four insertions of the base constructor, in order. */
    method InsertBase(algorithm: Algorithm, heightMapPath: string, width: nat, height: nat)
      requires entries == map[]
      modifies this`entries
      ensures entries.Keys == BaseKeys && WellTyped(entries)
      ensures entries["algorithm"] == AlgorithmParam(algorithm)
      ensures entries["heightMapPath"] == PathParam(heightMapPath)
      ensures entries["width"] == UIntParam(width) && entries["height"] == UIntParam(height)
    {
      Insert("algorithm", AlgorithmParam(algorithm));
      Insert("heightMapPath", PathParam(heightMapPath));
      Insert("width", UIntParam(width));
      Insert("height", UIntParam(height));
    }

    /** `get_param(name, default)`: the stored value if the key is present, else the
        default. */
    function GetParamOr(name: string, default: ParamValue): (v: ParamValue)
      reads this
      ensures name in entries ==> v == entries[name]
      ensures name !in entries ==> v == default
    {
      if name in entries then entries[name] else default
    }

    /** `get_param(name)`: the stored value, or the exception `throw param_name`
        when the key is absent. */
    function GetParam(name: string): (r: Result<ParamValue, string>)
      reads this
      ensures r.Ok? <==> name in entries
      ensures r.Ok? ==> r.value == entries[name]
      ensures r.Err? ==> r.error == name
    {
      if name in entries then Ok(entries[name]) else Err(name)
    }

    /** The two readers agree: a lookup that does not throw returns what the
        defaulted lookup returns, and one that throws leaves the defaulted lookup
        at its default. */
    lemma GetParamAgrees(name: string, default: ParamValue)
      ensures GetParam(name).Ok? ==> GetParamOr(name, default) == GetParam(name).value
      ensures GetParam(name).Err? ==> GetParamOr(name, default) == default
    {
    }
  }

  /** The Perlin-noise generator's settings. */
  class PerlinNoiseGenerator {
    var heightMapPath: string
    var algorithm: Algorithm
    var width: nat
    var height: nat
    var smooth: real
    var persistence: nat
    var octaves: nat

    /** `PerlinNoiseGenerator(smooth, persistence, octaves, heightMapPath)`: the
        `octaves` argument is ignored and the octave count is always 8. */
    constructor (smooth: real, persistence: nat, octaves: nat, heightMapPath: string)
      ensures this.smooth == smooth && this.persistence == persistence
      ensures this.heightMapPath == heightMapPath && algorithm == PerlinNoiseAlgorithm
      ensures width == DefaultSize && height == DefaultSize
      ensures this.octaves == PerlinOctaves
    {
      this.heightMapPath := heightMapPath;
      algorithm := NoneAlgorithm;
      width := DefaultSize;
      height := DefaultSize;
      this.smooth := smooth;
      this.persistence := persistence;
      this.octaves := PerlinOctaves;
      new;
      algorithm := PerlinNoiseAlgorithm;
    }

    /** `PerlinNoiseGenerator(params, octaves)`: every setting is read from `params`
        with its default; the algorithm tag is whatever `params` holds (there is no
        override to Perlin noise here), and again the octave count is always 8. */
    constructor FromParams(params: HeightMapParams, octaves: nat)
      requires WellTyped(params.entries)
      ensures heightMapPath == params.GetParamOr("heightMapPath", PathParam(DefaultPath)).path
      ensures width == params.GetParamOr("width", UIntParam(DefaultSize)).n
      ensures height == params.GetParamOr("height", UIntParam(DefaultSize)).n
      ensures algorithm == params.GetParamOr("algorithm", AlgorithmParam(NoneAlgorithm)).algorithm
      ensures smooth == params.GetParamOr("smooth", RealParam(DefaultSmooth)).x
      ensures persistence == params.GetParamOr("persistence", UIntParam(DefaultPersistence)).n
      ensures this.octaves == PerlinOctaves
    {
      heightMapPath := params.GetParamOr("heightMapPath", PathParam(DefaultPath)).path;
      width := params.GetParamOr("width", UIntParam(DefaultSize)).n;
      height := params.GetParamOr("height", UIntParam(DefaultSize)).n;
      algorithm := params.GetParamOr("algorithm", AlgorithmParam(NoneAlgorithm)).algorithm;
      this.octaves := PerlinOctaves;
      smooth := params.GetParamOr("smooth", RealParam(DefaultSmooth)).x;
      persistence := params.GetParamOr("persistence", UIntParam(DefaultPersistence)).n;
    }
  }

  /** The circle-strike generator's settings. */
  class CircleStrikeGenerator {
    var heightMapPath: string
    var algorithm: Algorithm
    var width: nat
    var height: nat
    var circleRadius: real
    var forwardFlx: real
    var backwardFlx: real
    var iterations: nat
    var stableIterNum: nat
    var maxCrash: real
    var minCrash: real

    /** `CircleStrikeGenerator(circleRadius, forwardFlx, backwardFlx, iterations,
        stableIterNum, maxCrash, minCrash, heightMapPath)`: every setting as given, on a
        256 x 256 map, tagged as circle strike. */
    constructor (circleRadius: real, forwardFlx: real, backwardFlx: real, iterations: nat,
                 stableIterNum: nat, maxCrash: real, minCrash: real, heightMapPath: string)
      ensures this.circleRadius == circleRadius && this.forwardFlx == forwardFlx
      ensures this.backwardFlx == backwardFlx && this.heightMapPath == heightMapPath
      ensures this.iterations == iterations && this.stableIterNum == stableIterNum
      ensures this.maxCrash == maxCrash && this.minCrash == minCrash
      ensures width == DefaultSize && height == DefaultSize && algorithm == CircleStrikeAlgorithm
    {
      this.heightMapPath := heightMapPath;
      algorithm := NoneAlgorithm;
      width := DefaultSize;
      height := DefaultSize;
      this.circleRadius := circleRadius;
      this.forwardFlx := forwardFlx;
      this.backwardFlx := backwardFlx;
      this.iterations := iterations;
      this.stableIterNum := stableIterNum;
      this.maxCrash := maxCrash;
      this.minCrash := minCrash;
      new;
      algorithm := CircleStrikeAlgorithm;
    }

    /** `CircleStrikeGenerator(params, iterations, stableIterNum, maxCrash, minCrash)`:
        the base settings and the three circle settings are read from `params` with
        their defaults; the schedule settings are arguments. */
    constructor FromParams(params: HeightMapParams, iterations: nat, stableIterNum: nat,
                           maxCrash: real, minCrash: real)
      requires WellTyped(params.entries)
      ensures heightMapPath == params.GetParamOr("heightMapPath", PathParam(DefaultPath)).path
      ensures width == params.GetParamOr("width", UIntParam(DefaultSize)).n
      ensures height == params.GetParamOr("height", UIntParam(DefaultSize)).n
      ensures algorithm == params.GetParamOr("algorithm", AlgorithmParam(NoneAlgorithm)).algorithm
      ensures circleRadius == params.GetParamOr("circleRadius", RealParam(DefaultCircleRadius)).x
      ensures forwardFlx == params.GetParamOr("forwardFlx", RealParam(DefaultForwardFlx)).x
      ensures backwardFlx == params.GetParamOr("backwardFlx", RealParam(DefaultBackwardFlx)).x
      ensures this.iterations == iterations && this.stableIterNum == stableIterNum
      ensures this.maxCrash == maxCrash && this.minCrash == minCrash
    {
      heightMapPath := params.GetParamOr("heightMapPath", PathParam(DefaultPath)).path;
      width := params.GetParamOr("width", UIntParam(DefaultSize)).n;
      height := params.GetParamOr("height", UIntParam(DefaultSize)).n;
      algorithm := params.GetParamOr("algorithm", AlgorithmParam(NoneAlgorithm)).algorithm;
      this.iterations := iterations;
      this.stableIterNum := stableIterNum;
      this.maxCrash := maxCrash;
      this.minCrash := minCrash;
      circleRadius := params.GetParamOr("circleRadius", RealParam(DefaultCircleRadius)).x;
      forwardFlx := params.GetParamOr("forwardFlx", RealParam(DefaultForwardFlx)).x;
      backwardFlx := params.GetParamOr("backwardFlx", RealParam(DefaultBackwardFlx)).x;
    }
  }

  /** `HeightMapGenerator(CircleStrikeParams(...), ...)`: the settings that reach the
      generator through the dictionary are the ones the parameters were built from. */
  method NewCircleStrikeGenerator(circleRadius: real, forwardFlx: real, backwardFlx: real, path: string,
                                  iterations: nat, stableIterNum: nat, maxCrash: real, minCrash: real)
    returns (g: CircleStrikeGenerator)
    ensures g.circleRadius == circleRadius && g.forwardFlx == forwardFlx && g.backwardFlx == backwardFlx
    ensures g.heightMapPath == path && g.algorithm == CircleStrikeAlgorithm
    ensures g.width == DefaultSize && g.height == DefaultSize
    ensures g.iterations == iterations && g.stableIterNum == stableIterNum
    ensures g.maxCrash == maxCrash && g.minCrash == minCrash
  {
    var params := new HeightMapParams.CircleStrike(circleRadius, forwardFlx, backwardFlx, path);
    g := new CircleStrikeGenerator.FromParams(params, iterations, stableIterNum, maxCrash, minCrash);
  }

  /** `HeightMapGenerator(PerlinNoiseParams(...), octaves)`: the same round trip, with
      the octave count fixed at 8 whatever is asked for. */
  method NewPerlinNoiseGenerator(smooth: real, persistence: nat, path: string, octaves: nat)
    returns (g: PerlinNoiseGenerator)
    ensures g.smooth == smooth && g.persistence == persistence
    ensures g.heightMapPath == path && g.algorithm == PerlinNoiseAlgorithm
    ensures g.width == DefaultSize && g.height == DefaultSize && g.octaves == PerlinOctaves
  {
    var params := new HeightMapParams.PerlinNoise(smooth, persistence, path);
    g := new PerlinNoiseGenerator.FromParams(params, octaves);
  }

  // ---------------------------------------------------------------------------
  // Circle strike: the crash factor of one strike

  /** The crash factor of strike number `iterDone` (counted from 1) as written: the
      ramp's ratio `iter_done / stableIterNum` is a quotient of two unsigned integers,
      taken only when `iter_done < stableIterNum`, so it is always 0: every strike uses
      `minCrash`, and `maxCrash` has no effect. */
  function DispAsWritten(iterDone: nat, stableIterNum: nat, maxCrash: real, minCrash: real): (d: real)
    ensures d == minCrash
  {
    if iterDone < stableIterNum then
      assert iterDone / stableIterNum == 0;
      minCrash + (iterDone / stableIterNum) as real * (maxCrash - minCrash)
    else minCrash
  }

  /** The crash factor the member comments describe: `maxCrash` when the iterations
      begin, falling linearly to `minCrash` at strike `stableIterNum`, and `minCrash`
      from then on. */
  function Disp(iterDone: nat, stableIterNum: nat, maxCrash: real, minCrash: real): (d: real)
    ensures iterDone >= stableIterNum ==> d == minCrash
    ensures iterDone == 0 && stableIterNum > 0 ==> d == maxCrash
    ensures minCrash <= maxCrash ==> minCrash <= d <= maxCrash
  {
    if iterDone < stableIterNum then
      var t := iterDone as real / stableIterNum as real;
      assert 0.0 <= t < 1.0;
      FractionOfSpan(t, maxCrash - minCrash);
      maxCrash - t * (maxCrash - minCrash)
    else minCrash
  }

  lemma FractionOfSpan(t: real, span: real)
    requires 0.0 <= t <= 1.0
    ensures span >= 0.0 ==> 0.0 <= t * span <= span
  {
    if span >= 0.0 {
      assert t * span <= 1.0 * span;
    }
  }

  /** The intended schedule never increases from one strike to the next (for
      `minCrash <= maxCrash`), where the written one is flat. */
  lemma DispNonIncreasing(i: nat, j: nat, stableIterNum: nat, maxCrash: real, minCrash: real)
    requires i <= j && minCrash <= maxCrash
    ensures Disp(j, stableIterNum, maxCrash, minCrash) <= Disp(i, stableIterNum, maxCrash, minCrash)
  {
    if j < stableIterNum {
      var s := stableIterNum as real;
      var ti := i as real / s;
      var tj := j as real / s;
      assert ti <= tj;
      assert ti * (maxCrash - minCrash) <= tj * (maxCrash - minCrash);
    }
  }

  /** An input on which the two disagree: halfway to the stable iteration the
      written factor is already `minCrash`. */
  lemma DispDiffers()
    ensures DispAsWritten(50, 100, 1.0, 0.1) == 0.1
    ensures Disp(50, 100, 1.0, 0.1) == 0.55
  {
    assert 50 / 100 == 0;
    assert (50 as real) / (100 as real) == 0.5;
  }

  // ---------------------------------------------------------------------------
  // Perlin noise: the smooth-noise pass

  /** `pow(persistence, octave)` on naturals. */
  function Pow(b: nat, e: nat): (p: nat)
    ensures b > 0 ==> p > 0
    ensures e == 0 ==> p == 1
  {
    if e == 0 then 1 else b * Pow(b, e - 1)
  }

  /** `(i / period) * period`: the first index of the period block that holds `i`. */
  function PeriodStart(i: nat, period: nat): (c: nat)
    requires period > 0
    ensures c <= i < c + period && i - c == i % period
  {
    var q := i / period;
    assert i == q * period + i % period;
    q * period
  }

  /** A block start is its own block start: blocks do not overlap. */
  lemma PeriodStartIsBoundary(i: nat, period: nat)
    requires period > 0
    ensures PeriodStart(PeriodStart(i, period), period) == PeriodStart(i, period)
  {
    var q := i / period;
    MultipleDiv(q, period);
  }

  lemma {:induction false} MultipleDiv(q: nat, period: nat)
    requires period > 0
    ensures (q * period) / period == q && (q * period) % period == 0
  {
    if q > 0 {
      MultipleDiv(q - 1, period);
      assert q * period == (q - 1) * period + period;
    }
  }

  /** `(cur + period) % n`: where the next block starts, wrapping to 0 at the edge. */
  function NextPeriodStart(cur: nat, period: nat, n: nat): (k: nat)
    requires n > 0
    ensures k < n
    ensures cur + period < n ==> k == cur + period
  {
    (cur + period) % n
  }

  /** How far `i` is into its block, as a fraction of the block: `(i - cur) * frequency`. */
  function Blend(i: nat, period: nat): (f: real)
    requires period > 0
    ensures 0.0 <= f < 1.0
    ensures i % period == 0 ==> f == 0.0
  {
    var c := PeriodStart(i, period);
    var f := (i - c) as real * (1.0 / period as real);
    assert (i - c) as real < period as real;
    assert f == (i - c) as real / period as real;
    f
  }

  /** `interpolate`: a cosine blend of `top` and `bottom`, with `cosPi(f)` standing
      for `cos(f * M_PI)`. While the cosine is in `[-1, 1]` the blend lies between
      its two ends; at cosine 1 it is `top`, at -1 `bottom`. */
  function Interpolate(top: real, bottom: real, factor: real, cosPi: real -> real): (r: real)
    ensures -1.0 <= cosPi(factor) <= 1.0 ==>
      (top <= bottom ==> top <= r <= bottom) && (bottom <= top ==> bottom <= r <= top)
    ensures cosPi(factor) == 1.0 ==> r == top
    ensures cosPi(factor) == -1.0 ==> r == bottom
  {
    var c := cosPi(factor);
    CosineBlendBetween(top, bottom, c);
    (top + bottom) / 2.0 + (top - bottom) * c / 2.0
  }

  lemma CosineBlendBetween(top: real, bottom: real, c: real)
    ensures -1.0 <= c <= 1.0 ==>
      var r := (top + bottom) / 2.0 + (top - bottom) * c / 2.0;
      (top <= bottom ==> top <= r <= bottom) && (bottom <= top ==> bottom <= r <= top)
  {
    var r := (top + bottom) / 2.0 + (top - bottom) * c / 2.0;
    var t := (1.0 + c) / 2.0;
    assert r == top * t + bottom * (1.0 - t);
    if -1.0 <= c <= 1.0 {
      MixBetween(top, bottom, t);
    }
  }

  lemma MixBetween(a: real, b: real, t: real)
    requires 0.0 <= t <= 1.0
    ensures a <= b ==> a <= a * t + b * (1.0 - t) <= b
    ensures b <= a ==> b <= a * t + b * (1.0 - t) <= a
  {
    assert a * t + b * (1.0 - t) == b + t * (a - b);
    FractionOfSpan(t, a - b);
    FractionOfSpan(t, b - a);
  }

  /** The value of smooth-noise cell (`h`, `w`): the white noise at the corners of its
      period block (the next block wrapping around the edge), blended across and then
      down. */
  ghost function SmoothCell(white: array2<real>, period: nat, h: nat, w: nat, cosPi: real -> real): real
    reads white
    requires period > 0 && white.Length0 > 0 && white.Length1 > 0
    requires h < white.Length0 && w < white.Length1
  {
    var curW := PeriodStart(h, period);
    var nextW := NextPeriodStart(curW, period, white.Length0);
    var curH := PeriodStart(w, period);
    var nextH := NextPeriodStart(curH, period, white.Length1);
    var top := Interpolate(white[curW, curH], white[nextW, curH], Blend(h, period), cosPi);
    var bottom := Interpolate(white[curW, nextH], white[nextW, nextH], Blend(h, period), cosPi);
    Interpolate(top, bottom, Blend(w, period), cosPi)
  }

  /** `generateSmoothNoise(whiteNoise, octave)` for a `width` by `height` white-noise
      grid. The source allocates `width` rows of `height` cells and fills `height`
      rows of `width` cells, and reads the white noise the same crossed way, so it
      stays inside its arrays only for a square map: that is the precondition. */
  method SmoothNoise(white: array2<real>, persistence: nat, octave: nat, cosPi: real -> real)
    returns (smooth: array2<real>)
    requires white.Length0 == white.Length1
    requires persistence > 0 || octave == 0
    ensures fresh(smooth) && smooth.Length0 == white.Length0 && smooth.Length1 == white.Length1
    ensures forall h, w :: 0 <= h < smooth.Length0 && 0 <= w < smooth.Length1 ==>
      smooth[h, w] == SmoothCell(white, Pow(persistence, octave), h, w, cosPi)
  {
    var period := Pow(persistence, octave);
    smooth := new real[white.Length0, white.Length1];
    for hloop := 0 to white.Length1
      invariant SmoothedUpTo(smooth, white, period, hloop, 0, cosPi)
    {
      SmoothRow(smooth, white, period, hloop, cosPi);
    }
  }

  /** The cells of the first `h` rows, and the first `w` cells of row `h`, hold their
      smooth-noise values. */
  ghost predicate SmoothedUpTo(smooth: array2<real>, white: array2<real>, period: nat, h: nat, w: nat,
                               cosPi: real -> real)
    reads smooth, white
    requires period > 0 && white.Length0 == white.Length1
    requires smooth.Length0 == white.Length0 && smooth.Length1 == white.Length1
  {
    forall i, j :: 0 <= i < smooth.Length0 && 0 <= j < smooth.Length1 && (i < h || (i == h && j < w)) ==>
      smooth[i, j] == SmoothCell(white, period, i, j, cosPi)
  }

  /** One pass of the outer loop of `generateSmoothNoise`: row `h` is filled. */
  method SmoothRow(smooth: array2<real>, white: array2<real>, period: nat, h: nat, cosPi: real -> real)
    requires period > 0 && white.Length0 == white.Length1 && h < white.Length1
    requires smooth.Length0 == white.Length0 && smooth.Length1 == white.Length1 && smooth != white
    requires SmoothedUpTo(smooth, white, period, h, 0, cosPi)
    modifies smooth
    ensures SmoothedUpTo(smooth, white, period, h + 1, 0, cosPi)
  {
    var width := white.Length0;
    var height := white.Length1;
    var curW := PeriodStart(h, period);
    var nextW := NextPeriodStart(curW, period, width);
    var horizontalBlend := Blend(h, period);
    for wloop := 0 to width
      invariant SmoothedUpTo(smooth, white, period, h, wloop, cosPi)
    {
      var curH := PeriodStart(wloop, period);
      var nextH := NextPeriodStart(curH, period, height);
      var verticalBlend := Blend(wloop, period);
      var top := Interpolate(white[curW, curH], white[nextW, curH], horizontalBlend, cosPi);
      var bottom := Interpolate(white[curW, nextH], white[nextW, nextH], horizontalBlend, cosPi);
      smooth[h, wloop] := Interpolate(top, bottom, verticalBlend, cosPi);
    }
  }

  // ---------------------------------------------------------------------------
  // Saving: the row-major grayscale image

  /** `(unsigned char)(v * 255)` for a height in `[0, 1]`. */
  function ToPixel(v: real): (b: byte)
    requires 0.0 <= v <= 1.0
    ensures v == 0.0 ==> b == 0
    ensures v == 1.0 ==> b == 255
  {
    assert 0.0 <= v * 255.0 <= 255.0 by { FractionOfSpan(v, 255.0); }
    (v * 255.0).Floor as byte
  }

  /** `h * width + w`: the byte of pixel (`h`, `w`) in a `width`-wide row-major image.
      The row and the column come back as the quotient and the remainder by `width`. */
  function PixelIndex(h: nat, w: nat, width: nat): (i: nat)
    ensures w < width ==> i / width == h && i % width == w
  {
    RowStartIsProduct(h, width);
    RowDivMod(h, w, width);
    RowStart(h, width) + w
  }

  /** Pixel (`h`, `w`) of a `width`-wide image sits at `h * width + w`, inside the
      `width * height` buffer. */
  lemma PixelIndexInRange(h: nat, w: nat, width: nat, height: nat)
    requires h < height && w < width
    ensures PixelIndex(h, w, width) < width * height
  {
    RowStartIsProduct(h, width);
    MulMonotone(h + 1, height, width);
    assert (h + 1) * width == h * width + width;
  }

  /** Different pixels go to different bytes. */
  lemma PixelIndexInjective(h: nat, w: nat, h': nat, w': nat, width: nat)
    requires w < width && w' < width
    requires PixelIndex(h, w, width) == PixelIndex(h', w', width)
    ensures h == h' && w == w'
  {
    if h < h' {
      RowStartMonotone(h, h', width);
    } else if h' < h {
      RowStartMonotone(h', h, width);
    }
  }

  /** The bytes of the first `h` rows, and of the first `w` pixels of row `h`, hold the
      converted heights. */
  ghost predicate SavedUpTo(p: seq<byte>, data: array2<real>, width: nat, height: nat, h: nat, w: nat)
    reads data
    requires height <= data.Length0 && width <= data.Length1
  {
    forall i, j :: 0 <= i < height && 0 <= j < width && (i < h || (i == h && j < w)) ==>
      PixelIndex(i, j, width) < |p| && 0.0 <= data[i, j] <= 1.0 &&
      p[PixelIndex(i, j, width)] == ToPixel(data[i, j])
  }

  /** The conversion loop of `save`: every height of the `height` by `width` grid is
      written once, as one grayscale byte, at `h * width + w`. */
  method SavePixels(data: array2<real>, width: nat, height: nat) returns (pixels: array<byte>)
    requires height <= data.Length0 && width <= data.Length1
    requires forall h, w :: 0 <= h < height && 0 <= w < width ==> 0.0 <= data[h, w] <= 1.0
    ensures fresh(pixels) && pixels.Length == width * height
    ensures forall h, w :: 0 <= h < height && 0 <= w < width ==>
      PixelIndex(h, w, width) < pixels.Length && pixels[PixelIndex(h, w, width)] == ToPixel(data[h, w])
  {
    pixels := new byte[width * height];
    for hloop := 0 to height
      invariant SavedUpTo(pixels[..], data, width, height, hloop, 0)
    {
      SaveRow(pixels, data, width, height, hloop);
    }
    assert SavedUpTo(pixels[..], data, width, height, height, 0);
  }

  /** One pass of the inner loop of `save`: row `h` is converted, nothing else changes. */
  method SaveRow(pixels: array<byte>, data: array2<real>, width: nat, height: nat, h: nat)
    requires height <= data.Length0 && width <= data.Length1 && h < height
    requires pixels.Length == width * height
    requires forall i, j :: 0 <= i < height && 0 <= j < width ==> 0.0 <= data[i, j] <= 1.0
    requires SavedUpTo(pixels[..], data, width, height, h, 0)
    modifies pixels
    ensures SavedUpTo(pixels[..], data, width, height, h + 1, 0)
  {
    EarlierRowsBefore(h, width);
    for wloop := 0 to width
      invariant SavedUpTo(pixels[..], data, width, height, h, wloop)
    {
      PixelIndexInRange(h, wloop, width, height);
      pixels[PixelIndex(h, wloop, width)] := ToPixel(data[h, wloop]);
    }
    SavedNextRow(pixels[..], data, width, height, h);
  }

  /** A finished row is the same progress as the start of the next one. */
  lemma SavedNextRow(p: seq<byte>, data: array2<real>, width: nat, height: nat, h: nat)
    requires height <= data.Length0 && width <= data.Length1
    requires SavedUpTo(p, data, width, height, h, width)
    ensures SavedUpTo(p, data, width, height, h + 1, 0)
  {
    forall i, j | 0 <= i < height && 0 <= j < width && (i < h + 1 || (i == h + 1 && j < 0))
      ensures PixelIndex(i, j, width) < |p| && 0.0 <= data[i, j] <= 1.0 &&
        p[PixelIndex(i, j, width)] == ToPixel(data[i, j])
    {
      assert i < h || (i == h && j < width);
    }
  }

  /** Every earlier row lies wholly before row `h`. */
  lemma EarlierRowsBefore(h: nat, width: nat)
    ensures forall i :: 0 <= i < h ==> RowStart(i, width) + width <= RowStart(h, width)
  {
    forall i | 0 <= i < h
      ensures RowStart(i, width) + width <= RowStart(h, width)
    {
      RowStartMonotone(i, h, width);
    }
  }
}
