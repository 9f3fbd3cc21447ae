/** The in-place pixel flip of `screenshot` (src/main.cpp): `glReadPixels` delivers
    the window bottom row first, so the buffer of `4 * width * height` RGBA bytes is
    mirrored top to bottom, and the red and blue bytes of every moved pixel are
    exchanged on the way. */
module Screenshot {
  import opened Common

  /** Byte offset of channel `c` of the pixel in column `x`, row `y` of a `w` x `h`
      window; every offset the loop touches lies inside the `4 * w * h` buffer. */
  function Idx(x: nat, y: nat, c: nat, w: nat, h: nat): (i: nat)
    requires x < w && y < h && c < 4
    ensures i < 4 * RowStart(h, w)
  {
    RowStartMonotone(y, h, w);
    4 * (x + RowStart(y, w)) + c
  }

  /** The channel a converted pixel takes its byte `c` from: red and blue trade places. */
  function Swap(c: nat): (d: nat)
    ensures c < 4 ==> d < 4
  {
    if c == 0 then 2 else if c == 2 then 0 else c
  }

  /** Distinct (column, row, channel) triples never share a byte. */
  lemma IdxInjective(x: nat, y: nat, c: nat, x': nat, y': nat, c': nat, w: nat, h: nat)
    requires x < w && x' < w && y < h && y' < h && c < 4 && c' < 4
    requires Idx(x, y, c, w, h) == Idx(x', y', c', w, h)
    ensures x == x' && y == y' && c == c'
  {
    if y < y' {
      RowStartMonotone(y, y', w);
    } else if y' < y {
      RowStartMonotone(y', y, w);
    }
  }

  /** Every byte of the buffer belongs to exactly one (column, row, channel). */
  lemma IdxCover(i: nat, w: nat, h: nat) returns (x: nat, y: nat, c: nat)
    requires i < 4 * w * h
    ensures x < w && y < h && c < 4 && Idx(x, y, c, w, h) == i
  {
    RowStartIsProduct(h, w);
    c := i % 4;
    var k := i / 4;
    assert k < RowStart(h, w);
    assert w > 0;
    x := k % w;
    y := k / w;
    assert k == w * y + x;
    RowStartIsProduct(y, w);
    assert k == x + RowStart(y, w);
    if y > h {
      RowStartMonotone(h, y, w);
    }
  }

  /** The channel pixel (x, y) reads from its mirror pixel: swapped on every row, except
      that `convertMiddle == false` leaves the middle row of an odd height as it was. */
  function SourceChannel(y: nat, h: nat, c: nat, convertMiddle: bool): nat
  {
    if !convertMiddle && 2 * y + 1 == h then c else Swap(c)
  }

  /** `q` is the upside-down copy of `p`: row y of `q` is row h-1-y of `p`, and a pixel
      keeps its alpha and green bytes while trading red with blue. */
  ghost predicate IsFlip(q: seq<byte>, p: seq<byte>, w: nat, h: nat, convertMiddle: bool)
  {
    RowStartIsProduct(h, w);
    |p| == 4 * w * h && |q| == |p| &&
    forall x: nat, y: nat, c: nat {:trigger q[Idx(x, y, c, w, h)]} | x < w && y < h && c < 4 ::
      q[Idx(x, y, c, w, h)] == p[Idx(x, h - 1 - y, SourceChannel(y, h, c, convertMiddle), w, h)]
  }

  /** Exchanges pixel (x, y) with pixel (x, y') through the four `std::swap`s of the
      source: byte 0 with byte 2 of the other, 1 with 1, 2 with 0, 3 with 3. */
  method SwapPixelPair(pixels: array<byte>, w: nat, h: nat, x0: nat, y0: nat, y1: nat)
    requires pixels.Length == 4 * RowStart(h, w) && x0 < w && y0 < y1 < h
    modifies pixels
    ensures forall x: nat, y: nat, c: nat {:trigger pixels[Idx(x, y, c, w, h)]} | x < w && y < h && c < 4 ::
      pixels[Idx(x, y, c, w, h)] ==
        if x == x0 && y == y0 then old(pixels[Idx(x0, y1, Swap(c), w, h)])
        else if x == x0 && y == y1 then old(pixels[Idx(x0, y0, Swap(c), w, h)])
        else old(pixels[Idx(x, y, c, w, h)])
  {
    RowStartMonotone(y0, y1, w);
    var offset := Idx(x0, y0, 0, w, h);
    var swapOffset := Idx(x0, y1, 0, w, h);
    ghost var before := pixels[..];
    SwapBytes(pixels, offset + 0, swapOffset + 2);
    ghost var s1 := pixels[..];
    SwapBytes(pixels, offset + 1, swapOffset + 1);
    ghost var s2 := pixels[..];
    SwapBytes(pixels, offset + 2, swapOffset + 0);
    ghost var s3 := pixels[..];
    SwapBytes(pixels, offset + 3, swapOffset + 3);
    ghost var after := pixels[..];
    PixelsExchanged(before, s1, s2, s3, after, offset, swapOffset);
    PairExchanged(before, after, w, h, x0, y0, y1, offset, swapOffset);
    forall x: nat, y: nat, c: nat {:trigger pixels[Idx(x, y, c, w, h)]} | x < w && y < h && c < 4
      ensures pixels[Idx(x, y, c, w, h)] == after[Idx(x, y, c, w, h)]
    {
    }
  }

  /** The byte-level exchange of the two pixels, read back per (column, row, channel). */
  lemma PairExchanged(p: seq<byte>, q: seq<byte>, w: nat, h: nat, x0: nat, y0: nat, y1: nat, o: nat, so: nat)
    requires |p| == 4 * RowStart(h, w) && |q| == |p| && x0 < w && y0 < y1 < h
    requires o == Idx(x0, y0, 0, w, h) && so == Idx(x0, y1, 0, w, h)
    requires forall c :: 0 <= c < 4 ==> q[o + c] == p[so + Swap(c)] && q[so + c] == p[o + Swap(c)]
    requires forall k :: 0 <= k < |q| && !(o <= k < o + 4) && !(so <= k < so + 4) ==> q[k] == p[k]
    ensures forall x: nat, y: nat, c: nat {:trigger q[Idx(x, y, c, w, h)]} | x < w && y < h && c < 4 ::
      q[Idx(x, y, c, w, h)] ==
        if x == x0 && y == y0 then p[Idx(x0, y1, Swap(c), w, h)]
        else if x == x0 && y == y1 then p[Idx(x0, y0, Swap(c), w, h)]
        else p[Idx(x, y, c, w, h)]
  {
    var offset, swapOffset := o, so;
    forall x: nat, y: nat, c: nat {:trigger q[Idx(x, y, c, w, h)]} | x < w && y < h && c < 4
      ensures q[Idx(x, y, c, w, h)] ==
        if x == x0 && y == y0 then p[Idx(x0, y1, Swap(c), w, h)]
        else if x == x0 && y == y1 then p[Idx(x0, y0, Swap(c), w, h)]
        else p[Idx(x, y, c, w, h)]
    {
      var i := Idx(x, y, c, w, h);
      if x == x0 && y == y0 {
        assert i == offset + c && Idx(x0, y1, Swap(c), w, h) == swapOffset + Swap(c);
      } else if x == x0 && y == y1 {
        assert i == swapOffset + c && Idx(x0, y0, Swap(c), w, h) == offset + Swap(c);
      } else {
        OtherPixel(x, y, c, x0, y0, w, h);
        OtherPixel(x, y, c, x0, y1, w, h);
      }
    }
  }

  /** A byte of any pixel other than (x0, y0) lies outside the four bytes of (x0, y0). */
  lemma OtherPixel(x: nat, y: nat, c: nat, x0: nat, y0: nat, w: nat, h: nat)
    requires x < w && y < h && c < 4 && x0 < w && y0 < h && (x != x0 || y != y0)
    ensures !(Idx(x0, y0, 0, w, h) <= Idx(x, y, c, w, h) < Idx(x0, y0, 0, w, h) + 4)
  {
    var o := Idx(x0, y0, 0, w, h);
    var i := Idx(x, y, c, w, h);
    if o <= i < o + 4 {
      IdxInjective(x, y, c, x0, y0, i - o, w, h);
    }
  }

  /** `std::swap(pixels[a], pixels[b])`. */
  method SwapBytes(pixels: array<byte>, a: nat, b: nat)
    requires a < pixels.Length && b < pixels.Length
    modifies pixels
    ensures pixels[..] == old(pixels[..])[a := old(pixels[b])][b := old(pixels[a])]
  {
    pixels[a], pixels[b] := pixels[b], pixels[a];
  }

  /** After the four swaps of two disjoint pixels starting at `o` and `so`, each byte
      of one pixel holds the red/blue-swapped byte of the other, and the rest is as before. */
  lemma PixelsExchanged(p: seq<byte>, s1: seq<byte>, s2: seq<byte>, s3: seq<byte>, q: seq<byte>, o: nat, so: nat)
    requires o + 4 <= so && so + 4 <= |p|
    requires s1 == p[o + 0 := p[so + 2]][so + 2 := p[o + 0]]
    requires s2 == s1[o + 1 := s1[so + 1]][so + 1 := s1[o + 1]]
    requires s3 == s2[o + 2 := s2[so + 0]][so + 0 := s2[o + 2]]
    requires q == s3[o + 3 := s3[so + 3]][so + 3 := s3[o + 3]]
    ensures |q| == |p|
    ensures forall c :: 0 <= c < 4 ==> q[o + c] == p[so + Swap(c)] && q[so + c] == p[o + Swap(c)]
    ensures forall k :: 0 <= k < |q| && !(o <= k < o + 4) && !(so <= k < so + 4) ==> q[k] == p[k]
  {
  }

  /** The loop of the source exactly as written: rows y < h/2 are exchanged with their
      mirror rows, and nothing touches the middle row of an odd height. */
  method FlipRowsAsWritten(pixels: array<byte>, w: nat, h: nat)
    requires pixels.Length == 4 * w * h
    modifies pixels
    ensures IsFlip(pixels[..], old(pixels[..]), w, h, false)
  {
    ghost var p := pixels[..];
    RowStartIsProduct(h, w);
    var y: nat := 0;
    while y < h / 2
      invariant y <= h / 2
      invariant forall x: nat, yy: nat, c: nat {:trigger pixels[Idx(x, yy, c, w, h)]} | x < w && yy < h && c < 4 ::
        pixels[Idx(x, yy, c, w, h)] ==
          if yy < y || h - 1 - yy < y then p[Idx(x, h - 1 - yy, Swap(c), w, h)]
          else p[Idx(x, yy, c, w, h)]
    {
      var swapY := h - y - 1;
      var x: nat := 0;
      while x < w
        invariant x <= w
        invariant forall xx: nat, yy: nat, c: nat {:trigger pixels[Idx(xx, yy, c, w, h)]} | xx < w && yy < h && c < 4 ::
          pixels[Idx(xx, yy, c, w, h)] ==
            if yy < y || h - 1 - yy < y || ((yy == y || yy == swapY) && xx < x)
            then p[Idx(xx, h - 1 - yy, Swap(c), w, h)]
            else p[Idx(xx, yy, c, w, h)]
      {
        SwapPixelPair(pixels, w, h, x, y, swapY);
        x := x + 1;
      }
      y := y + 1;
    }
    IsFlipFromRows(pixels[..], p, w, h, false);
  }

  /** The loop's final state, rows below and above the middle exchanged and the middle
      row of an odd height still original, is the flip that leaves that row alone. */
  lemma IsFlipFromRows(q: seq<byte>, p: seq<byte>, w: nat, h: nat, convertMiddle: bool)
    requires |p| == 4 * RowStart(h, w) && |q| == |p|
    requires forall x: nat, yy: nat, c: nat {:trigger q[Idx(x, yy, c, w, h)]} | x < w && yy < h && c < 4 ::
      q[Idx(x, yy, c, w, h)] ==
        if yy < h / 2 || h - 1 - yy < h / 2 then p[Idx(x, h - 1 - yy, Swap(c), w, h)]
        else if convertMiddle then p[Idx(x, yy, Swap(c), w, h)]
        else p[Idx(x, yy, c, w, h)]
    ensures IsFlip(q, p, w, h, convertMiddle)
  {
    RowStartIsProduct(h, w);
    forall x: nat, y: nat, c: nat {:trigger q[Idx(x, y, c, w, h)]} | x < w && y < h && c < 4
      ensures
        q[Idx(x, y, c, w, h)] == p[Idx(x, h - 1 - y, SourceChannel(y, h, c, convertMiddle), w, h)]
    {
      if !(y < h / 2 || h - 1 - y < h / 2) {
        assert 2 * y + 1 == h;
      }
    }
  }

  /** Exchanges the red and blue bytes of pixel (x0, y0) and nothing else. */
  method SwapRedBlue(pixels: array<byte>, w: nat, h: nat, x0: nat, y0: nat)
    requires pixels.Length == 4 * RowStart(h, w) && x0 < w && y0 < h
    modifies pixels
    ensures forall x: nat, y: nat, c: nat {:trigger pixels[Idx(x, y, c, w, h)]} | x < w && y < h && c < 4 ::
      pixels[Idx(x, y, c, w, h)] ==
        if x == x0 && y == y0 then old(pixels[Idx(x0, y0, Swap(c), w, h)])
        else old(pixels[Idx(x, y, c, w, h)])
  {
    var offset := Idx(x0, y0, 0, w, h);
    pixels[offset + 0], pixels[offset + 2] := pixels[offset + 2], pixels[offset + 0];
    forall x: nat, y: nat, c: nat {:trigger pixels[Idx(x, y, c, w, h)]} | x < w && y < h && c < 4
      ensures pixels[Idx(x, y, c, w, h)] ==
        if x == x0 && y == y0 then old(pixels[Idx(x0, y0, Swap(c), w, h)])
        else old(pixels[Idx(x, y, c, w, h)])
    {
      var i := Idx(x, y, c, w, h);
      if offset <= i < offset + 4 {
        IdxInjective(x, y, c, x0, y0, i - offset, w, h);
      }
    }
  }

  /** The flip with the middle row of an odd height converted as well, so that every
      pixel of the saved image has red and blue in the same order. */
  method FlipRows(pixels: array<byte>, w: nat, h: nat)
    requires pixels.Length == 4 * w * h
    modifies pixels
    ensures IsFlip(pixels[..], old(pixels[..]), w, h, true)
  {
    ghost var p := pixels[..];
    RowStartIsProduct(h, w);
    FlipRowsAsWritten(pixels, w, h);
    if h % 2 == 1 {
      var y := h / 2;
      var x: nat := 0;
      while x < w
        invariant x <= w
        invariant forall xx: nat, yy: nat, c: nat {:trigger pixels[Idx(xx, yy, c, w, h)]} | xx < w && yy < h && c < 4 ::
          pixels[Idx(xx, yy, c, w, h)] ==
            if yy != y then p[Idx(xx, h - 1 - yy, Swap(c), w, h)]
            else if xx < x then p[Idx(xx, yy, Swap(c), w, h)]
            else p[Idx(xx, yy, c, w, h)]
      {
        SwapRedBlue(pixels, w, h, x, y);
        x := x + 1;
      }
    }
    IsFlipFromRows(pixels[..], p, w, h, true);
  }

  /** There is only one flip of a buffer, so the relation `IsFlip` pins the result. */
  lemma {:induction false} FlipUnique(q1: seq<byte>, q2: seq<byte>, p: seq<byte>, w: nat, h: nat, m: bool)
    requires IsFlip(q1, p, w, h, m) && IsFlip(q2, p, w, h, m)
    ensures q1 == q2
  {
    RowStartIsProduct(h, w);
    forall i | 0 <= i < |q1|
      ensures q1[i] == q2[i]
    {
      var x, y, c := IdxCover(i, w, h);

    }
  }

  /** Flipping twice gives the original buffer back, with either treatment of the
      middle row. */
  lemma {:induction false} FlipInvolution(p: seq<byte>, q: seq<byte>, r: seq<byte>, w: nat, h: nat, m: bool)
    requires IsFlip(q, p, w, h, m) && IsFlip(r, q, w, h, m)
    ensures r == p
  {
    RowStartIsProduct(h, w);
    forall i | 0 <= i < |r|
      ensures r[i] == p[i]
    {
      var x, y, c := IdxCover(i, w, h);
      var y' := h - 1 - y;
      var c' := SourceChannel(y, h, c, m);

      assert r[Idx(x, y, c, w, h)] == q[Idx(x, y', c', w, h)];
      assert q[Idx(x, y', c', w, h)] == p[Idx(x, h - 1 - y', SourceChannel(y', h, c', m), w, h)];
      assert h - 1 - y' == y;
      assert SourceChannel(y', h, c', m) == c;
    }
  }

  /** For an even height there is no middle row, and the loop as written already converts
      every pixel. */
  lemma {:induction false} EvenHeightFlipConverts(q: seq<byte>, p: seq<byte>, w: nat, h: nat)
    requires h % 2 == 0 && IsFlip(q, p, w, h, false)
    ensures IsFlip(q, p, w, h, true)
  {
    RowStartIsProduct(h, w);
    forall x: nat, y: nat, c: nat {:trigger q[Idx(x, y, c, w, h)]} | x < w && y < h && c < 4
      ensures
        q[Idx(x, y, c, w, h)] == p[Idx(x, h - 1 - y, SourceChannel(y, h, c, true), w, h)]
    {
      assert SourceChannel(y, h, c, false) == Swap(c);
    }
  }

  /** A 1 x 1 window: the loop as written saves the pixel (1, 2, 3, 4) without converting
      it, where every other row of a taller image would have come out as (3, 2, 1, 4). */
  lemma {:induction false} MiddleRowUnconverted(q: seq<byte>)
    requires IsFlip(q, [1, 2, 3, 4], 1, 1, false)
    ensures q == [1, 2, 3, 4]
  {
    assert q[Idx(0, 0, 0, 1, 1)] == 1 && q[Idx(0, 0, 1, 1, 1)] == 2;
    assert q[Idx(0, 0, 2, 1, 1)] == 3 && q[Idx(0, 0, 3, 1, 1)] == 4;
  }

  /** The corrected flip converts the same 1 x 1 window to (3, 2, 1, 4). */
  lemma {:induction false} MiddleRowConverted(q: seq<byte>)
    requires IsFlip(q, [1, 2, 3, 4], 1, 1, true)
    ensures q == [3, 2, 1, 4]
  {
    assert q[Idx(0, 0, 0, 1, 1)] == 3 && q[Idx(0, 0, 1, 1, 1)] == 2;
    assert q[Idx(0, 0, 2, 1, 1)] == 1 && q[Idx(0, 0, 3, 1, 1)] == 4;
  }
}
