/** Value types shared by the modules of the snowball game model. */
module Common {

  /** An `unsigned char` of the source (pixel and height-map bytes). */
  newtype byte = x: int | 0 <= x < 256

  /** A `glm::vec3` of `GLfloat`s, modelled with exact reals. */
  datatype Vec3 = Vec3(x: real, y: real, z: real)
  {
    function Plus(o: Vec3): Vec3 { Vec3(x + o.x, y + o.y, z + o.z) }
    function Scale(k: real): Vec3 { Vec3(k * x, k * y, k * z) }
    function Minus(o: Vec3): Vec3 { Vec3(x - o.x, y - o.y, z - o.z) }
    function Dot(o: Vec3): real { x * o.x + y * o.y + z * o.z }
    /** `glm::cross`. */
    function Cross(o: Vec3): Vec3 { Vec3(y * o.z - z * o.y, z * o.x - x * o.z, x * o.y - y * o.x) }
  }

  const Zero3 := Vec3(0.0, 0.0, 0.0)

  /** The process exit codes the game's fatal errors use. */
  const AllocationFailed: nat := 1
  const IllegalSize: nat := 2

  datatype Option<T> = None | Some(value: T)

  /** The outcome of an operation that can fail: a value, or the source's error value. */
  datatype Result<T, E> = Ok(value: T) | Err(error: E)

  function Max0(n: int): (r: nat)
    ensures n >= 0 ==> r == n
    ensures n < 0 ==> r == 0
  {
    if n < 0 then 0 else n
  }

  /** C's conversion of a non-negative floating-point value to an unsigned integer:
      truncation toward zero, which for a non-negative value is the floor. In-range
      values in (-1, 0) also truncate to 0; anything further below is undefined behaviour. */
  function TruncToNat(v: real): (n: nat)
    requires v > -1.0
    ensures n as real <= v + 1.0 && (v >= 0.0 ==> n as real <= v < n as real + 1.0)
    ensures v < 1.0 ==> n == 0
  {
    if v < 0.0 then 0 else v.Floor
  }

  /** Number of cells stored before row `y` of a row-major grid `w` cells wide: the
      `y * width` of an index `y * width + x`, built up row by row. */
  function RowStart(y: nat, w: nat): (k: nat)
  {
    if y == 0 then 0 else RowStart(y - 1, w) + w
  }

  lemma {:induction false} RowStartIsProduct(h: nat, w: nat)
    ensures RowStart(h, w) == h * w && 4 * RowStart(h, w) == 4 * w * h
  {
    if h > 0 {
      RowStartIsProduct(h - 1, w);
      assert h * w == (h - 1) * w + w;
    }
  }

  lemma MulMonotone(a: int, b: int, c: nat)
    requires a <= b
    ensures a * c <= b * c
  {
    assert b * c - a * c == (b - a) * c;
  }

  /** Division by the row width recovers the row and the column of `h * width + w`. */
  lemma RowDivMod(h: nat, w: nat, width: nat)
    ensures w < width ==> (h * width + w) / width == h && (h * width + w) % width == w
  {
    if w < width {
      var i := h * width + w;
      var q, r := i / width, i % width;
      assert i == q * width + r && 0 <= r < width;
      if q > h {
        MulMonotone(h + 1, q, width);
      }
      if q < h {
        MulMonotone(q + 1, h, width);
      }
    }
  }

  /** Rows are laid out one after another: a later row starts after the whole row `y`. */
  lemma {:induction false} RowStartMonotone(y: nat, y': nat, w: nat)
    requires y < y'
    ensures RowStart(y, w) + w <= RowStart(y', w)
  {
    if y + 1 < y' {
      RowStartMonotone(y, y' - 1, w);
    }
  }
}
