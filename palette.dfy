/**
 * The colour index of an escaped pixel in `draw_mandel_pixel`. The index takes the
 * iteration count modulo the palette's size in bytes and then divides by the size
 * of one entry. C groups `%` and `/` to the left, so the index is
 * (iterations % (Size * s)) / s with s = sizeof(int), not iterations % Size.
 */
module Palette {
  import Arith

  /** Entries in `mandle_palette`. */
  const Size := 7

  /** sizeof(int) on the camera's 32-bit target. */
  const IntBytes := 4

  /** The index expression for an `int` of s bytes. */
  function IndexFor(iterations: nat, s: nat): (k: nat)
    requires s > 0
    ensures k < Size
  {
    Arith.MulLt(iterations % (Size * s) / s, Size, s);
    (iterations % (Size * s)) / s
  }

  /** The index the source computes: (iterations % 28) / 4, always a valid index. */
  function Index(iterations: nat): (k: nat)
    ensures k < Size
  {
    IndexFor(iterations, IntBytes)
  }

  /** Reference definition: the colour advances once every s iterations and cycles
      through the Size entries. */
  lemma {:induction false} IndexBands(iterations: nat, s: nat)
    requires s > 0
    ensures IndexFor(iterations, s) == (iterations / s) % Size
  {
    var q, r := iterations / (Size * s), iterations % (Size * s);
    var b, e := r / s, r % s;
    assert iterations == q * (Size * s) + r;
    assert r == b * s + e;
    assert b < Size;
    assert iterations == (q * Size + b) * s + e;
    Arith.DivModUnique(iterations, s, q * Size + b, e);
    Arith.DivModUnique(q * Size + b, Size, q, b);
  }

  /** The colours repeat every Size * s iterations (28 on the target). */
  lemma IndexPeriodic(iterations: nat, s: nat)
    requires s > 0
    ensures IndexFor(iterations + Size * s, s) == IndexFor(iterations, s)
  {
    IndexBands(iterations, s);
    IndexBands(iterations + Size * s, s);
    Arith.DivModUnique(iterations + Size * s, s, iterations / s + Size, iterations % s);
    Arith.DivModUnique(iterations / s + Size, Size, iterations / s / Size + 1, (iterations / s) % Size);
  }

  /** All s iterations of one band get the same colour (4 on the target). */
  lemma IndexConstantOnBand(q: nat, e: nat, s: nat)
    requires 0 <= e < s
    ensures IndexFor(q * s + e, s) == IndexFor(q * s, s)
  {
    IndexBands(q * s + e, s);
    IndexBands(q * s, s);
    Arith.DivModUnique(q * s + e, s, q, e);
    Arith.DivModUnique(q * s, s, q, 0);
  }

  /** Unlike `iterations % Size`, consecutive iteration counts can share a colour. */
  lemma IndexIsNotModSize()
    ensures Index(1) == Index(0) && 1 % Size != 0 % Size
  {
  }
}
