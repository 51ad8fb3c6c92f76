/**
 * The escape-time test of `draw_mandel_pixel`: iterate z <- z^2 + c from
 * z = 0 and report the first iteration whose result leaves the disc of
 * radius 2, or that the point stayed inside for `max_iterations` steps.
 * The source computes in single-precision floats; this model computes
 * exactly, over `real`.
 */
module Kernel {

  /** A point of the complex plane, c = re + im*i. */
  datatype Point = Point(re: real, im: real)

  /** One step of the recurrence, written as the loop body writes it:
      (a + bi)^2 + c = (a*a - b*b + c.re) + (2*a*b + c.im)i. */
  function Iterate(z: Point, c: Point): Point
  {
    Point(z.re * z.re - z.im * z.im + c.re, 2.0 * z.re * z.im + c.im)
  }

  function MagnitudeSquared(z: Point): real
  {
    z.re * z.re + z.im * z.im
  }

  /** The loop's exit test: |z|^2 > 4, compared without a square root. */
  predicate Outside(z: Point)
  {
    MagnitudeSquared(z) > 4.0
  }

  /** z_n, the value after n steps from z_0 = 0. */
  function Orbit(c: Point, n: nat): Point
  {
    if n == 0 then Point(0.0, 0.0) else Iterate(Orbit(c, n - 1), c)
  }

  /** The exit test fires in loop iteration j (counted from 0), which computes z_(j+1). */
  predicate EscapesAt(c: Point, j: nat)
  {
    Outside(Orbit(c, j + 1))
  }

  /** What the loop reports: `inset` stays 1, or the iteration at which it broke out. */
  datatype Outcome = InSet | Escaped(iterations: nat)

  /** The loop from iteration i on, with z the value z_i. */
  function EscapeFrom(c: Point, z: Point, i: nat, maxIterations: int): (r: Outcome)
    ensures r.Escaped? ==> i <= r.iterations < maxIterations
    decreases maxIterations - i
  {
    if i >= maxIterations then InSet
    else
      var z' := Iterate(z, c);
      if Outside(z') then Escaped(i) else EscapeFrom(c, z', i + 1, maxIterations)
  }

  /** The classification of point c with a budget of maxIterations steps. */
  function Classify(c: Point, maxIterations: int): Outcome
  {
    EscapeFrom(c, Point(0.0, 0.0), 0, maxIterations)
  }

  lemma {:induction false} EscapeFromEscaped(c: Point, i: nat, maxIterations: int, n: nat)
    ensures EscapeFrom(c, Orbit(c, i), i, maxIterations) == Escaped(n) <==>
            i <= n < maxIterations && EscapesAt(c, n) &&
            forall j :: i <= j < n ==> !EscapesAt(c, j)
    decreases maxIterations - i
  {
    if i < maxIterations && !EscapesAt(c, i) {
      EscapeFromEscaped(c, i + 1, maxIterations, n);
    }
  }

  lemma {:induction false} EscapeFromInSet(c: Point, i: nat, maxIterations: int)
    ensures EscapeFrom(c, Orbit(c, i), i, maxIterations) == InSet <==>
            forall j :: i <= j < maxIterations ==> !EscapesAt(c, j)
    decreases maxIterations - i
  {
    if i < maxIterations && !EscapesAt(c, i) {
      EscapeFromInSet(c, i + 1, maxIterations);
    }
  }

  /** An escape is reported at iteration n exactly when n is within the budget, the
      test fires at n, and it fired at no earlier iteration. */
  lemma ClassifyEscaped(c: Point, maxIterations: int, n: nat)
    ensures Classify(c, maxIterations) == Escaped(n) <==>
            n < maxIterations && EscapesAt(c, n) &&
            forall j :: 0 <= j < n ==> !EscapesAt(c, j)
  {
    EscapeFromEscaped(c, 0, maxIterations, n);
  }

  /** A point is reported in the set exactly when no iteration within the budget escapes. */
  lemma ClassifyInSet(c: Point, maxIterations: int)
    ensures Classify(c, maxIterations) == InSet <==>
            forall j :: 0 <= j < maxIterations ==> !EscapesAt(c, j)
  {
    EscapeFromInSet(c, 0, maxIterations);
  }

  /** From z = 0 the recurrence for c = 0 stays at 0, so no iteration escapes. */
  lemma {:induction false} OriginStays(i: nat, maxIterations: int)
    ensures EscapeFrom(Point(0.0, 0.0), Point(0.0, 0.0), i, maxIterations) == InSet
    decreases maxIterations - i
  {
    if i < maxIterations {
      assert Iterate(Point(0.0, 0.0), Point(0.0, 0.0)) == Point(0.0, 0.0);
      OriginStays(i + 1, maxIterations);
    }
  }

  /** c = 0 is a fixed point of the recurrence, so it is in the set for every budget. */
  lemma OriginInSet(maxIterations: int)
    ensures Classify(Point(0.0, 0.0), maxIterations) == InSet
  {
    OriginStays(0, maxIterations);
  }

  /** A point already outside the disc escapes in the first iteration (z_1 = c). */
  lemma FarPointEscapesAtOnce(c: Point, maxIterations: int)
    requires Outside(c) && maxIterations >= 1
    ensures Classify(c, maxIterations) == Escaped(0)
  {
    assert Orbit(c, 1) == c;
  }

  lemma ThreeThreeEscapesAtOnce(maxIterations: int)
    requires maxIterations >= 1
    ensures Classify(Point(3.0, 3.0), maxIterations) == Escaped(0)
  {
    FarPointEscapesAtOnce(Point(3.0, 3.0), maxIterations);
  }

  /** Raising the budget (as every zoom does) keeps every escape count and can only
      move points out of the set, never into it. */
  lemma MoreIterations(c: Point, m: int, m': int)
    requires m <= m'
    ensures Classify(c, m).Escaped? ==> Classify(c, m') == Classify(c, m)
    ensures Classify(c, m') == InSet ==> Classify(c, m) == InSet
  {
    match Classify(c, m)
    case Escaped(n) =>
      ClassifyEscaped(c, m, n);
      ClassifyEscaped(c, m', n);
    case InSet =>
      ClassifyInSet(c, m);
      ClassifyInSet(c, m');
  }

  /**
   * The escape loop of `draw_mandel_pixel`. On leaving, `iterations` holds the
   * iteration that broke out, or the loop bound when the point stayed inside.
   */
  method EscapeTime(c: Point, maxIterations: int) returns (inset: bool, iterations: int)
    ensures inset <==> Classify(c, maxIterations) == InSet
    ensures !inset ==> iterations >= 0 && Classify(c, maxIterations) == Escaped(iterations)
    ensures inset ==> iterations == if maxIterations > 0 then maxIterations else 0
  {
    var z, zi := 0.0, 0.0;
    inset := true;
    iterations := 0;
    while iterations < maxIterations
      invariant 0 <= iterations && (iterations <= maxIterations || iterations == 0)
      invariant inset
      invariant Classify(c, maxIterations) == EscapeFrom(c, Point(z, zi), iterations, maxIterations)
      decreases maxIterations - iterations
    {
      var next := Iterate(Point(z, zi), c);
      z, zi := next.re, next.im;
      if Outside(Point(z, zi)) {
        inset := false;
        break;
      }
      iterations := iterations + 1;
    }
  }
}
