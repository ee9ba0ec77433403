/** Escape-time evaluation of one point of the complex plane: the inner
    `while` loop of drawMandel, which iterates z := z^2 + c from z = 0 on
    separate real and imaginary parts until |z| reaches 2 or the iteration
    cap is hit. Doubles are modelled as exact reals. */
module Escape {

  /** The iteration cap drawMandel uses for every pixel. */
  const MaxIterations: nat := 255

  /** A point of the complex plane, kept as its two real components. */
  datatype Point = Point(re: real, im: real)

  const Origin: Point := Point(0.0, 0.0)

  /** Squared modulus |z|^2. */
  function Mag2(z: Point): real
  {
    z.re * z.re + z.im * z.im
  }

  /** One step of the recurrence z := z^2 + c, component by component. */
  function Step(z: Point, c: Point): Point
  {
    Point(z.re * z.re - z.im * z.im + c.re, 2.0 * z.re * z.im + c.im)
  }

  /** Reference definition: the k-th element of the orbit of 0 under z := z^2 + c. */
  function Orbit(c: Point, k: nat): Point
  {
    if k == 0 then Origin else Step(Orbit(c, k - 1), c)
  }

  /** The loop of drawMandel run from state (z, itn): it keeps stepping while
      |z|^2 < 4 and itn < maxIter, and yields the final value of itn. */
  function Iterate(z: Point, c: Point, itn: nat, maxIter: nat): (n: nat)
    requires itn <= maxIter
    ensures itn <= n <= maxIter
    decreases maxIter - itn
  {
    if Mag2(z) < 4.0 && itn < maxIter then Iterate(Step(z, c), c, itn + 1, maxIter) else itn
  }

  /** One pass of the loop body, written on the loop's own variables. */
  lemma IterateStep(x: real, y: real, x0: real, y0: real, itn: nat, maxIter: nat)
    requires x * x + y * y < 2.0 * 2.0 && itn < maxIter
    ensures Iterate(Point(x * x - y * y + x0, 2.0 * x * y + y0), Point(x0, y0), itn + 1, maxIter)
         == Iterate(Point(x, y), Point(x0, y0), itn, maxIter)
  {
    assert Step(Point(x, y), Point(x0, y0)) == Point(x * x - y * y + x0, 2.0 * x * y + y0);
  }

  /** Once the loop guard fails, the loop yields the current count. */
  lemma IterateExit(x: real, y: real, x0: real, y0: real, itn: nat, maxIter: nat)
    requires itn <= maxIter
    requires !(x * x + y * y < 2.0 * 2.0 && itn < maxIter)
    ensures Iterate(Point(x, y), Point(x0, y0), itn, maxIter) == itn
  {
  }

  /** The escape count of c = (x0, y0): the loop started from z = 0, itn = 0.
      It never exceeds the cap, and with a positive cap it is at least 1,
      because the first test is made on |0|^2 = 0 < 4. */
  function EscapeCount(x0: real, y0: real, maxIter: nat): (n: nat)
    ensures n <= maxIter
    ensures maxIter > 0 ==> n >= 1
  {
    Iterate(Origin, Point(x0, y0), 0, maxIter)
  }

  /** n is the index of the first orbit element with |z|^2 >= 4, or the cap
      when no element before the cap escapes. */
  ghost predicate IsFirstEscape(c: Point, maxIter: nat, n: nat)
  {
    && n <= maxIter
    && (forall j :: 0 <= j < n ==> Mag2(Orbit(c, j)) < 4.0)
    && (n < maxIter ==> Mag2(Orbit(c, n)) >= 4.0)
  }

  /** Run from the k-th orbit element, the loop stops exactly at the first
      escaping orbit element at or after k (or at the cap). */
  lemma {:induction false} IterateFollowsOrbit(c: Point, k: nat, maxIter: nat)
    requires k <= maxIter
    ensures var n := Iterate(Orbit(c, k), c, k, maxIter);
      && (forall j :: k <= j < n ==> Mag2(Orbit(c, j)) < 4.0)
      && (n < maxIter ==> Mag2(Orbit(c, n)) >= 4.0)
    decreases maxIter - k
  {
    if Mag2(Orbit(c, k)) < 4.0 && k < maxIter {
      assert Orbit(c, k + 1) == Step(Orbit(c, k), c);
      IterateFollowsOrbit(c, k + 1, maxIter);
    }
  }

  /** At most one index is the first escape of an orbit. */
  lemma FirstEscapeUnique(c: Point, maxIter: nat, n1: nat, n2: nat)
    requires IsFirstEscape(c, maxIter, n1) && IsFirstEscape(c, maxIter, n2)
    ensures n1 == n2
  {
  }

  /** The escape count is exactly the first-escape index of the orbit: both
      directions, so the first-escape property determines the count. */
  lemma EscapeCountIsFirstEscape(x0: real, y0: real, maxIter: nat, n: nat)
    ensures IsFirstEscape(Point(x0, y0), maxIter, n) <==> n == EscapeCount(x0, y0, maxIter)
  {
    var c := Point(x0, y0);
    var e := EscapeCount(x0, y0, maxIter);
    IterateFollowsOrbit(c, 0, maxIter);
    assert IsFirstEscape(c, maxIter, e);
    if IsFirstEscape(c, maxIter, n) {
      FirstEscapeUnique(c, maxIter, n, e);
    }
  }

  lemma {:induction false} OriginIsFixed(k: nat)
    ensures Orbit(Origin, k) == Origin
  {
    if k > 0 {
      OriginIsFixed(k - 1);
    }
  }

  /** c = 0 never escapes: its count is always the cap. */
  lemma OriginNeverEscapes(maxIter: nat)
    ensures EscapeCount(0.0, 0.0, maxIter) == maxIter
  {
    var n := EscapeCount(0.0, 0.0, maxIter);
    EscapeCountIsFirstEscape(0.0, 0.0, maxIter, n);
    OriginIsFixed(n);
    assert Mag2(Orbit(Origin, n)) == 0.0;
  }

  /** A point with |c|^2 >= 4, such as (2, 2), escapes after exactly one step. */
  lemma FarPointEscapesAtOnce(x0: real, y0: real, maxIter: nat)
    requires maxIter > 0
    requires x0 * x0 + y0 * y0 >= 4.0
    ensures EscapeCount(x0, y0, maxIter) == 1
  {
    var c := Point(x0, y0);
    var n := EscapeCount(x0, y0, maxIter);
    EscapeCountIsFirstEscape(x0, y0, maxIter, n);
    assert Orbit(c, 1) == c;
  }

  /** The escape-time loop of drawMandel (engine.js:95-115), extracted: its
      result is the escape count of (x0, y0). */
  method EscapeTime(x0: real, y0: real, maxIterations: nat) returns (itn: nat)
    ensures itn == EscapeCount(x0, y0, maxIterations)
  {
    itn := 0;
    var x: real := 0.0;
    var y: real := 0.0;
    while x * x + y * y < 2.0 * 2.0 && itn < maxIterations
      invariant itn <= maxIterations
      invariant Iterate(Point(x, y), Point(x0, y0), itn, maxIterations) == EscapeCount(x0, y0, maxIterations)
      decreases maxIterations - itn
    {
      IterateStep(x, y, x0, y0, itn, maxIterations);
      var temp := x * x - y * y + x0;
      y := 2.0 * x * y + y0;
      x := temp;
      itn := itn + 1;
    }
    IterateExit(x, y, x0, y0, itn, maxIterations);
  }
}
