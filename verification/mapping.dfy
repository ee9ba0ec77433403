/** The viewport map `mandelMap`: a rectangle [mx0, mx1] x [my0, my1] of the
    complex plane laid over an lx-by-ly pixel grid, the two affine getters
    from pixels to plane coordinates, and the zoom that re-centres the
    rectangle on a pixel and scales its extent. Doubles are modelled as
    exact reals. */
module Mapping {

  /** The whole state of a mandelMap object, as a value. */
  datatype Viewport = Viewport(mx0: real, mx1: real, my0: real, my1: real, lx: int, ly: int)

  /** The getters divide by the grid size, so it must be non-zero. */
  predicate HasGrid(v: Viewport)
  {
    v.lx > 0 && v.ly > 0
  }

  /** The classical framing the constructor starts from: x in [-2.5, 1], y in [-1, 1]. */
  function InitialViewport(width: int, height: int): Viewport
  {
    Viewport(-2.5, 1.0, -1.0, 1.0, width, height)
  }

  /** With slope k = (hi - lo) / n, the point k * t + lo is lo at t = 0, hi
      at t = n, and lies between lo and hi for t from 0 to n. */
  lemma SlopeBounds(k: real, lo: real, hi: real, n: real, t: real)
    requires n > 0.0 && k == (hi - lo) / n
    ensures t == 0.0 ==> k * t + lo == lo
    ensures t == n ==> k * t + lo == hi
    ensures 0.0 <= t <= n && lo <= hi ==> lo <= k * t + lo <= hi
  {
    assert k * n == hi - lo;
    if 0.0 <= t <= n && lo <= hi {
      assert k >= 0.0;
      assert k * t <= k * n;
    }
  }

  /** Plane x coordinate of pixel column px (the getter `x`): column 0 is the
      left edge, column lx the right edge, and every column in between lands
      inside a well-ordered rectangle. */
  function PlaneX(v: Viewport, px: int): (r: real)
    requires HasGrid(v)
    ensures px == 0 ==> r == v.mx0
    ensures px == v.lx ==> r == v.mx1
    ensures 0 <= px <= v.lx && v.mx0 <= v.mx1 ==> v.mx0 <= r <= v.mx1
  {
    var k := (v.mx1 - v.mx0) / v.lx as real;
    SlopeBounds(k, v.mx0, v.mx1, v.lx as real, px as real);
    k * px as real + v.mx0
  }

  /** Plane y coordinate of pixel row py (the getter `y`): row 0 is the low
      edge, row ly the high edge, and every row in between lands inside a
      well-ordered rectangle. */
  function PlaneY(v: Viewport, py: int): (r: real)
    requires HasGrid(v)
    ensures py == 0 ==> r == v.my0
    ensures py == v.ly ==> r == v.my1
    ensures 0 <= py <= v.ly && v.my0 <= v.my1 ==> v.my0 <= r <= v.my1
  {
    var k := (v.my1 - v.my0) / v.ly as real;
    SlopeBounds(k, v.my0, v.my1, v.ly as real, py as real);
    k * py as real + v.my0
  }

  /** r has the grid of v and the extents of v times s. */
  predicate Scaled(v: Viewport, r: Viewport, s: real)
  {
    && r.lx == v.lx && r.ly == v.ly
    && r.mx1 - r.mx0 == (v.mx1 - v.mx0) * s
    && r.my1 - r.my0 == (v.my1 - v.my0) * s
  }

  /** The centre of r is the plane point (cx, cy). */
  predicate CentredOn(r: Viewport, cx: real, cy: real)
  {
    (r.mx0 + r.mx1) / 2.0 == cx && (r.my0 + r.my1) / 2.0 == cy
  }

  /** Bounds a < b whose distance is the extent hi - lo scaled by s are well
      ordered when lo < hi and the factor s is positive. */
  lemma ScaledOrder(lo: real, hi: real, s: real, a: real, b: real)
    requires b - a == (hi - lo) * s
    ensures s > 0.0 && lo < hi ==> a < b
  {
    if s > 0.0 && lo < hi {
      assert (hi - lo) * s > 0.0;
    }
  }

  /** The rectangle after zooming about pixel (px, py) by factor s: the new
      rectangle is centred on the anchor's old plane point, its extents are
      the old ones times s, the grid is untouched, and a positive factor
      keeps a well-ordered rectangle well-ordered. */
  function Zoomed(v: Viewport, px: int, py: int, s: real): (r: Viewport)
    requires HasGrid(v)
    ensures Scaled(v, r, s)
    ensures CentredOn(r, PlaneX(v, px), PlaneY(v, py))
    ensures s > 0.0 && v.mx0 < v.mx1 ==> r.mx0 < r.mx1
    ensures s > 0.0 && v.my0 < v.my1 ==> r.my0 < r.my1
  {
    var xt := PlaneX(v, px);
    var yt := PlaneY(v, py);
    var dxt := (v.mx1 - v.mx0) * s;
    var dyt := (v.my1 - v.my0) * s;
    ScaledOrder(v.mx0, v.mx1, s, xt - dxt / 2.0, xt + dxt / 2.0);
    ScaledOrder(v.my0, v.my1, s, yt - dyt / 2.0, yt + dyt / 2.0);
    v.(mx0 := xt - dxt / 2.0, mx1 := xt + dxt / 2.0, my0 := yt - dyt / 2.0, my1 := yt + dyt / 2.0)
  }

  /** The getters are affine: the plane distance between two pixels is the
      pixel distance times the width of one pixel. */
  lemma PlaneAffine(v: Viewport, p: int, q: int)
    requires HasGrid(v)
    ensures PlaneX(v, q) - PlaneX(v, p) == (v.mx1 - v.mx0) * (q - p) as real / v.lx as real
    ensures PlaneY(v, q) - PlaneY(v, p) == (v.my1 - v.my0) * (q - p) as real / v.ly as real
  {
    SlopeDifference(v.mx1 - v.mx0, v.lx as real, v.mx0, p as real, q as real);
    SlopeDifference(v.my1 - v.my0, v.ly as real, v.my0, p as real, q as real);
  }

  /** Two points on the line t |-> (d / n) * t + a differ by d * (q - p) / n. */
  lemma SlopeDifference(d: real, n: real, a: real, p: real, q: real)
    requires n > 0.0
    ensures ((d / n) * q + a) - ((d / n) * p + a) == d * (q - p) / n
  {
    var k := d / n;
    assert k * q - k * p == k * (q - p);
    assert k * (q - p) == d * (q - p) / n;
  }

  /** On a well-ordered rectangle both getters are strictly increasing. */
  lemma PlaneIncreasing(v: Viewport, p: int, q: int)
    requires HasGrid(v)
    requires p < q
    ensures v.mx0 < v.mx1 ==> PlaneX(v, p) < PlaneX(v, q)
    ensures v.my0 < v.my1 ==> PlaneY(v, p) < PlaneY(v, q)
  {
    if v.mx0 < v.mx1 {
      var k := (v.mx1 - v.mx0) / v.lx as real;
      assert k > 0.0;
      SlopeIncreasing(k, v.mx0, p as real, q as real, PlaneX(v, p), PlaneX(v, q));
    }
    if v.my0 < v.my1 {
      var k := (v.my1 - v.my0) / v.ly as real;
      assert k > 0.0;
      SlopeIncreasing(k, v.my0, p as real, q as real, PlaneY(v, p), PlaneY(v, q));
    }
  }

  /** A line with positive slope k is strictly increasing: fp and fq, its
      values at p < q, satisfy fp < fq. */
  lemma SlopeIncreasing(k: real, a: real, p: real, q: real, fp: real, fq: real)
    requires k > 0.0 && p < q
    requires fp == k * p + a && fq == k * q + a
    ensures fp < fq
  {
    assert k * q - k * p == k * (q - p);
  }

  /** Zooming by 1 keeps both extents and only re-centres on the anchor. */
  lemma ZoomByOneRecentres(v: Viewport, px: int, py: int)
    requires HasGrid(v)
    ensures var r := Zoomed(v, px, py, 1.0);
      && r.mx1 - r.mx0 == v.mx1 - v.mx0 && r.my1 - r.my0 == v.my1 - v.my0
      && (r.mx0 + r.mx1) / 2.0 == PlaneX(v, px) && (r.my0 + r.my1) / 2.0 == PlaneY(v, py)
  {
  }

  /** A rectangle is determined by its grid, its centre and its extents. */
  lemma DeterminedByCentreAndExtent(a: Viewport, b: Viewport)
    requires a.lx == b.lx && a.ly == b.ly
    requires a.mx1 - a.mx0 == b.mx1 - b.mx0 && a.my1 - a.my0 == b.my1 - b.my0
    requires a.mx0 + a.mx1 == b.mx0 + b.mx1 && a.my0 + a.my1 == b.my0 + b.my1
    ensures a == b
  {
  }

  /** Two zooms compose: zooming by s1 about a pixel and then by s2 about a
      pixel that shows the same plane point equals one zoom by s1 * s2. */
  lemma ZoomCompose(v: Viewport, px: int, py: int, s1: real, qx: int, qy: int, s2: real)
    requires HasGrid(v)
    requires PlaneX(Zoomed(v, px, py, s1), qx) == PlaneX(v, px)
    requires PlaneY(Zoomed(v, px, py, s1), qy) == PlaneY(v, py)
    ensures Zoomed(Zoomed(v, px, py, s1), qx, qy, s2) == Zoomed(v, px, py, s1 * s2)
  {
    var once := Zoomed(v, px, py, s1);
    var twice := Zoomed(once, qx, qy, s2);
    var direct := Zoomed(v, px, py, s1 * s2);
    ComposedRectangles(v, once, twice, direct, s1, s2, PlaneX(v, px), PlaneY(v, py));
  }

  /** The rectangle-level argument behind ZoomCompose: `once` is v scaled by
      s1, `twice` is `once` scaled by s2, `direct` is v scaled by s1 * s2, and
      `twice` and `direct` have the same centre; then they are the same
      rectangle. */
  lemma ComposedRectangles(v: Viewport, once: Viewport, twice: Viewport, direct: Viewport,
                           s1: real, s2: real, cx: real, cy: real)
    requires Scaled(v, once, s1) && Scaled(once, twice, s2) && Scaled(v, direct, s1 * s2)
    requires CentredOn(twice, cx, cy) && CentredOn(direct, cx, cy)
    ensures twice == direct
  {
    assert (v.mx1 - v.mx0) * s1 * s2 == (v.mx1 - v.mx0) * (s1 * s2);
    assert (v.my1 - v.my0) * s1 * s2 == (v.my1 - v.my0) * (s1 * s2);
    DeterminedByCentreAndExtent(twice, direct);
  }

  /** The mandelMap object: the plane rectangle is updated in place by Zoom,
      the grid size is fixed at construction. */
  class MandelMap {
    var mx0: real
    var mx1: real
    var my0: real
    var my1: real
    const lx: int
    const ly: int

    /** The object's fields as a Viewport value. */
    function State(): Viewport
      reads this
    {
      Viewport(mx0, mx1, my0, my1, lx, ly)
    }

    constructor (x: int, y: int)
      ensures State() == InitialViewport(x, y)
    {
      mx0 := -2.5;
      mx1 := 1.0;
      my0 := -1.0;
      my1 := 1.0;
      lx := x;
      ly := y;
    }

    /** The getter `x`: column 0 shows mx0, column lx shows mx1, and the
        columns in between stay inside a well-ordered rectangle. */
    function X(px: int): (r: real)
      reads this
      requires HasGrid(State())
      ensures px == 0 ==> r == mx0
      ensures px == lx ==> r == mx1
      ensures 0 <= px <= lx && mx0 <= mx1 ==> mx0 <= r <= mx1
    {
      PlaneX(State(), px)
    }

    /** The getter `y`: row 0 shows my0, row ly shows my1, and the rows in
        between stay inside a well-ordered rectangle. */
    function Y(py: int): (r: real)
      reads this
      requires HasGrid(State())
      ensures py == 0 ==> r == my0
      ensures py == ly ==> r == my1
      ensures 0 <= py <= ly && my0 <= my1 ==> my0 <= r <= my1
    {
      PlaneY(State(), py)
    }

    /** Zoom about pixel (x, y) by factor s, reassigning the four bounds. */
    method Zoom(x: int, y: int, s: real)
      requires HasGrid(State())
      modifies this
      ensures State() == Zoomed(old(State()), x, y, s)
    {
      var xt := X(x);
      var yt := Y(y);
      var dxt := (mx1 - mx0) * s;
      var dyt := (my1 - my0) * s;
      mx0 := xt - dxt / 2.0;
      mx1 := xt + dxt / 2.0;
      my0 := yt - dyt / 2.0;
      my1 := yt + dyt / 2.0;
    }
  }
}
