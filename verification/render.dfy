/** The render scan `drawMandel`: every pixel (i, j) of a width-by-height
    frame is mapped to the plane, its escape count n is evaluated, and
    (n, n, n, 255) is blitted into a fresh ImageData buffer. */
module Render {
  import opened Escape
  import opened Mapping
  import opened FrameBuffer

  /** The grey colour that encodes escape count n. */
  function Shade(n: int): Rgba
  {
    Rgba(n, n, n, 255)
  }

  /** The escape count drawMandel computes for pixel (i, j) of viewport v. */
  function PixelCount(v: Viewport, i: int, j: int): nat
    requires HasGrid(v)
  {
    EscapeCount(PlaneX(v, i), PlaneY(v, j), MaxIterations)
  }

  /** s is a complete frame of viewport v: the buffer has 4 * w * h slots and
      every pixel holds the grey shade of its escape count. */
  ghost predicate Rendered(s: seq<int>, v: Viewport, w: int, h: int)
  {
    && HasGrid(v) && w >= 0 && h >= 0
    && |s| == 4 * w * h
    && forall i, j :: 0 <= i < w && 0 <= j < h ==> PixelAt(s, w, h, i, j) == Shade(PixelCount(v, i, j))
  }

  /** A frame is a function of the viewport and the frame size alone: two
      complete renders of the same viewport are identical, slot for slot. */
  lemma RenderedIsUnique(s1: seq<int>, s2: seq<int>, v: Viewport, w: nat, h: nat)
    requires Rendered(s1, v, w, h) && Rendered(s2, v, w, h)
    ensures s1 == s2
  {
    forall k | 0 <= k < |s1|
      ensures s1[k] == s2[k]
    {
      SlotOwner(w, h, k);
      var i, j := (k / 4) % w, (k / 4) / w;
      assert PixelAt(s1, w, h, i, j) == PixelAt(s2, w, h, i, j);
    }
  }

  /** Every slot of a complete frame is a byte, so the clamping an
      8-bit clamped store would apply never changes a value. */
  lemma RenderedIsBytes(s: seq<int>, v: Viewport, w: nat, h: nat)
    requires Rendered(s, v, w, h)
    ensures forall k :: 0 <= k < |s| ==> 0 <= s[k] <= 255
  {
    forall k | 0 <= k < |s|
      ensures 0 <= s[k] <= 255
    {
      SlotOwner(w, h, k);
      var i, j := (k / 4) % w, (k / 4) / w;
      assert PixelAt(s, w, h, i, j) == Shade(PixelCount(v, i, j));
    }
  }

  /** Two samples of the first frame of the 700-by-400 page: the top-left
      pixel shows (-2.5, -1), outside the radius-2 disc, and is dark (count
      1); pixel (500, 200) shows the origin, which never escapes, and is
      white (count 255). */
  lemma FirstFrameSamples(s: seq<int>)
    requires Rendered(s, InitialViewport(700, 400), 700, 400)
    ensures PixelAt(s, 700, 400, 0, 0) == Shade(1)
    ensures PixelAt(s, 700, 400, 500, 200) == Shade(255)
  {
    var v := InitialViewport(700, 400);
    assert PlaneX(v, 0) == -2.5 && PlaneY(v, 0) == -1.0;
    FarPointEscapesAtOnce(-2.5, -1.0, MaxIterations);
    assert PlaneX(v, 500) == 0.0 && PlaneY(v, 200) == 0.0;
    OriginNeverEscapes(MaxIterations);
  }

  /** drawMandel: scan the rows j and, within each, the columns i, blitting
      the shade of each pixel's escape count into a fresh buffer. The result
      is the complete frame of the mapping's current viewport; the mapping
      itself is only read. */
  method DrawMandel(mapping: MandelMap, width: nat, height: nat) returns (iD: ImageData)
    requires HasGrid(mapping.State())
    ensures fresh(iD) && fresh(iD.data) && iD.Valid()
    ensures iD.width == width && iD.height == height
    ensures unchanged(mapping)
    ensures Rendered(iD.data[..], mapping.State(), width, height)
  {
    iD := new ImageData(width, height);
    var j := 0;
    while j < height
      invariant 0 <= j <= height
      invariant forall i2, j2 :: 0 <= i2 < width && 0 <= j2 < j ==>
        PixelAt(iD.data[..], width, height, i2, j2) == Shade(PixelCount(mapping.State(), i2, j2))
    {
      var i := 0;
      while i < width
        invariant 0 <= i <= width
        invariant forall i2, j2 :: 0 <= i2 < width && 0 <= j2 < j ==>
          PixelAt(iD.data[..], width, height, i2, j2) == Shade(PixelCount(mapping.State(), i2, j2))
        invariant forall i2 :: 0 <= i2 < i ==>
          PixelAt(iD.data[..], width, height, i2, j) == Shade(PixelCount(mapping.State(), i2, j))
      {
        var itn := EscapeTime(mapping.X(i), mapping.Y(j), MaxIterations);
        Blit(iD, i, j, itn, itn, itn, 255);
        i := i + 1;
      }
      j := j + 1;
    }
  }
}
