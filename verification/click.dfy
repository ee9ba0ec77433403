/** The page-level state and the click handler `canvasClick`. The globals of
    the page (the mapping, the frame size, and what the canvas shows) become
    the fields of a Session; the raw event has already been reduced to the
    pixel (x, y) it hit, its type and its button. */
module Click {
  import opened Escape
  import opened Mapping
  import opened FrameBuffer
  import opened Render

  /** The zoom factor a button asks for: the primary button (0) halves the
      extent, the secondary button (2) doubles it, and any other button keeps
      it (a plain re-centre). The factor is always positive. */
  function ZoomScale(button: int): (s: real)
    ensures s > 0.0
    ensures s < 1.0 <==> button == 0
    ensures s > 1.0 <==> button == 2
    ensures button == 0 ==> s == 0.5
    ensures button == 2 ==> s == 2.0
  {
    if button == 0 then 0.5 else if button == 2 then 2.0 else 1.0
  }

  /** A zoom in followed by a zoom out, anchored anywhere, restores both extents. */
  lemma ZoomInThenOutRestoresExtent(v: Viewport, px: int, py: int, qx: int, qy: int)
    requires HasGrid(v)
    ensures var r := Zoomed(Zoomed(v, px, py, ZoomScale(0)), qx, qy, ZoomScale(2));
      r.mx1 - r.mx0 == v.mx1 - v.mx0 && r.my1 - r.my0 == v.my1 - v.my0
  {
  }

  class Session {
    const mapping: MandelMap
    const width: nat
    const height: nat
    /** The pixel data the canvas currently shows (the last putImageData). */
    var displayed: seq<int>

    /** The mapping covers the canvas grid, its rectangle is well ordered, and
        the canvas shows the complete frame of the current rectangle. */
    ghost predicate Valid()
      reads this, mapping
    {
      && width > 0 && height > 0
      && mapping.lx == width && mapping.ly == height
      && mapping.mx0 < mapping.mx1 && mapping.my0 < mapping.my1
      && Rendered(displayed, mapping.State(), width, height)
    }

    /** Page start-up: a fresh mapping over the canvas grid, then a first draw. */
    constructor (w: nat, h: nat)
      requires w > 0 && h > 0
      ensures Valid() && fresh(mapping)
      ensures width == w && height == h
      ensures mapping.State() == InitialViewport(w, h)
    {
      width := w;
      height := h;
      mapping := new MandelMap(w, h);
      new;
      var iD := DrawMandel(mapping, w, h);
      displayed := iD.data[..];
    }

    /** canvasClick: only a mouseup acts. It picks the zoom factor from the
        button, zooms the mapping about the clicked pixel and redraws; every
        other event changes nothing. */
    method CanvasClick(eventType: string, button: int, x: int, y: int)
      requires Valid()
      modifies this, mapping
      ensures Valid()
      ensures eventType == "mouseup" ==>
        mapping.State() == Zoomed(old(mapping.State()), x, y, ZoomScale(button))
      ensures eventType != "mouseup" ==>
        mapping.State() == old(mapping.State()) && displayed == old(displayed)
    {
      if eventType == "mouseup" {
        var scale := 1.0;
        if button == 0 {
          scale := 0.5;
        } else if button == 2 {
          scale := 2.0;
        }
        mapping.Zoom(x, y, scale);
        var iD := DrawMandel(mapping, width, height);
        displayed := iD.data[..];
      }
    }
  }
}
