/** The RGBA pixel buffer (an ImageData object) and its one write primitive
    `blit`. Pixel (x, y) of a buffer `width` pixels wide occupies the four
    consecutive channel slots starting at (x + y * width) * 4. */
module FrameBuffer {

  datatype Rgba = Rgba(r: int, g: int, b: int, a: int)

  /** First channel slot of pixel (x, y). The slot is a multiple of 4, and
      for a column inside the row width the pixel can be read back from it:
      the column is the remainder and the row the quotient by the width. */
  function PixelIndex(width: int, x: int, y: int): (i: int)
    ensures i % 4 == 0
    ensures 0 <= x < width && 0 <= y ==> (i / 4) % width == x && (i / 4) / width == y
  {
    RowAndColumn(width, x, y);
    (x + y * width) * 4
  }

  /** Dividing x + y * width by the width gives back row y and column x. */
  lemma RowAndColumn(width: int, x: int, y: int)
    ensures 0 <= x < width && 0 <= y ==> (x + y * width) % width == x && (x + y * width) / width == y
  {
    if 0 <= x < width && 0 <= y {
      var p := x + y * width;
      var d := p / width - y;
      assert width * d == x - p % width;
      assert -width < width * d < width;
    }
  }

  /** The four slots of an in-range pixel lie inside a buffer of 4 * w * h slots. */
  lemma PixelInBounds(w: int, h: int, x: int, y: int)
    requires 0 <= x < w && 0 <= y < h
    ensures 0 <= PixelIndex(w, x, y) && PixelIndex(w, x, y) + 4 <= 4 * w * h
  {
    RowStartBelow(w, h, x, y);
  }

  lemma RowStartBelow(w: int, h: int, x: int, y: int)
    requires 0 <= x < w && 0 <= y < h
    ensures 0 <= x + y * w < h * w
  {
    assert y * w <= (h - 1) * w;
  }

  /** Distinct in-range pixels own disjoint groups of four slots. */
  lemma PixelsDisjoint(w: int, x1: int, y1: int, x2: int, y2: int)
    requires 0 <= x1 < w && 0 <= y1 && 0 <= x2 < w && 0 <= y2
    requires x1 != x2 || y1 != y2
    ensures PixelIndex(w, x1, y1) + 4 <= PixelIndex(w, x2, y2) || PixelIndex(w, x2, y2) + 4 <= PixelIndex(w, x1, y1)
  {
    if y1 < y2 {
      assert (y1 + 1) * w <= y2 * w;
      assert x1 + y1 * w < (y1 + 1) * w;
    } else if y2 < y1 {
      assert (y2 + 1) * w <= y1 * w;
      assert x2 + y2 * w < (y2 + 1) * w;
    }
  }

  /** Every slot of a buffer of 4 * w * h slots belongs to exactly the pixel
      whose index is computed back from the slot number: the layout leaves no
      slot uncovered. */
  lemma SlotOwner(w: nat, h: nat, k: int)
    requires 0 <= k < 4 * w * h
    ensures w > 0
    ensures 0 <= (k / 4) % w < w && 0 <= (k / 4) / w < h
    ensures k == PixelIndex(w, (k / 4) % w, (k / 4) / w) + k % 4
  {
  }

  /** The colour stored at in-range pixel (x, y) of a buffer of the right size. */
  function PixelAt(s: seq<int>, w: int, h: int, x: int, y: int): Rgba
    requires |s| == 4 * w * h && 0 <= x < w && 0 <= y < h
  {
    PixelInBounds(w, h, x, y);
    var i := PixelIndex(w, x, y);
    Rgba(s[i], s[i + 1], s[i + 2], s[i + 3])
  }

  /** An ImageData object: fixed dimensions and a flat array of channel values. */
  class ImageData {
    const width: int
    const height: int
    const data: array<int>

    ghost predicate Valid()
      reads this
    {
      width >= 0 && height >= 0 && data.Length == 4 * width * height
    }

    /** A fresh buffer (createImageData): every channel of every pixel is 0. */
    constructor (w: nat, h: nat)
      ensures Valid() && width == w && height == h && fresh(data)
      ensures forall k :: 0 <= k < data.Length ==> data[k] == 0
    {
      width := w;
      height := h;
      data := new int[4 * w * h](_ => 0);
    }
  }

  /** The effect of writing (r, g, b, a) into the four slots of in-range
      pixel (x, y) and nothing else, seen pixel by pixel: that pixel reads
      back as (r, g, b, a) and every other pixel is as before. */
  lemma WritePixel(before: seq<int>, after: seq<int>, w: int, h: int, x: int, y: int,
                   r: int, g: int, b: int, a: int)
    requires |before| == |after| == 4 * w * h
    requires 0 <= x < w && 0 <= y < h
    requires forall k :: 0 <= k < |after| ==>
      after[k] == (var i := PixelIndex(w, x, y);
                   if k == i then r else if k == i + 1 then g
                   else if k == i + 2 then b else if k == i + 3 then a
                   else before[k])
    ensures PixelAt(after, w, h, x, y) == Rgba(r, g, b, a)
    ensures forall x2, y2 :: 0 <= x2 < w && 0 <= y2 < h && (x2 != x || y2 != y) ==>
      PixelAt(after, w, h, x2, y2) == PixelAt(before, w, h, x2, y2)
  {
    PixelInBounds(w, h, x, y);
    forall x2, y2 | 0 <= x2 < w && 0 <= y2 < h && (x2 != x || y2 != y)
      ensures PixelAt(after, w, h, x2, y2) == PixelAt(before, w, h, x2, y2)
    {
      PixelInBounds(w, h, x2, y2);
      PixelsDisjoint(w, x, y, x2, y2);
    }
  }

  /** `blit`: store (r, g, b, a) in the four slots of pixel (x, y). A typed
      array ignores writes outside its range, so each slot is written only if
      it exists, and every other slot keeps its value. For an in-range pixel
      of a valid buffer this means the pixel reads back as (r, g, b, a) and
      every other pixel is as before. */
  method Blit(pixels: ImageData, x: int, y: int, r: int, g: int, b: int, a: int)
    modifies pixels.data
    ensures forall k :: 0 <= k < pixels.data.Length ==>
      pixels.data[k] == (var i := PixelIndex(pixels.width, x, y);
                         if k == i then r else if k == i + 1 then g
                         else if k == i + 2 then b else if k == i + 3 then a
                         else old(pixels.data[k]))
    ensures pixels.Valid() && 0 <= x < pixels.width && 0 <= y < pixels.height ==>
      && PixelAt(pixels.data[..], pixels.width, pixels.height, x, y) == Rgba(r, g, b, a)
      && forall x2, y2 :: 0 <= x2 < pixels.width && 0 <= y2 < pixels.height && (x2 != x || y2 != y) ==>
           PixelAt(pixels.data[..], pixels.width, pixels.height, x2, y2)
             == PixelAt(old(pixels.data[..]), pixels.width, pixels.height, x2, y2)
  {
    var index := (x + y * pixels.width) * 4;
    if 0 <= index < pixels.data.Length { pixels.data[index] := r; }
    if 0 <= index + 1 < pixels.data.Length { pixels.data[index + 1] := g; }
    if 0 <= index + 2 < pixels.data.Length { pixels.data[index + 2] := b; }
    if 0 <= index + 3 < pixels.data.Length { pixels.data[index + 3] := a; }
    if pixels.Valid() && 0 <= x < pixels.width && 0 <= y < pixels.height {
      WritePixel(old(pixels.data[..]), pixels.data[..], pixels.width, pixels.height, x, y, r, g, b, a);
    }
  }
}
