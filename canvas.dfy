/**
 * createPng: a blank composite. The image library hands back a buffer of
 * four bytes (red, green, blue, alpha) per pixel, row by row, whose bytes
 * are whatever the memory held; every byte is then set to 0 so that the
 * composite starts fully transparent.
 */
module Canvas {
  /** The first byte of pixel (x, y) in a row-major buffer of rows `width` pixels wide: `(width * y + x) << 2`. */
  function PixelIndex(width: nat, x: nat, y: nat): nat {
    4 * (width * y + x)
  }

  lemma MulStep(w: nat, y: nat)
    ensures w * (y + 1) == w * y + w
  {
  }

  lemma MulMono(w: nat, a: nat, b: nat)
    requires a <= b
    ensures w * a <= w * b
  {
  }

  /** Pixel (x, y) starts x pixels after its row, and the row after y starts a whole row later. */
  lemma RowBound(width: nat, height: nat, x: nat, y: nat)
    requires x < width && y < height
    ensures width * y + x + 1 <= width * (y + 1) <= width * height
  {
    MulStep(width, y);
    MulMono(width, y + 1, height);
  }

  /** All four bytes of every pixel of the image lie inside its 4·width·height byte buffer. */
  lemma PixelInBuffer(width: nat, height: nat, x: nat, y: nat)
    requires x < width && y < height
    ensures PixelIndex(width, x, y) + 4 <= 4 * width * height
  {
    RowBound(width, height, x, y);
    assert 4 * width * height == 4 * (width * height);
  }

  /** Distinct pixels of a row-major image own disjoint groups of four bytes. */
  lemma PixelsDisjoint(width: nat, x1: nat, y1: nat, x2: nat, y2: nat)
    requires x1 < width && x2 < width && (x1, y1) != (x2, y2)
    ensures PixelIndex(width, x1, y1) + 4 <= PixelIndex(width, x2, y2) ||
            PixelIndex(width, x2, y2) + 4 <= PixelIndex(width, x1, y1)
  {
    if y1 < y2 {
      RowBound(width, y2, x1, y1);
      MulMono(width, y1 + 1, y2);
    } else if y2 < y1 {
      RowBound(width, y1, x2, y2);
      MulMono(width, y2 + 1, y1);
    }
  }

  /** The image object: its size and its pixel buffer. */
  class Png {
    const width: nat
    const height: nat
    const data: array<bv8>

    /** `new PNG({width, height})`: a buffer of the right size holding the bytes `noise`. */
    constructor (w: nat, h: nat, noise: seq<bv8>)
      requires |noise| == 4 * w * h
      ensures width == w && height == h && fresh(data) && data[..] == noise
    {
      width := w;
      height := h;
      data := new bv8[4 * w * h](i requires 0 <= i < |noise| => noise[i]);
    }
  }

  /**
   * createPng(width, height): a fresh image of that size every byte of
   * which is 0, whatever the buffer held before.
   */
  method CreatePng(width: nat, height: nat, noise: seq<bv8>) returns (png: Png)
    requires |noise| == 4 * width * height
    ensures fresh(png) && fresh(png.data)
    ensures png.width == width && png.height == height && png.data.Length == 4 * width * height
    ensures forall i :: 0 <= i < png.data.Length ==> png.data[i] == 0
  {
    png := new Png(width, height, noise);
    for y := 0 to png.height
      invariant forall i :: 0 <= i < 4 * (png.width * y) ==> png.data[i] == 0
    {
      ClearRow(png, y);
    }
  }

  /** One pass of createPng's outer loop: the four bytes of every pixel of row y set to 0. */
  method ClearRow(png: Png, y: nat)
    requires y < png.height && png.data.Length == 4 * png.width * png.height
    requires forall i :: 0 <= i < 4 * (png.width * y) ==> png.data[i] == 0
    modifies png.data
    ensures forall i :: 0 <= i < 4 * (png.width * (y + 1)) ==> png.data[i] == 0
  {
    ghost var row := 4 * (png.width * y);
    assert row + 4 * png.width <= png.data.Length by {
      MulStep(png.width, y);
      MulMono(png.width, y + 1, png.height);
      assert 4 * png.width * png.height == 4 * (png.width * png.height);
    }
    for x := 0 to png.width
      invariant forall i :: 0 <= i < row + 4 * x ==> png.data[i] == 0
    {
      var idx := PixelIndex(png.width, x, y);
      PixelInBuffer(png.width, png.height, x, y);
      ClearPixel(png.data, idx);
    }
    MulStep(png.width, y);
  }

  /** The innermost body of createPng: the four bytes of the pixel starting at idx set to 0. */
  method ClearPixel(data: array<bv8>, idx: nat)
    requires idx + 4 <= data.Length
    modifies data
    ensures forall i :: 0 <= i < data.Length ==> data[i] == if idx <= i < idx + 4 then 0 else old(data[i])
  {
    data[idx] := 0;
    data[idx + 1] := 0;
    data[idx + 2] := 0;
    data[idx + 3] := 0;
  }
}
