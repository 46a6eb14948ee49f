// Post-processing of the DeepLab v3 semantic segmentation engine: the model's own
// ArgMax output gives one class id per pixel, and every class id is painted with a
// blue/green/red palette into a three-byte-per-pixel mask image.

module DeepLabSegmentation {
  import opened Common

  type Colour = (int, int, int)

  /** `static_cast<int32_t>` of an int64 class id: the value modulo 2^32, in the
      signed range. */
  function Int32Of(v: int): (r: int)
    ensures -0x8000_0000 <= r < 0x8000_0000
    ensures (r - v) % 0x1_0000_0000 == 0
    ensures -0x8000_0000 <= v < 0x8000_0000 ==> r == v
  {
    (v + 0x8000_0000) % 0x1_0000_0000 - 0x8000_0000
  }

  /** The class id of pixel `p` = y * W + x. */
  function ClassAt(values: seq<int>, p: int): int
    requires 0 <= p < |values|
  {
    Int32Of(values[p])
  }

  /** The palette (B, G, R) of class `c`: the ratios (c % 2 + 1) / 2, (c % 3 + 1) / 3
      and 1 - (c % 4 + 1) / 4 of 255, each truncated to a byte. */
  function ColourOf(c: int): (bgr: Colour)
    requires c >= 0
    ensures 0 <= bgr.0 <= 255 && 0 <= bgr.1 <= 255 && 0 <= bgr.2 <= 255
  {
    (Trunc(255.0 * ((c % 2 + 1) as real / 2.0)),
     Trunc(255.0 * ((c % 3 + 1) as real / 3.0)),
     Trunc(255.0 * (1.0 - (c % 4 + 1) as real / 4.0)))
  }

  /** The twelve colours of the palette, one per class modulo 12. */
  const Palette: seq<Colour> := [
    (127, 85, 191), (255, 170, 127), (127, 255, 63), (255, 85, 0),
    (127, 170, 191), (255, 255, 127), (127, 85, 63), (255, 170, 0),
    (127, 255, 191), (255, 85, 127), (127, 170, 63), (255, 255, 0)]

  /** A class first truncated to its remainder modulo 12 keeps its remainders modulo
      2, 3 and 4. */
  lemma Remainders(c: int)
    requires c >= 0
    ensures c % 2 == (c % 12) % 2 && c % 3 == (c % 12) % 3 && c % 4 == (c % 12) % 4
  {
    var q := c / 12;
    var r := c % 12;
    assert c == 12 * q + r;
    DivModOf(c, 6 * q + r / 2, r % 2, 2);
    DivModOf(c, 4 * q + r / 3, r % 3, 3);
    DivModOf(c, 3 * q + r / 4, r % 4, 4);
  }

  /** The colour depends only on the class modulo 12, where it is the palette entry:
      classes c and c + 12 look alike. */
  lemma ColourPeriod(c: int)
    requires c >= 0
    ensures ColourOf(c) == Palette[c % 12]
    ensures ColourOf(c + 12) == ColourOf(c)
  {
    Remainders(c);
    Remainders(c + 12);
    assert (c + 12) % 12 == c % 12;
    var r := c % 12;
    assert ColourOf(c) == ColourOf(r);
    PaletteEntry(r);
  }

  /** A class below 12 is painted with its own palette entry. */
  lemma PaletteEntry(r: int)
    requires 0 <= r < 12
    ensures ColourOf(r) == Palette[r]
  {
    if r == 0 { } else if r == 1 { } else if r == 2 { } else if r == 3 { }
    else if r == 4 { } else if r == 5 { } else if r == 6 { } else if r == 7 { }
    else if r == 8 { } else if r == 9 { } else if r == 10 { } else { }
  }

  /** Two classes share a colour exactly when they agree modulo 12. */
  lemma ColourSharedIff(a: int, b: int)
    requires a >= 0 && b >= 0
    ensures ColourOf(a) == ColourOf(b) <==> a % 12 == b % 12
  {
    ColourPeriod(a);
    ColourPeriod(b);
    assert forall i, j :: 0 <= i < 12 && 0 <= j < 12 && Palette[i] == Palette[j] ==> i == j;
  }

  /** Pixels whose class id is painted without undefined behaviour. */
  predicate ClassesPaintable(values: seq<int>) {
    forall p :: 0 <= p < |values| ==> ClassAt(values, p) >= 0
  }

  /** Byte `q` of the mask: component q % 3 of the colour of pixel q / 3. */
  function MaskByte(values: seq<int>, q: int): int
    requires 0 <= q < 3 * |values| && ClassesPaintable(values)
  {
    FlatInRange(q, 3, |values|);
    var bgr := ColourOf(ClassAt(values, q / 3));
    if q % 3 == 0 then bgr.0 else if q % 3 == 1 then bgr.1 else bgr.2
  }

  /** The mask after the first `n` pixels: their bytes painted, the rest still zero. */
  predicate Painted(mask: array<int>, values: seq<int>, n: int)
    reads mask
    requires mask.Length == 3 * |values| && 0 <= n <= |values| && ClassesPaintable(values)
  {
    (forall q :: 0 <= q < 3 * n ==> mask[q] == MaskByte(values, q)) &&
    (forall q :: 3 * n <= q < mask.Length ==> mask[q] == 0)
  }

  /** The body of the paint loop for pixel `p`: its three bytes B, G, R. */
  method PaintPixel(mask: array<int>, values: seq<int>, p: int)
    requires mask.Length == 3 * |values| && 0 <= p < |values| && ClassesPaintable(values)
    requires Painted(mask, values, p)
    modifies mask
    ensures Painted(mask, values, p + 1)
  {
    var maxChannel := Int32Of(values[p]);
    assert maxChannel == ClassAt(values, p);
    var bgr := ColourOf(maxChannel);
    DivModOf(p * 3 + 0, p, 0, 3);
    DivModOf(p * 3 + 1, p, 1, 3);
    DivModOf(p * 3 + 2, p, 2, 3);
    mask[p * 3 + 0] := bgr.0;
    mask[p * 3 + 1] := bgr.1;
    mask[p * 3 + 2] := bgr.2;
  }

  /** The post-processing loops: a first pass over the pixels that does nothing, then
      the pass that writes the three bytes of every pixel. */
  method PaintMask(values: seq<int>, width: int, height: int) returns (mask: array<int>)
    requires width > 0 && height > 0 && |values| == width * height
    requires ClassesPaintable(values)
    ensures fresh(mask) && mask.Length == 3 * (width * height)
    ensures forall q :: 0 <= q < mask.Length ==> mask[q] == MaskByte(values, q)
  {
    mask := new int[3 * (width * height)](_ => 0);
    for y := 0 to height {
      for x := 0 to width {
      }
    }
    for y := 0 to height
      invariant y * width <= width * height
      invariant Painted(mask, values, y * width)
    {
      for x := 0 to width
        invariant y * width + x <= width * height
        invariant Painted(mask, values, y * width + x)
      {
        RowMajor(x, y, width, height);
        PaintPixel(mask, values, y * width + x);
      }
      assert y * width + width == (y + 1) * width;
      MulMono(y + 1, height, width);
    }
    assert height * width == width * height;
  }

  /** The paint loop applied to the pixels: the bytes of pixel p are the palette
      entry of its class modulo 12. */
  lemma MaskPixel(values: seq<int>, p: int)
    requires 0 <= p < |values| && ClassesPaintable(values)
    ensures 0 <= 3 * p + 2 < 3 * |values|
    ensures var c := Palette[ClassAt(values, p) % 12];
      MaskByte(values, 3 * p) == c.0 && MaskByte(values, 3 * p + 1) == c.1 && MaskByte(values, 3 * p + 2) == c.2
  {
    DivModOf(3 * p + 0, p, 0, 3);
    DivModOf(3 * p + 1, p, 1, 3);
    DivModOf(3 * p + 2, p, 2, 3);
    ColourPeriod(ClassAt(values, p));
  }
}
