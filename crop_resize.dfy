// The crop-rectangle arithmetic of `CommonHelper::CropResizeCvt` and the
// clamp every engine applies to the crop it reports.  The resize into the
// destination image and the colour conversion are OpenCV calls and are not
// modelled; what is modelled is how the crop passed by reference changes.

module CropResize {
  import opened Common

  /** A crop rectangle in pixels of the original image: crop_x, crop_y, crop_w, crop_h. */
  datatype Crop = Crop(x: int, y: int, w: int, h: int)

  /** kCropTypeStretch, kCropTypeCut and kCropTypeExpand. */
  datatype CropType = Stretch | Cut | Expand

  /** A `cv::Rect`: the target rectangle inside the source or the destination image. */
  datatype Target = Target(x: int, y: int, width: int, height: int)

  /** `static_cast<float>(cols) / rows`. */
  function Aspect(cols: int, rows: int): real
    requires rows > 0
  {
    cols as real / rows as real
  }

  // ---- Real-number steps, kept apart so that no proof sees more of them than it needs ----

  lemma MulStrict(s: real, a: real, b: real)
    requires s > 0.0 && a < b
    ensures s * a < s * b
  {
  }

  lemma MulWeak(s: real, a: real, b: real)
    requires s > 0.0 && a <= b
    ensures s * a <= s * b
  {
  }

  lemma TimesAspect(cols: int, rows: int)
    requires rows > 0
    ensures rows as real * Aspect(cols, rows) == cols as real
  {
  }

  lemma DivBelow(x: real, a: real, y: real)
    requires a > 0.0 && x < y * a
    ensures x / a < y
  {
    assert x / a * a == x;
    if x / a >= y {
      MulWeak(a, y, x / a);
    }
  }

  lemma DivAtMost(x: real, a: real, y: real)
    requires a > 0.0 && x <= y * a
    ensures x / a <= y
  {
    assert x / a * a == x;
    if x / a > y {
      MulStrict(a, y, x / a);
    }
  }

  /** A wider source: `rows * dstAspect` is below the source width. */
  lemma NarrowerThanSource(sc: int, sr: int, ad: real)
    requires sr > 0 && ad > 0.0 && Aspect(sc, sr) > ad
    ensures 0.0 <= sr as real * ad < sc as real
  {
    MulStrict(sr as real, ad, Aspect(sc, sr));
    TimesAspect(sc, sr);
  }

  /** A source no wider than the destination: `cols / dstAspect` is at most the source height. */
  lemma LowerThanSource(sc: int, sr: int, ad: real)
    requires sc > 0 && sr > 0 && ad > 0.0 && Aspect(sc, sr) <= ad
    ensures 0.0 <= sc as real / ad <= sr as real
  {
    MulWeak(sr as real, Aspect(sc, sr), ad);
    TimesAspect(sc, sr);
    DivAtMost(sc as real, ad, sr as real);
  }

  /** `(total - part) / 2` with `0 <= part <= total`: the offset that centres `part` in `total`. */
  function Centred(total: int, part: int): (x: int)
    requires 0 <= part <= total
    ensures 0 <= x && x + part <= total
    ensures 0 <= (total - part) - 2 * x <= 1
  {
    (total - part) / 2
  }

  // ---- The two shapes of a centred target ----

  /** A rectangle of a cols x rows image spanning its full width, whose height is `q`
      truncated, centred vertically. */
  function FullWidth(cols: int, rows: int, q: real): (t: Target)
    requires cols > 0 && 0.0 <= q <= rows as real
    ensures t.x == 0 && t.width == cols && 0 <= t.y && 0 <= t.height && t.y + t.height <= rows
    ensures 0 <= (rows - t.height) - 2 * t.y <= 1 && t.height as real <= q < t.height as real + 1.0
  {
    var h := Trunc(q);
    Target(0, Centred(rows, h), cols, h)
  }

  /** A rectangle of a cols x rows image spanning its full height, whose width is `q`
      truncated, centred horizontally. */
  function FullHeight(cols: int, rows: int, q: real): (t: Target)
    requires rows > 0 && 0.0 <= q <= cols as real
    ensures t.y == 0 && t.height == rows && 0 <= t.x && 0 <= t.width && t.x + t.width <= cols
    ensures 0 <= (cols - t.width) - 2 * t.x <= 1 && t.width as real <= q < t.width as real + 1.0
  {
    var w := Trunc(q);
    Target(Centred(cols, w), 0, w, rows)
  }

  // ---- kCropTypeCut ----

  /** The rectangle of the source image that keeps the destination's aspect ratio,
      centred on the longer axis. */
  function CutTarget(srcCols: int, srcRows: int, dstCols: int, dstRows: int): (t: Target)
    requires srcCols > 0 && srcRows > 0 && dstCols > 0 && dstRows > 0
    ensures 0 <= t.x && 0 <= t.width && t.x + t.width <= srcCols
    ensures 0 <= t.y && 0 <= t.height && t.y + t.height <= srcRows
    ensures Aspect(srcCols, srcRows) > Aspect(dstCols, dstRows) ==>
      t.y == 0 && t.height == srcRows && 0 <= (srcCols - t.width) - 2 * t.x <= 1 &&
      t.width as real <= srcRows as real * Aspect(dstCols, dstRows) < t.width as real + 1.0
    ensures Aspect(srcCols, srcRows) <= Aspect(dstCols, dstRows) ==>
      t.x == 0 && t.width == srcCols && 0 <= (srcRows - t.height) - 2 * t.y <= 1 &&
      t.height as real <= srcCols as real / Aspect(dstCols, dstRows) < t.height as real + 1.0
  {
    var ad := Aspect(dstCols, dstRows);
    if Aspect(srcCols, srcRows) > ad then
      NarrowerThanSource(srcCols, srcRows, ad);
      FullHeight(srcCols, srcRows, srcRows as real * ad)
    else
      LowerThanSource(srcCols, srcRows, ad);
      FullWidth(srcCols, srcRows, srcCols as real / ad)
  }

  // ---- kCropTypeExpand ----

  /** The rectangle of the destination image that receives the whole source with
      its aspect ratio kept, centred on the longer axis. */
  function ExpandTarget(srcCols: int, srcRows: int, dstCols: int, dstRows: int): (t: Target)
    requires srcCols > 0 && srcRows > 0 && dstCols > 0 && dstRows > 0
    ensures 0 <= t.x && 0 <= t.width && t.x + t.width <= dstCols
    ensures 0 <= t.y && 0 <= t.height && t.y + t.height <= dstRows
    ensures Aspect(srcCols, srcRows) > Aspect(dstCols, dstRows) ==>
      t.x == 0 && t.width == dstCols && 0 <= (dstRows - t.height) - 2 * t.y <= 1 &&
      t.height as real <= dstCols as real / Aspect(srcCols, srcRows) < t.height as real + 1.0
    ensures Aspect(srcCols, srcRows) <= Aspect(dstCols, dstRows) ==>
      t.y == 0 && t.height == dstRows && 0 <= (dstCols - t.width) - 2 * t.x <= 1 &&
      t.width as real <= dstRows as real * Aspect(srcCols, srcRows) < t.width as real + 1.0
  {
    var sa := Aspect(srcCols, srcRows);
    if sa > Aspect(dstCols, dstRows) then
      WiderSourceFitsHeight(srcCols, srcRows, dstCols, dstRows);
      FullWidth(dstCols, dstRows, dstCols as real / sa)
    else
      NarrowSourceFitsWidth(srcCols, srcRows, dstCols, dstRows);
      FullHeight(dstCols, dstRows, dstRows as real * sa)
  }


  lemma WiderSourceFitsHeight(sc: int, sr: int, dc: int, dr: int)
    requires sc > 0 && sr > 0 && dc > 0 && dr > 0 && Aspect(sc, sr) > Aspect(dc, dr)
    ensures 0.0 <= dc as real / Aspect(sc, sr) < dr as real
  {
    MulStrict(dr as real, Aspect(dc, dr), Aspect(sc, sr));
    TimesAspect(dc, dr);
    DivBelow(dc as real, Aspect(sc, sr), dr as real);
  }

  lemma NarrowSourceFitsWidth(sc: int, sr: int, dc: int, dr: int)
    requires sc > 0 && sr > 0 && dc > 0 && dr > 0 && Aspect(sc, sr) <= Aspect(dc, dr)
    ensures 0.0 <= dr as real * Aspect(sc, sr) <= dc as real
  {
    MulWeak(dr as real, Aspect(sc, sr), Aspect(dc, dr));
    TimesAspect(dc, dr);
  }

  /** OpenCV divides by the target's sides in Expand mode; a side truncated to 0 is a
      division by zero, which the caller must avoid. */
  predicate ExpandDefined(srcCols: int, srcRows: int, dstCols: int, dstRows: int)
    requires srcCols > 0 && srcRows > 0 && dstCols > 0 && dstRows > 0
  {
    var t := ExpandTarget(srcCols, srcRows, dstCols, dstRows);
    t.width > 0 && t.height > 0
  }

  /** The crop after `CropResizeCvt` of a `crop.w x crop.h` source into a
      `dstCols x dstRows` destination. */
  function CropResizeCvt(crop: Crop, dstCols: int, dstRows: int, cropType: CropType): Crop
    requires crop.w > 0 && crop.h > 0 && dstCols > 0 && dstRows > 0
    requires cropType == Expand ==> ExpandDefined(crop.w, crop.h, dstCols, dstRows)
  {
    match cropType
    case Stretch => crop
    case Cut =>
      var t := CutTarget(crop.w, crop.h, dstCols, dstRows);
      Crop(crop.x + t.x, crop.y + t.y, t.width, t.height)
    case Expand =>
      var t := ExpandTarget(crop.w, crop.h, dstCols, dstRows);
      Crop(crop.x - t.x * crop.w / t.width, crop.y - t.y * crop.h / t.height,
           dstCols * crop.w / t.width, dstRows * crop.h / t.height)
  }

  /** Expand mode from the whole image, as several engines call it: the crop grows to
      cover the image, and the crop they report back (clamped to the image) is the
      whole image. */
  lemma ExpandWholeImage(cols: int, rows: int, dstCols: int, dstRows: int)
    requires cols > 0 && rows > 0 && dstCols > 0 && dstRows > 0
    requires ExpandDefined(cols, rows, dstCols, dstRows)
    ensures var c := CropResizeCvt(Crop(0, 0, cols, rows), dstCols, dstRows, Expand);
      c.x <= 0 && cols <= c.x + c.w && c.y <= 0 && rows <= c.y + c.h &&
      ResultCrop(c, cols, rows) == Crop(0, 0, cols, rows)
  {
    ExpandContains(Crop(0, 0, cols, rows), dstCols, dstRows);
  }

  /** Stretch mode leaves the crop as it is. */
  lemma StretchKeepsCrop(crop: Crop, dstCols: int, dstRows: int)
    requires crop.w > 0 && crop.h > 0 && dstCols > 0 && dstRows > 0
    ensures CropResizeCvt(crop, dstCols, dstRows, Stretch) == crop
  {
  }

  /** Cut mode narrows the crop to a centred rectangle inside it; one side is kept whole
      and the other follows the destination's aspect ratio. */
  lemma CutStaysInside(crop: Crop, dstCols: int, dstRows: int)
    requires crop.w > 0 && crop.h > 0 && dstCols > 0 && dstRows > 0
    ensures var r := CropResizeCvt(crop, dstCols, dstRows, Cut);
      crop.x <= r.x && r.x + r.w <= crop.x + crop.w &&
      crop.y <= r.y && r.y + r.h <= crop.y + crop.h &&
      0 <= r.w && 0 <= r.h && (r.w == crop.w || r.h == crop.h)
  {
    var t := CutTarget(crop.w, crop.h, dstCols, dstRows);
  }

  // ---- Integer steps for Expand mode ----

  lemma DivMono(x: int, y: int, d: int)
    requires 0 <= x <= y && d > 0
    ensures x / d <= y / d
  {
    var qx, qy := x / d, y / d;
    assert (qy + 1 - qx) * d == (qy + 1) * d - qx * d;
    PosFactor(qy + 1 - qx, d);
  }

  lemma DivShift(a: int, c: int, d: int)
    requires a >= 0 && d > 0
    ensures (a + c * d) / d == a / d + c
  {
    DivModOf(a + c * d, a / d + c, a % d, d);
  }

  /** The enlarged length covers the original: with `total = part + 2 * off + e`,
      `total * len / part >= len + 2 * (off * len / part)`. */
  lemma ExpandCovers(total: int, part: int, off: int, len: int)
    requires part > 0 && off >= 0 && len > 0
    requires 0 <= (total - part) - 2 * off <= 1
    ensures total * len / part >= len + 2 * (off * len / part)
    ensures total * len / part >= len
  {
    var a := off * len;
    MulNonNeg(off, len);
    assert total * len >= part * len + 2 * a by {
      MulMono(part + 2 * off, total, len);
    }
    DivMono(2 * a + len * part, total * len, part);
    DivShift(2 * a, len, part);
    var q := a / part;
    assert 2 * a >= 2 * q * part by {
      assert q * part <= a;
    }
    DivMono(q * 2 * part, 2 * a, part);
    DivShift(0, 2 * q, part);
    assert q * 2 * part == 0 + (2 * q) * part;
    assert a / part >= 0 by {
      DivMono(0, a, part);
    }
  }

  /** Expand mode widens the crop so that the whole destination maps back onto the
      original image: the new crop contains the old one, is at least as large, and
      its origin moves back by the target offset scaled to the original. */
  lemma ExpandContains(crop: Crop, dstCols: int, dstRows: int)
    requires crop.w > 0 && crop.h > 0 && dstCols > 0 && dstRows > 0
    requires ExpandDefined(crop.w, crop.h, dstCols, dstRows)
    ensures var r := CropResizeCvt(crop, dstCols, dstRows, Expand);
      var t := ExpandTarget(crop.w, crop.h, dstCols, dstRows);
      r.x == crop.x - t.x * crop.w / t.width && r.w == dstCols * crop.w / t.width &&
      r.y == crop.y - t.y * crop.h / t.height && r.h == dstRows * crop.h / t.height &&
      r.x <= crop.x && crop.x + crop.w <= r.x + r.w &&
      r.y <= crop.y && crop.y + crop.h <= r.y + r.h
  {
    var t := ExpandTarget(crop.w, crop.h, dstCols, dstRows);
    MulNonNeg(t.x, crop.w);
    MulNonNeg(t.y, crop.h);
    DivMono(0, t.x * crop.w, t.width);
    DivMono(0, t.y * crop.h, t.height);
    ExpandCovers(dstCols, t.width, t.x, crop.w);
    ExpandCovers(dstRows, t.height, t.y, crop.h);
  }

  /** The centred crop of the whole image with the tensor's aspect ratio, which the
      DBFace and YOLOv5 engines compute inline: Cut mode with the whole image as source. */
  function CentreCrop(cols: int, rows: int, tensorW: int, tensorH: int): (c: Crop)
    requires cols > 0 && rows > 0 && tensorW > 0 && tensorH > 0
    ensures InImage(c, cols, rows) && 0 <= c.w && 0 <= c.h && (c.w == cols || c.h == rows)
    ensures c == CropResizeCvt(Crop(0, 0, cols, rows), tensorW, tensorH, Cut)
  {
    CutStaysInside(Crop(0, 0, cols, rows), tensorW, tensorH);
    CropResizeCvt(Crop(0, 0, cols, rows), tensorW, tensorH, Cut)
  }

  /** The inline centre crop picks the wider-image branch exactly when the image is
      wider than the tensor, and its free side is the truncated aspect-scaled length. */
  lemma CentreCropAspect(cols: int, rows: int, tensorW: int, tensorH: int)
    requires cols > 0 && rows > 0 && tensorW > 0 && tensorH > 0
    ensures var c := CentreCrop(cols, rows, tensorW, tensorH);
      var at := Aspect(tensorW, tensorH);
      (Aspect(cols, rows) > at ==>
        c.y == 0 && c.h == rows && c.x == (cols - c.w) / 2 && c.w == Trunc(rows as real * at)) &&
      (Aspect(cols, rows) <= at ==>
        c.x == 0 && c.w == cols && c.y == (rows - c.h) / 2 && c.h == Trunc(cols as real / at))
  {
  }

  // ---- The crop each engine reports ----

  /** `result.crop`: the origin clamped at 0 and the size cut at the image border. */
  function ResultCrop(crop: Crop, cols: int, rows: int): (r: Crop)
    ensures r.x == Max(0, crop.x) && r.y == Max(0, crop.y)
    ensures r.w == Min(crop.w, cols - r.x) && r.h == Min(crop.h, rows - r.y)
  {
    var x := Max(0, crop.x);
    var y := Max(0, crop.y);
    Crop(x, y, Min(crop.w, cols - x), Min(crop.h, rows - y))
  }

  predicate InImage(crop: Crop, cols: int, rows: int) {
    0 <= crop.x && 0 <= crop.y && crop.x + crop.w <= cols && crop.y + crop.h <= rows
  }

  /** The reported crop lies in the image (its size may be negative only if the crop
      origin is beyond the image), and a crop already inside is reported unchanged. */
  lemma ResultCropProperties(crop: Crop, cols: int, rows: int)
    ensures var r := ResultCrop(crop, cols, rows);
      r.x >= 0 && r.y >= 0 && r.x + r.w <= cols && r.y + r.h <= rows &&
      r.w <= crop.w && r.h <= crop.h &&
      (InImage(crop, cols, rows) ==> r == crop)
  {
  }
}
