/**
 * The cutout geometry: the window around the target pixel, clamped to the
 * image, the undersized warning, and the extraction of the sub-array.
 */
module Cutout {

  /** Nominal side of the square cutout, in pixels. */
  const CutoutSize: int := 128
  /** Offset from the centre pixel to each edge of the nominal window. */
  const HalfSize: int := CutoutSize / 2

  /** A two-dimensional image as rows of pixel values; every row holds `nx` pixels. */
  datatype Raster = Raster(rows: seq<seq<real>>, nx: nat)
  {
    predicate Rectangular()
    {
      forall i :: 0 <= i < |rows| ==> |rows[i]| == nx
    }

    /** The number of rows, `ny` in the image shape `(ny, nx)`. */
    function Height(): nat
    {
      |rows|
    }
  }

  type Image = im: Raster | im.Rectangular() witness Raster([], 0)

  /** Python's `int(x)` on a float: the integer part, truncated toward zero. */
  function TruncateTowardZero(x: real): (n: int)
    ensures 0.0 <= x ==> 0 <= n && n as real <= x < n as real + 1.0
    ensures x < 0.0 ==> n <= 0 && n as real - 1.0 < x <= n as real
  {
    if 0.0 <= x then x.Floor else -((-x).Floor)
  }

  /** The opened image and the target's fractional pixel position `(x, y)` under the image's WCS, origin 0. */
  datatype Frame = Frame(image: Image, x: real, y: real)
  {
    /** The centre column actually used. */
    function Px(): int { TruncateTowardZero(x) }

    /** The centre row actually used. */
    function Py(): int { TruncateTowardZero(y) }
  }

  /** The four edges of a cutout window, as column range `[x0, x1)` and row range `[y0, y1)`. */
  datatype Window = Window(x0: int, x1: int, y0: int, y1: int)

  /** The centre lies closer than half a cutout to some edge of the image. */
  predicate NearEdge(px: int, py: int, ny: int, nx: int)
  {
    px < HalfSize || nx - HalfSize < px || py < HalfSize || ny - HalfSize < py
  }

  /** The warning condition: either side of the window is shorter than the nominal size. */
  predicate Undersized(w: Window)
  {
    w.x1 - w.x0 < CutoutSize || w.y1 - w.y0 < CutoutSize
  }

  /** The nominal window around `(px, py)` with each edge clamped to the image bounds. */
  function ClampWindow(px: int, py: int, ny: nat, nx: nat): (w: Window)
    ensures 0 <= w.x0 && w.x1 <= nx && 0 <= w.y0 && w.y1 <= ny
    ensures w.x1 - w.x0 <= CutoutSize && w.y1 - w.y0 <= CutoutSize
    ensures HalfSize <= px <= nx - HalfSize ==> w.x0 == px - HalfSize && w.x1 == px + HalfSize
    ensures HalfSize <= py <= ny - HalfSize ==> w.y0 == py - HalfSize && w.y1 == py + HalfSize
    ensures 0 <= px < nx ==> w.x0 <= px < w.x1
    ensures 0 <= py < ny ==> w.y0 <= py < w.y1
    ensures Undersized(w) <==> NearEdge(px, py, ny, nx)
  {
    Window(Max(px - HalfSize, 0), Min(px + HalfSize, nx), Max(py - HalfSize, 0), Min(py + HalfSize, ny))
  }

  function Max(a: int, b: int): int { if a < b then b else a }

  function Min(a: int, b: int): int { if a < b then a else b }

  /** The number of indices in `[lo, hi)`, zero when the range is empty. */
  function Extent(lo: int, hi: int): nat
  {
    if lo < hi then hi - lo else 0
  }

  /** The part of the image inside a window that lies within the image. */
  function Extract(image: Image, w: Window): (sub: seq<seq<real>>)
    requires 0 <= w.x0 && w.x1 <= image.nx && 0 <= w.y0 && w.y1 <= image.Height()
    ensures |sub| == Extent(w.y0, w.y1)
    ensures forall i :: 0 <= i < |sub| ==> |sub[i]| == Extent(w.x0, w.x1)
    ensures forall i, j :: 0 <= i < |sub| && 0 <= j < Extent(w.x0, w.x1) ==> sub[i][j] == image.rows[w.y0 + i][w.x0 + j]
  {
    assert image.Rectangular();
    seq(Extent(w.y0, w.y1), i requires 0 <= i < Extent(w.y0, w.y1) =>
      if w.x0 < w.x1 then image.rows[w.y0 + i][w.x0..w.x1] else [])
  }

  /** The cropped pixels and whether the undersized warning was raised. */
  datatype Cut = Cut(pixels: seq<seq<real>>, undersized: bool)

  /** Clamp the window around the target and extract it; no padding is added. */
  function CutOut(f: Frame): (c: Cut)
    ensures |c.pixels| <= CutoutSize
    ensures forall i :: 0 <= i < |c.pixels| ==> |c.pixels[i]| <= CutoutSize
    ensures c.undersized <==> NearEdge(f.Px(), f.Py(), f.image.Height(), f.image.nx)
    ensures var w := ClampWindow(f.Px(), f.Py(), f.image.Height(), f.image.nx);
      && |c.pixels| == Extent(w.y0, w.y1)
      && (forall i :: 0 <= i < |c.pixels| ==> |c.pixels[i]| == Extent(w.x0, w.x1))
      && forall i, j :: 0 <= i < |c.pixels| && 0 <= j < Extent(w.x0, w.x1) ==>
           c.pixels[i][j] == f.image.rows[w.y0 + i][w.x0 + j]
  {
    var w := ClampWindow(f.Px(), f.Py(), f.image.Height(), f.image.nx);
    Cut(Extract(f.image, w), Undersized(w))
  }

  /**
   * A centre within half a cutout of the left or right edge gives rows shorter
   * than the nominal size, and one near the top or bottom edge gives fewer rows:
   * nothing is padded back to 128.
   */
  lemma NearEdgeShortensCutout(f: Frame)
    ensures var c := CutOut(f);
      f.Px() < HalfSize || f.image.nx - HalfSize < f.Px() ==>
        forall i :: 0 <= i < |c.pixels| ==> |c.pixels[i]| < CutoutSize
    ensures var c := CutOut(f);
      f.Py() < HalfSize || f.image.Height() - HalfSize < f.Py() ==> |c.pixels| < CutoutSize
  {
  }

  /** A centre at least half a cutout away from every edge gives the full square around it. */
  lemma InteriorCutoutIsFull(f: Frame)
    requires !NearEdge(f.Px(), f.Py(), f.image.Height(), f.image.nx)
    ensures var c := CutOut(f);
      !c.undersized && |c.pixels| == CutoutSize &&
      forall i :: 0 <= i < CutoutSize ==>
        c.pixels[i] == f.image.rows[f.Py() - HalfSize + i][f.Px() - HalfSize..f.Px() + HalfSize]
  {
  }

  /** When the target pixel lies inside the image, the cutout keeps it, at its offset from the window's corner. */
  lemma CutoutContainsTarget(f: Frame)
    requires 0 <= f.Px() < f.image.nx && 0 <= f.Py() < f.image.Height()
    ensures var c := CutOut(f);
      var w := ClampWindow(f.Px(), f.Py(), f.image.Height(), f.image.nx);
      f.Py() - w.y0 < |c.pixels| && f.Px() - w.x0 < |c.pixels[f.Py() - w.y0]| &&
      c.pixels[f.Py() - w.y0][f.Px() - w.x0] == f.image.rows[f.Py()][f.Px()]
  {
  }

  // Python slicing with step 1, as numpy applies it to each axis of `data[y0:y1, x0:x1]`.

  /** One bound of a slice: a negative index counts from the end, then the result is clipped to `[0, len]`. */
  function SliceBound(i: int, len: nat): (b: nat)
    ensures b <= len
    ensures 0 <= i <= len ==> b == i
    ensures i < 0 <= len + i ==> b == len + i
    ensures len < i ==> b == len
    ensures len + i < 0 ==> b == 0
  {
    if i < 0 then (if i + len < 0 then 0 else i + len)
    else if len < i then len
    else i
  }

  /** The index range `[lo, hi)` that `s[start:stop]` selects from a sequence of length `len`. */
  function SliceRange(len: nat, start: int, stop: int): (r: (nat, nat))
    ensures r.0 <= r.1 <= len
    ensures r.0 == SliceBound(start, len)
    ensures SliceBound(start, len) <= SliceBound(stop, len) ==> r.1 == SliceBound(stop, len)
    ensures SliceBound(stop, len) <= SliceBound(start, len) ==> r.1 == r.0
  {
    var lo := SliceBound(start, len);
    var hi := SliceBound(stop, len);
    (lo, if hi < lo then lo else hi)
  }

  /** The sub-array `data[y0:y1, x0:x1]` exactly as the tool slices it, negative stops included. */
  function ExtractAsWritten(image: Image, w: Window): (sub: seq<seq<real>>)
    ensures |sub| <= image.Height()
    ensures forall i :: 0 <= i < |sub| ==> |sub[i]| <= image.nx
  {
    var (ylo, yhi) := SliceRange(image.Height(), w.y0, w.y1);
    var (xlo, xhi) := SliceRange(image.nx, w.x0, w.x1);
    seq(yhi - ylo, i requires 0 <= i < yhi - ylo => image.rows[ylo + i][xlo..xhi])
  }

  /**
   * Whenever the window's stop indices are not negative (the centre is at least
   * half a cutout to the right of and below the image's far-left and top edges),
   * the slice as written and the clamped extraction agree.
   */
  lemma AsWrittenAgreesWithoutWrap(f: Frame)
    requires -HalfSize <= f.Px() && -HalfSize <= f.Py()
    ensures var w := ClampWindow(f.Px(), f.Py(), f.image.Height(), f.image.nx);
      ExtractAsWritten(f.image, w) == Extract(f.image, w)
  {
  }

  /**
   * A centre more than half a cutout left of an image whose row still reaches
   * past it gives a negative stop `x1 = px + 64`, so the window `[0, x1)` is
   * empty; the slice reads `x1` as counting from the right edge and returns
   * `nx + px + 64` columns of every row in the window: more than the nominal
   * size whenever `nx + px + 64 > 128`, as for `px = -65` and `nx >= 130`.
   */
  lemma WrappedCutoutWidth(f: Frame)
    requires f.Px() < -HalfSize && 0 < f.image.nx + f.Px() + HalfSize
    requires 0 <= f.Py() < f.image.Height()
    ensures var w := ClampWindow(f.Px(), f.Py(), f.image.Height(), f.image.nx);
      var sub := ExtractAsWritten(f.image, w);
      && |sub| == |Extract(f.image, w)| >= 1
      && (forall i :: 0 <= i < |sub| ==> |sub[i]| == f.image.nx + f.Px() + HalfSize)
      && (forall i :: 0 <= i < |sub| ==> Extract(f.image, w)[i] == [])
      && (forall i :: 0 <= i < |sub| ==> sub[i] == f.image.rows[w.y0 + i][..f.image.nx + f.Px() + HalfSize])
  {
  }

  /** The same wrap on the row axis: a centre more than half a cutout above the image. */
  lemma WrappedCutoutHeight(f: Frame)
    requires f.Py() < -HalfSize && 0 < f.image.Height() + f.Py() + HalfSize
    requires 0 <= f.Px() < f.image.nx
    ensures var w := ClampWindow(f.Px(), f.Py(), f.image.Height(), f.image.nx);
      |ExtractAsWritten(f.image, w)| == f.image.Height() + f.Py() + HalfSize &&
      |Extract(f.image, w)| == 0
  {
  }
}
