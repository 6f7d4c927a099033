/** Shared value types and the pixel buffer that stands for a QPixmap.

    A pixmap is an `array2<Color>` indexed `img[x, y]`: `Length0` is the
    width (columns, x) and `Length1` the height (rows, y), as in Qt's
    coordinates. The primitives the core's images need become methods that
    write cells, clipped to the image bounds. */
module Raster {

  datatype Option<+T> = None | Some(value: T)

  /** One byte of a buffer delivered by the data service. */
  newtype byte = x: int | 0 <= x < 256

  /** An RGB colour. Channels are unbounded integers so that a colour the
      source computes out of Qt's 0..255 range stays visible in the model. */
  datatype Color = Color(r: int, g: int, b: int)

  const Black := Color(0, 0, 0)
  const White := Color(255, 255, 255)
  const Red := Color(255, 0, 0)
  const Yellow := Color(255, 255, 0)

  predicate InRgbRange(c: Color) {
    0 <= c.r < 256 && 0 <= c.g < 256 && 0 <= c.b < 256
  }

  /** `lo <= v <= hi` for the two end points taken in either order: the cells
      a one-pixel pen covers along a line from `a` to `b`. */
  predicate Between(v: int, a: int, b: int) {
    (a <= v <= b) || (b <= v <= a)
  }

  /** Cell (x, y) lies in the rectangle with corner (left, top), width w, height h. */
  predicate InRect(x: int, y: int, left: int, top: int, w: int, h: int) {
    left <= x < left + w && top <= y < top + h
  }

  function Max(a: int, b: int): int { if a < b then b else a }
  function Min(a: int, b: int): int { if a < b then a else b }

  /** Multiplying by a non-negative m keeps the order of the factors. */
  lemma MulMonotone(a: int, b: int, m: int)
    requires a <= b && 0 <= m
    ensures a * m <= b * m
  {
  }

  /** QPixmap.fill: every cell gets colour c. */
  method Fill(img: array2<Color>, c: Color)
    modifies img
    ensures forall x, y :: 0 <= x < img.Length0 && 0 <= y < img.Length1 ==> img[x, y] == c
  {
    for x := 0 to img.Length0
      invariant forall i, j :: 0 <= i < x && 0 <= j < img.Length1 ==> img[i, j] == c
    {
      for y := 0 to img.Length1
        invariant forall i, j :: 0 <= i < x && 0 <= j < img.Length1 ==> img[i, j] == c
        invariant forall j :: 0 <= j < y ==> img[x, j] == c
      {
        img[x, y] := c;
      }
    }
  }

  /** QPainter.fillRect(left, top, w, h, c), clipped to the image. */
  method FillRect(img: array2<Color>, left: int, top: int, w: int, h: int, c: Color)
    modifies img
    ensures forall x, y :: 0 <= x < img.Length0 && 0 <= y < img.Length1 ==>
      img[x, y] == if InRect(x, y, left, top, w, h) then c else old(img[x, y])
  {
    var x0, x1 := Min(Max(left, 0), img.Length0), Max(Min(left + w, img.Length0), 0);
    var y0, y1 := Min(Max(top, 0), img.Length1), Max(Min(top + h, img.Length1), 0);
    var x := x0;
    while x < x1
      invariant x0 <= x <= Max(x0, x1)
      invariant forall i, j :: 0 <= i < img.Length0 && 0 <= j < img.Length1 ==>
        img[i, j] == if InRect(i, j, left, top, Min(w, x - left), h) then c else old(img[i, j])
    {
      var y := y0;
      while y < y1
        invariant y0 <= y <= Max(y0, y1)
        invariant forall i, j :: 0 <= i < img.Length0 && 0 <= j < img.Length1 ==>
          img[i, j] == if InRect(i, j, left, top, Min(w, x - left), h) || (i == x && y0 <= j < y)
                       then c else old(img[i, j])
      {
        img[x, y] := c;
        y := y + 1;
      }
      x := x + 1;
    }
  }

  /** QPainter.drawLine(x, y0, x, y1) with a one-pixel pen of colour c:
      the cells of column x between the two end points, both included. */
  method DrawVLine(img: array2<Color>, x: int, y0: int, y1: int, c: Color)
    modifies img
    ensures forall i, j :: 0 <= i < img.Length0 && 0 <= j < img.Length1 ==>
      img[i, j] == if i == x && Between(j, y0, y1) then c else old(img[i, j])
  {
    FillRect(img, x, Min(y0, y1), 1, Max(y0, y1) - Min(y0, y1) + 1, c);
  }

  /** QPainter.drawLine(x0, y, x1, y) with a one-pixel pen of colour c:
      the cells of row y between the two end points, both included. */
  method DrawHLine(img: array2<Color>, y: int, x0: int, x1: int, c: Color)
    modifies img
    ensures forall i, j :: 0 <= i < img.Length0 && 0 <= j < img.Length1 ==>
      img[i, j] == if j == y && Between(i, x0, x1) then c else old(img[i, j])
  {
    FillRect(img, Min(x0, x1), y, Max(x0, x1) - Min(x0, x1) + 1, 1, c);
  }

  /** QPixmap.copy(left, top, w, h): a fresh w-by-h pixmap showing the
      rectangle of img with corner (left, top). Cells of the rectangle that
      fall outside img are black (a padding policy of this model; Qt's own
      behaviour there is not modelled). */
  method Copy(img: array2<Color>, left: int, top: int, w: nat, h: nat) returns (out: array2<Color>)
    ensures fresh(out) && out.Length0 == w && out.Length1 == h
    ensures forall x, y :: 0 <= x < w && 0 <= y < h ==>
      out[x, y] == if 0 <= left + x < img.Length0 && 0 <= top + y < img.Length1
                   then img[left + x, top + y] else Black
  {
    out := new Color[w, h];
    for x := 0 to w
      invariant forall i, j :: 0 <= i < x && 0 <= j < h ==>
        out[i, j] == if 0 <= left + i < img.Length0 && 0 <= top + j < img.Length1
                     then img[left + i, top + j] else Black
    {
      for y := 0 to h
        invariant forall i, j :: 0 <= i < x && 0 <= j < h ==>
          out[i, j] == if 0 <= left + i < img.Length0 && 0 <= top + j < img.Length1
                       then img[left + i, top + j] else Black
        invariant forall j :: 0 <= j < y ==>
          out[x, j] == if 0 <= left + x < img.Length0 && 0 <= top + j < img.Length1
                       then img[left + x, top + j] else Black
      {
        out[x, y] := if 0 <= left + x < img.Length0 && 0 <= top + y < img.Length1
                     then img[left + x, top + y] else Black;
      }
    }
  }
}
