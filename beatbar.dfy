/** The beat bar: four boxes side by side, the one of the current beat
    within the bar filled, and a debounced beat value. */
module BeatBar {
  import opened Raster

  const BoxCount := 4
  const BoxGap := 6

  /** Box x (0-based) is filled for beat b exactly when `x == b - 1`. */
  predicate BoxFilled(beat: int, box: int) {
    box == beat - 1
  }

  /** How many of the boxes 0 .. n-1 are filled for `beat`. */
  function FilledCount(beat: int, n: nat): nat {
    if n == 0 then 0 else FilledCount(beat, n - 1) + (if BoxFilled(beat, n - 1) then 1 else 0)
  }

  lemma {:induction false} FilledCountIs(beat: int, n: nat)
    ensures FilledCount(beat, n) == if 1 <= beat <= n then 1 else 0
  {
    if n > 0 {
      FilledCountIs(beat, n - 1);
    }
  }

  /** Beats 1..4 fill exactly one box, box beat-1; any other value fills none. */
  lemma OneBoxPerBeat(beat: int)
    ensures FilledCount(beat, BoxCount) == if 1 <= beat <= BoxCount then 1 else 0
    ensures forall box :: 0 <= box < BoxCount ==> (BoxFilled(beat, box) <==> 1 <= beat <= BoxCount && box == beat - 1)
  {
    FilledCountIs(beat, BoxCount);
  }

  /** `(width - 1 - 3*gap) // 4` (floor division, as Dafny's for a positive divisor). */
  function BoxWidth(width: int): int {
    (width - 1 - (BoxCount - 1) * BoxGap) / BoxCount
  }

  /** Left edge of box i: `i * (box_width + gap)`. */
  function BoxLeft(width: int, i: int): int {
    i * (BoxWidth(width) + BoxGap)
  }

  /** For a widget at least 19 pixels wide the boxes are laid out left to
      right, a gap apart, and the last one ends inside the widget. */
  lemma BoxesLaidOut(width: int, i: int, j: int)
    requires width >= 1 + (BoxCount - 1) * BoxGap
    requires 0 <= i < j < BoxCount
    ensures BoxWidth(width) >= 0
    ensures BoxLeft(width, i) + BoxWidth(width) + BoxGap <= BoxLeft(width, j)
    ensures BoxLeft(width, j) + BoxWidth(width) <= width - 1
  {
    var w := BoxWidth(width);
    assert BoxCount * w <= width - 1 - (BoxCount - 1) * BoxGap;
    assert BoxLeft(width, j) - BoxLeft(width, i) == (j - i) * (w + BoxGap);
    MulMonotone(1, j - i, w + BoxGap);
    assert j * (w + BoxGap) <= (BoxCount - 1) * (w + BoxGap) by {
      MulMonotone(j, BoxCount - 1, w + BoxGap);
    }
  }

  /** Cell (x, y) lies in box i of a widget `width` x `height`: the box is
      `box_width` wide and `box_height = height - 1` high. */
  predicate InBox(width: int, height: int, i: int, x: int, y: int) {
    InRect(x, y, BoxLeft(width, i), 0, BoxWidth(width), height - 1)
  }

  /** Colour of (x, y) once boxes 0 .. n-1 are painted over `under`: the solid
      (black) brush fills every box, and the box of the current beat is then
      filled yellow. A later box paints over an earlier one. */
  function BoxesPixel(width: int, height: int, beat: int, n: nat, x: int, y: int, under: Color): Color {
    if n == 0 then under
    else if InBox(width, height, n - 1, x, y) then (if BoxFilled(beat, n - 1) then Yellow else Black)
    else BoxesPixel(width, height, beat, n - 1, x, y, under)
  }

  /** Boxes do not overlap, so a cell of box i is yellow when i is the
      current beat's box and black otherwise. */
  lemma {:induction false} BoxColor(width: int, height: int, beat: int, n: nat, i: int, x: int, y: int, under: Color)
    requires width >= 1 + (BoxCount - 1) * BoxGap
    requires 0 <= i < n <= BoxCount && InBox(width, height, i, x, y)
    ensures BoxesPixel(width, height, beat, n, x, y, under) == if i == beat - 1 then Yellow else Black
  {
    if n - 1 != i {
      BoxesLaidOut(width, i, n - 1);
      BoxColor(width, height, beat, n - 1, i, x, y, under);
    }
  }

  /** A cell in none of the boxes keeps its colour. */
  lemma {:induction false} OutsideBoxes(width: int, height: int, beat: int, n: nat, x: int, y: int, under: Color)
    requires forall i :: 0 <= i < n ==> !InBox(width, height, i, x, y)
    ensures BoxesPixel(width, height, beat, n, x, y, under) == under
  {
    if n > 0 {
      OutsideBoxes(width, height, beat, n - 1, x, y, under);
    }
  }

  class BeatBarWidget {
    /** The current beat within the bar, or 0 for none. */
    var beat: int
    /** Number of redraws requested (`update()` calls). */
    var updates: nat

    constructor ()
      ensures beat == 0 && updates == 0
    {
      beat, updates := 0, 0;
    }

    /** Debounced: state changes and a redraw is requested only for a new beat. */
    method SetBeat(b: int)
      modifies this`beat, this`updates
      ensures beat == b
      ensures updates == old(updates) + (if b != old(beat) then 1 else 0)
    {
      if b != beat {
        beat := b;
        updates := updates + 1;
      }
    }

    /** Paint onto a canvas the widget's size: each of the four boxes is
        filled black by the solid brush, and the box of the current beat is
        then filled yellow, `box_height = height - 1` rows from the top. */
    method PaintEvent(canvas: array2<Color>)
      modifies canvas
      ensures forall x, y :: 0 <= x < canvas.Length0 && 0 <= y < canvas.Length1 ==>
        canvas[x, y] == BoxesPixel(canvas.Length0, canvas.Length1, beat, BoxCount, x, y, old(canvas[x, y]))
    {
      var boxWidth := BoxWidth(canvas.Length0);
      var boxHeight := canvas.Length1 - 1;
      for x := 0 to BoxCount
        invariant forall i, j :: 0 <= i < canvas.Length0 && 0 <= j < canvas.Length1 ==>
          canvas[i, j] == BoxesPixel(canvas.Length0, canvas.Length1, beat, x, i, j, old(canvas[i, j]))
      {
        var drawX := x * (boxWidth + BoxGap);
        FillRect(canvas, drawX, 0, boxWidth, boxHeight, Black);
        if BoxFilled(beat, x) {
          FillRect(canvas, drawX, 0, boxWidth, boxHeight, Yellow);
        }
      }
    }
  }
}
