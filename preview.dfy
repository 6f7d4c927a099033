/** The preview waveform widget: a fixed 400 x 34 image of the whole track
    built from byte pairs (height, whiteness), and the debounced progress
    position. */
module Preview {
  import opened Raster
  import Detail

  const PreviewWidth := 400
  const PreviewHeight := 34
  /** Row every preview bar starts from. */
  const BarBase := 31
  /** Row of the white baseline. */
  const BaselineRow := 33
  /** Two bytes per column: a buffer shorter than this draws no bars. */
  const MinPreviewBytes := 2 * PreviewWidth

  /** `self.data and len(self.data) >= 400*2`. */
  predicate HasBars(data: Option<seq<byte>>) {
    data.Some? && |data.value| > 0 && |data.value| >= MinPreviewBytes
  }

  /** Colour of a preview bar: whiteness is the second byte plus one. */
  function PreviewColor(raw: byte): Color {
    Detail.Shade(raw as int + 1)
  }

  /** Second bytes seen in practice are 0..5; the computed colour is a
      valid RGB colour exactly for second bytes up to 6. */
  lemma PreviewColorInRange(raw: byte)
    ensures InRgbRange(PreviewColor(raw)) <==> raw <= 6
  {
  }

  /** Colour of (x, y) once the bars of columns 0 .. n-1 are drawn over black. */
  function BarsPixel(d: seq<byte>, n: int, x: int, y: int): Color
    requires 0 <= n <= PreviewWidth && |d| >= MinPreviewBytes
  {
    if 0 <= x < n && Between(y, BarBase, BarBase - d[2 * x] as int) then PreviewColor(d[2 * x + 1])
    else Black
  }

  /** Colour of cell (x, y) of the preview image: the white baseline on row
      33, bars from row 31 upward when the buffer is long enough, else black. */
  function PreviewPixel(data: Option<seq<byte>>, x: int, y: int): Color {
    if y == BaselineRow && 0 <= x < PreviewWidth then White
    else if HasBars(data) then BarsPixel(data.value, PreviewWidth, x, y)
    else Black
  }

  /** A buffer too short to hold 400 pairs gives a black image with only the baseline. */
  lemma ShortBufferNoBars(data: Option<seq<byte>>, x: int, y: int)
    requires data.None? || |data.value| < MinPreviewBytes
    ensures PreviewPixel(data, x, y) == if y == BaselineRow && 0 <= x < PreviewWidth then White else Black
  {
  }

  /** With at least 800 bytes every column 0..399 carries a bar: column x is
      coloured by byte 2x+1 exactly on rows `31 - byte 2x .. 31`. */
  lemma FullBufferBars(d: seq<byte>, x: int, y: int)
    requires |d| >= MinPreviewBytes && 0 <= x < PreviewWidth && 0 <= y < PreviewHeight
    ensures PreviewPixel(Some(d), x, BarBase) == PreviewColor(d[2 * x + 1])
    ensures y != BaselineRow ==>
      PreviewPixel(Some(d), x, y) ==
        if BarBase - d[2 * x] as int <= y <= BarBase then PreviewColor(d[2 * x + 1]) else Black
  {
  }

  /** Bars never reach rows 32 and 33: the baseline and the gap above it are untouched. */
  lemma BaselineUntouched(data: Option<seq<byte>>, x: int)
    requires 0 <= x < PreviewWidth
    ensures PreviewPixel(data, x, BaselineRow) == White
    ensures PreviewPixel(data, x, BaselineRow - 1) == Black
  {
  }

  class PreviewWaveformWidget {
    /** The last preview reply; None before any. */
    var data: Option<seq<byte>>
    /** Progress position, `int(400 * relative)`. */
    var position: int
    /** Number of redraws requested (`update()` calls). */
    var updates: nat

    constructor ()
      ensures data == None && position == 0 && updates == 0
    {
      data, position, updates := None, 0, 0;
    }

    method SetData(d: seq<byte>)
      modifies this`data, this`updates
      ensures data == Some(d) && updates == old(updates) + 1
    {
      data := Some(d);
      updates := updates + 1;
    }

    /** Debounced: state changes and a redraw is requested only for a new position. */
    method SetProgress(newPosition: int)
      modifies this`position, this`updates
      ensures position == newPosition
      ensures updates == old(updates) + (if newPosition != old(position) then 1 else 0)
    {
      if newPosition != position {
        position := newPosition;
        updates := updates + 1;
      }
    }

    /** Build the 400 x 34 preview image from the stored data. */
    method DrawPreviewWaveformPixmap() returns (img: array2<Color>)
      ensures fresh(img) && img.Length0 == PreviewWidth && img.Length1 == PreviewHeight
      ensures forall x, y :: 0 <= x < PreviewWidth && 0 <= y < PreviewHeight ==>
        img[x, y] == PreviewPixel(data, x, y)
    {
      img := new Color[PreviewWidth, PreviewHeight];
      Fill(img, Black);
      if data.Some? && |data.value| > 0 && |data.value| >= MinPreviewBytes {
        var d := data.value;
        for x := 0 to PreviewWidth
          invariant forall i, j :: 0 <= i < PreviewWidth && 0 <= j < PreviewHeight ==>
            img[i, j] == BarsPixel(d, x, i, j)
        {
          var height := d[2 * x] as int;
          DrawVLine(img, x, BarBase, BarBase - height, PreviewColor(d[2 * x + 1]));
        }
      }
      DrawHLine(img, BaselineRow, 0, PreviewWidth - 1, White);
    }
  }
}
