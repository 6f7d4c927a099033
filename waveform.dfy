/** The detail waveform widget: its view state (frames shown, position
    marker, scroll offset), the cached composited image, the refresh tick
    and the per-paint viewport with the position cursor stamped in. */
module Waveform {
  import opened Raster
  import opened Detail

  /** Period of the refresh timer in milliseconds (`startTimer(40)`). */
  const TimerIntervalMs := 40
  /** Scroll rate of the refresh clock in pixels per second. */
  const ScrollRate := 142
  /** Pixels scrolled per tick, `int(142*0.04)`: 5680 / 1000 truncated. */
  const ScrollStep := ScrollRate * TimerIntervalMs / 1000

  /** Width of the red position cursor in pixels. */
  const MarkerWidth := 4

  /** A non-negative rational `num / den` standing for the float position
      marker (a relative location within the view). */
  datatype Fraction = Fraction(num: nat, den: nat)

  /** `int(relative * frames)`: for a non-negative product, truncation is
      the largest integer not above it. */
  function MarkerOffset(relative: Fraction, frames: nat): (r: nat)
    requires relative.den > 0
    ensures relative.den * r <= relative.num * frames < relative.den * (r + 1)
  {
    relative.num * frames / relative.den
  }

  /** The refresh clock scrolls 5 pixels per tick. */
  lemma ScrollStepIsFive()
    ensures ScrollStep == 5 && ScrollStep > 0
  {
  }

  /** Cell (x, y) of the frame painted for scroll offset `offset`: the
      position cursor in columns `markerOffset .. markerOffset+3`, elsewhere
      column `offset + x` of the composited image, black past its end. */
  function ViewPixel(samples: seq<byte>, renderOffset: int, beats: Option<seq<Beat>>,
                     offset: int, markerOffset: int, x: int, y: int): Color
  {
    if InRect(x, y, markerOffset, 0, MarkerWidth, WaveformHeight) then Red
    else if 0 <= offset + x < renderOffset + |samples| then DetailPixel(samples, renderOffset, beats, offset + x, y)
    else Black
  }

  /** With no scroll, the frame's left edge is the image's left edge:
      off the cursor, frame column x is image column x. */
  lemma ViewAtZeroOffset(samples: seq<byte>, renderOffset: nat, beats: Option<seq<Beat>>,
                         markerOffset: int, x: int, y: int)
    requires 0 <= x < renderOffset + |samples| && 0 <= y < WaveformHeight
    requires !(markerOffset <= x < markerOffset + MarkerWidth)
    ensures ViewPixel(samples, renderOffset, beats, 0, markerOffset, x, y) ==
            DetailPixel(samples, renderOffset, beats, x, y)
  {
  }

  /** One refresh tick moves the picture ScrollStep columns to the left;
      only the cursor stays where it is. */
  lemma ViewAfterTick(samples: seq<byte>, renderOffset: int, beats: Option<seq<Beat>>,
                      offset: int, markerOffset: int, x: int, y: int)
    requires 0 <= y < WaveformHeight
    requires !(markerOffset <= x < markerOffset + MarkerWidth)
    requires !(markerOffset <= x + ScrollStep < markerOffset + MarkerWidth)
    ensures ViewPixel(samples, renderOffset, beats, offset + ScrollStep, markerOffset, x, y) ==
            ViewPixel(samples, renderOffset, beats, offset, markerOffset, x + ScrollStep, y)
  {
  }

  class WaveformWidget {
    /** Samples of the last waveform reply (header stripped); None before any. */
    var waveformData: Option<seq<byte>>
    /** The parsed beat grid; None before any, or after a failed parse. */
    var beatgridData: Option<seq<Beat>>
    /** The cached composited image; null before the first waveform. */
    var pixmap: array2?<Color>
    /** Image column shown at the left edge of the view. */
    var offset: nat
    /** Relative location of the position cursor within the view. */
    var positionMarker: Fraction
    /** Number of image columns shown at once. */
    var frames: nat
    /** Column of the position cursor within the view. */
    var positionMarkerOffset: nat
    /** Number of redraws requested (`update()` calls). */
    var updates: nat

    /** View-state invariant: the cursor column follows the marker and the
        frame count, and an image exists exactly when samples do. */
    ghost predicate Valid()
      reads this
    {
      MarkerValid() && ImageValid()
    }

    ghost predicate MarkerValid()
      reads this
    {
      positionMarker.den > 0 && positionMarkerOffset == MarkerOffset(positionMarker, frames)
    }

    ghost predicate ImageValid()
      reads this
    {
      && (pixmap == null <==> waveformData.None?)
      && (pixmap != null ==>
            pixmap.Length1 == WaveformHeight && pixmap.Length0 >= |waveformData.value|)
    }

    /** The cached image is the composition of the current samples and beat
        grid, drawn at the cursor offset it was rendered with. */
    ghost predicate Cached()
      reads this, pixmap
    {
      pixmap != null ==>
        && waveformData.Some?
        && pixmap.Length0 >= |waveformData.value|
        && forall x, y :: 0 <= x < pixmap.Length0 && 0 <= y < pixmap.Length1 ==>
             pixmap[x, y] == DetailPixel(waveformData.value, pixmap.Length0 - |waveformData.value|,
                                         beatgridData, x, y)
    }

    constructor ()
      ensures Valid() && Cached()
      ensures waveformData == None && beatgridData == None && pixmap == null
      ensures offset == 0 && updates == 0
      ensures positionMarker == Fraction(1, 2) && frames == PxPerSecond * 10
      ensures positionMarkerOffset == 750
    {
      waveformData, beatgridData, pixmap := None, None, null;
      offset, updates := 0, 0;
      positionMarker := Fraction(1, 2);
      frames, positionMarkerOffset := 0, 0;
      new;
      SetFrameCount(PxPerSecond * 10);
    }

    /** Store the samples of a waveform reply and rebuild the image. */
    method SetData(d: seq<byte>)
      requires Valid()
      modifies this`waveformData, this`pixmap
      ensures Valid() && Cached()
      ensures waveformData == Some(StripHeader(d))
      ensures fresh(pixmap) && pixmap.Length0 == positionMarkerOffset + |StripHeader(d)|
      ensures pixmap.Length1 == WaveformHeight
    {
      pixmap := null;
      waveformData := Some(StripHeader(d));
      RenderWaveformPixmap();
    }

    /** Store the parsed beat grid (None when parsing fails, without raising)
        and rebuild the image only when there are samples. */
    method SetBeatgridData(raw: seq<byte>, parse: seq<byte> -> Option<seq<Beat>>)
      requires Valid()
      modifies this`beatgridData, this`pixmap
      ensures Valid() && beatgridData == parse(raw)
      ensures if waveformData.Some? && |waveformData.value| > 0
              then fresh(pixmap) && Cached() && pixmap.Length0 == positionMarkerOffset + |waveformData.value|
              else pixmap == old(pixmap)
      ensures old(Cached()) ==> Cached()
    {
      beatgridData := parse(raw);
      if waveformData.Some? && |waveformData.value| > 0 {
        RenderWaveformPixmap();
      }
    }

    /** Set the number of columns shown; the cursor column follows. */
    method SetFrameCount(n: nat)
      requires Valid()
      modifies this`frames, this`positionMarker, this`positionMarkerOffset
      ensures Valid()
      ensures frames == n && positionMarker == old(positionMarker)
      ensures positionMarkerOffset == MarkerOffset(positionMarker, n)
    {
      frames := n;
      SetPositionMarkerOffset(positionMarker);
    }

    /** Set the relative cursor location; the cursor column follows. */
    method SetPositionMarkerOffset(relative: Fraction)
      requires ImageValid() && relative.den > 0
      modifies this`positionMarker, this`positionMarkerOffset
      ensures Valid()
      ensures positionMarker == relative
      ensures positionMarkerOffset == MarkerOffset(relative, frames)
    {
      positionMarker := relative;
      positionMarkerOffset := MarkerOffset(relative, frames);
    }

    /** Draw the image for the current samples, beat grid and cursor offset:
        black, the white centre line, one bar per sample, then the ticks. */
    method RenderWaveformPixmap()
      requires MarkerValid() && waveformData.Some?
      modifies this`pixmap
      ensures Valid() && Cached()
      ensures fresh(pixmap)
      ensures pixmap.Length0 == positionMarkerOffset + |waveformData.value|
      ensures pixmap.Length1 == WaveformHeight
    {
      var samples := waveformData.value;
      var pmo := positionMarkerOffset;
      var img := new Color[pmo + |samples|, WaveformHeight];
      Fill(img, Black);
      DrawHLine(img, Center, 0, img.Length0, White);
      if |samples| > 0 {
        for i := 0 to |samples|
          invariant forall x, y :: 0 <= x < img.Length0 && 0 <= y < img.Length1 ==>
            img[x, y] == BarsPixel(samples, pmo, i, x, y)
        {
          var h := SampleHeight(samples[i]);
          DrawVLine(img, pmo + i, Center - h, Center + h, BarColor(samples[i]));
        }
        if beatgridData.Some? {
          var beats := beatgridData.value;
          for k := 0 to |beats|
            invariant forall x, y :: 0 <= x < img.Length0 && 0 <= y < img.Length1 ==>
              img[x, y] == Overlay(LastTick(beats[..k], pmo, x, y), BarsPixel(samples, pmo, |samples|, x, y))
          {
            var bt := beats[k];
            var len := TickLength(bt);
            var drawX := BeatX(bt.time, pmo);
            FillRect(img, drawX - 1, 0, 4, len, TickColor(bt));
            FillRect(img, drawX - 1, WaveformHeight - len, 4, len, TickColor(bt));
            assert beats[..k + 1][..k] == beats[..k];
          }
          assert beats[..|beats|] == beats;
        }
      }
      pixmap := img;
    }

    /** Refresh tick: scroll forward by ScrollStep and request a redraw. */
    method TimerEvent()
      modifies this`offset, this`updates
      ensures offset == old(offset) + ScrollStep && offset > old(offset)
      ensures updates == old(updates) + 1
    {
      offset := offset + ScrollStep;
      updates := updates + 1;
    }

    /** The unscaled frame a paint shows: `frames` columns of the image from
        `offset` on, with the cursor stamped in; null when there is no
        image to show (none yet, or one of width zero). */
    method PaintEvent() returns (frame: array2?<Color>)
      requires Valid()
      ensures (frame != null) == (pixmap != null && pixmap.Length0 > 0)
      ensures pixmap != null ==> unchanged(pixmap)
      ensures frame != null ==>
        && fresh(frame) && frame.Length0 == frames && frame.Length1 == WaveformHeight
        && forall x, y :: 0 <= x < frames && 0 <= y < WaveformHeight ==>
             frame[x, y] == if InRect(x, y, positionMarkerOffset, 0, MarkerWidth, WaveformHeight) then Red
                            else if offset + x < pixmap.Length0 then pixmap[offset + x, y]
                            else Black
      ensures frame != null && Cached() ==>
        forall x, y :: 0 <= x < frames && 0 <= y < WaveformHeight ==>
          frame[x, y] == ViewPixel(waveformData.value, pixmap.Length0 - |waveformData.value|, beatgridData,
                                   offset, positionMarkerOffset, x, y)
    {
      if pixmap != null && pixmap.Length0 > 0 {
        frame := Copy(pixmap, offset, 0, frames, WaveformHeight);
        DrawPositionMarker(frame);
      } else {
        frame := null;
      }
    }

    /** Stamp the red cursor, columns `positionMarkerOffset .. +3`, full height. */
    method DrawPositionMarker(frame: array2<Color>)
      modifies frame
      ensures forall x, y :: 0 <= x < frame.Length0 && 0 <= y < frame.Length1 ==>
        frame[x, y] == if InRect(x, y, positionMarkerOffset, 0, MarkerWidth, WaveformHeight) then Red
                       else old(frame[x, y])
    {
      FillRect(frame, positionMarkerOffset, 0, MarkerWidth, WaveformHeight, Red);
    }
  }
}
