/** The detail waveform as pure functions: decoding a sample byte, placing a
    beat tick, and the colour every cell of the composited image must have.
    `Waveform.WaveformWidget.RenderWaveformPixmap` is proved to produce
    exactly `DetailPixel`; the lemmas here state what that image looks like. */
module Detail {
  import opened Raster

  /** Height of the detail band in pixels. */
  const WaveformHeight := 75
  /** Row of the white orientation line, `75 // 2`. */
  const Center := WaveformHeight / 2
  /** Samples (pixels) per second of track time. */
  const PxPerSecond := 150
  /** Bytes of header in front of the samples in a waveform reply. */
  const HeaderLength := 20

  /** One beat of a parsed beat grid: its time from track start in
      milliseconds and its number within the bar (1 is the downbeat). */
  datatype Beat = Beat(time: int, beat: int)

  // ---------------------------------------------------------------------
  // Sample decoding

  /** Half-height of the bar of a sample: its low five bits, `b & 0x1f`. */
  function SampleHeight(b: byte): (h: int)
    ensures 0 <= h < 32
  {
    b as int % 32
  }

  /** Whiteness of the bar of a sample: its high three bits, `b >> 5`. */
  function Whiteness(b: byte): (w: int)
    ensures 0 <= w < 8
    ensures 32 * w + SampleHeight(b) == b as int
  {
    b as int / 32
  }

  /** The decode is the bitwise one: on the 8-bit value of a sample, the
      half-height is the mask `& 0x1f` and the whiteness the shift `>> 5`. */
  lemma DecodeIsBitwise(v: bv8)
    ensures SampleHeight(v as int as byte) == (v & 0x1F) as int
    ensures Whiteness(v as int as byte) == (v >> 5) as int
  {
  }

  /** The colour `QColor(36*w, 36*w, 255)` both waveform widgets draw with. */
  function Shade(w: int): Color {
    Color(36 * w, 36 * w, 255)
  }

  /** The colour of the bar of a detail sample. */
  function BarColor(b: byte): (c: Color)
    ensures InRgbRange(c) && c.r == c.g <= 252 && c.b == 255
    ensures c.r == 36 * Whiteness(b)
  {
    Shade(Whiteness(b))
  }

  /** The byte that decodes to half-height h and whiteness w. */
  function EncodeSample(h: int, w: int): byte
    requires 0 <= h < 32 && 0 <= w < 8
  {
    (32 * w + h) as byte
  }

  lemma DecodeEncode(h: int, w: int)
    requires 0 <= h < 32 && 0 <= w < 8
    ensures SampleHeight(EncodeSample(h, w)) == h && Whiteness(EncodeSample(h, w)) == w
  {
  }

  lemma EncodeDecode(b: byte)
    ensures EncodeSample(SampleHeight(b), Whiteness(b)) == b
  {
  }

  /** Samples of a waveform reply: everything after the header (`data[20:]`,
      which is empty for a reply of at most 20 bytes). */
  function StripHeader(d: seq<byte>): (s: seq<byte>)
    ensures |s| == Max(|d| - HeaderLength, 0)
    ensures forall i :: 0 <= i < |s| ==> s[i] == d[HeaderLength + i]
  {
    if |d| <= HeaderLength then [] else d[HeaderLength..]
  }

  /** Row y lies on the bar of sample b: between `Center - h` and `Center + h`. */
  predicate BarCovers(b: byte, y: int) {
    Between(y, Center - SampleHeight(b), Center + SampleHeight(b))
  }

  lemma BarInBand(b: byte, y: int)
    ensures BarCovers(b, Center)
    ensures BarCovers(b, y) ==> 6 <= y <= 68 && 0 <= y < WaveformHeight
    ensures BarCovers(b, y) <==> Center - SampleHeight(b) <= y <= Center + SampleHeight(b)
  {
  }

  // ---------------------------------------------------------------------
  // Beat ticks

  /** Column of a beat: `time * 150 // 1000 + position_marker_offset`
      (Python floor division; Dafny's `/` agrees with it for a positive divisor). */
  function BeatX(time: int, markerOffset: int): int {
    time * PxPerSecond / 1000 + markerOffset
  }

  lemma BeatXMonotone(t1: int, t2: int, markerOffset: int)
    requires t1 <= t2
    ensures BeatX(t1, markerOffset) <= BeatX(t2, markerOffset)
  {
    assert t1 * PxPerSecond <= t2 * PxPerSecond;
    DivMonotone(t1 * PxPerSecond, t2 * PxPerSecond, 1000);
  }

  lemma DivMonotone(a: int, b: int, d: int)
    requires a <= b && 0 < d
    ensures a / d <= b / d
  {
    var qa, qb := a / d, b / d;
    assert a == d * qa + a % d && b == d * qb + b % d;
    if qa > qb {
      MulMonotone(1, qa - qb, d);
    }
  }

  lemma BeatXWholeSeconds(seconds: int, markerOffset: int)
    ensures BeatX(1000 * seconds, markerOffset) == PxPerSecond * seconds + markerOffset
  {
    assert 1000 * seconds * PxPerSecond == 1000 * (PxPerSecond * seconds);
  }

  /** Downbeats get a tick 8 pixels long, all other beats 5. */
  function TickLength(bt: Beat): int {
    if bt.beat == 1 then 8 else 5
  }

  /** Downbeats are red, all other beats white. */
  function TickColor(bt: Beat): Color {
    if bt.beat == 1 then Red else White
  }

  /** Cell (x, y) lies on one of the two ticks of a beat: columns `x-1 .. x+2`,
      along the top edge and along the bottom edge of the band. */
  predicate TickCovers(bt: Beat, markerOffset: int, x: int, y: int) {
    var left := BeatX(bt.time, markerOffset) - 1;
    InRect(x, y, left, 0, 4, TickLength(bt))
    || InRect(x, y, left, WaveformHeight - TickLength(bt), 4, TickLength(bt))
  }

  /** The colour of the last tick of `beats` that covers (x, y), if any:
      ticks are drawn in order, so a later one paints over an earlier one. */
  function LastTick(beats: seq<Beat>, markerOffset: int, x: int, y: int): Option<Color> {
    if |beats| == 0 then None
    else if TickCovers(beats[|beats| - 1], markerOffset, x, y) then Some(TickColor(beats[|beats| - 1]))
    else LastTick(beats[..|beats| - 1], markerOffset, x, y)
  }

  lemma {:induction false} LastTickIsLastCovering(beats: seq<Beat>, markerOffset: int, x: int, y: int)
    ensures LastTick(beats, markerOffset, x, y).None? <==>
      forall k :: 0 <= k < |beats| ==> !TickCovers(beats[k], markerOffset, x, y)
    ensures forall k :: 0 <= k < |beats| && TickCovers(beats[k], markerOffset, x, y) ==>
      ((forall j :: k < j < |beats| ==> !TickCovers(beats[j], markerOffset, x, y)) ==>
       LastTick(beats, markerOffset, x, y) == Some(TickColor(beats[k])))
  {
    if |beats| > 0 {
      var init := beats[..|beats| - 1];
      LastTickIsLastCovering(init, markerOffset, x, y);
      assert forall k :: 0 <= k < |init| ==> init[k] == beats[k];
    }
  }

  // ---------------------------------------------------------------------
  // The composited image

  /** Black background with the white orientation line on the centre row. */
  function Background(y: int): Color {
    if y == Center then White else Black
  }

  /** Colour of (x, y) once the first n bars are drawn over the background. */
  function BarsPixel(samples: seq<byte>, markerOffset: int, n: int, x: int, y: int): Color
    requires 0 <= n <= |samples|
  {
    if markerOffset <= x < markerOffset + n && BarCovers(samples[x - markerOffset], y)
    then BarColor(samples[x - markerOffset])
    else Background(y)
  }

  /** A tick colour, if any, painted over the colour under it. */
  function Overlay(tick: Option<Color>, under: Color): Color {
    match tick
    case Some(c) => c
    case None => under
  }

  /** Colour of cell (x, y) of the composited detail image: background and
      centre line, one bar per sample, and, only when there are samples and
      a beat grid, the beat ticks on top. */
  function DetailPixel(samples: seq<byte>, markerOffset: int, beats: Option<seq<Beat>>, x: int, y: int): Color {
    var bars := BarsPixel(samples, markerOffset, |samples|, x, y);
    if |samples| > 0 && beats.Some? then Overlay(LastTick(beats.value, markerOffset, x, y), bars)
    else bars
  }

  /** A cell no tick covers shows the bar of the sample in its column, or the
      background: sample i lands in column `markerOffset + i` and no other. */
  lemma SampleColumn(samples: seq<byte>, markerOffset: int, beats: Option<seq<Beat>>, x: int, y: int)
    requires beats.Some? ==> forall k :: 0 <= k < |beats.value| ==> !TickCovers(beats.value[k], markerOffset, x, y)
    ensures DetailPixel(samples, markerOffset, beats, x, y) ==
      if markerOffset <= x < markerOffset + |samples| && BarCovers(samples[x - markerOffset], y)
      then BarColor(samples[x - markerOffset])
      else Background(y)
  {
    if beats.Some? {
      LastTickIsLastCovering(beats.value, markerOffset, x, y);
    }
  }

  /** A cell covered by the tick of beat k, and by no later tick, has that
      beat's tick colour, provided there are samples and a beat grid. */
  lemma TickPlacement(samples: seq<byte>, markerOffset: int, beats: seq<Beat>, k: int, x: int, y: int)
    requires |samples| > 0 && 0 <= k < |beats|
    requires TickCovers(beats[k], markerOffset, x, y)
    requires forall j :: k < j < |beats| ==> !TickCovers(beats[j], markerOffset, x, y)
    ensures DetailPixel(samples, markerOffset, Some(beats), x, y) == TickColor(beats[k])
    ensures DetailPixel(samples, markerOffset, Some(beats), x, y) == if beats[k].beat == 1 then Red else White
  {
    LastTickIsLastCovering(beats, markerOffset, x, y);
  }

  /** Without samples or without a beat grid no tick is drawn: no cell is red. */
  lemma NoTicksWithoutGrid(samples: seq<byte>, markerOffset: int, beats: Option<seq<Beat>>, x: int, y: int)
    requires |samples| == 0 || beats.None?
    ensures DetailPixel(samples, markerOffset, beats, x, y) != Red
    ensures DetailPixel(samples, markerOffset, beats, x, y) == BarsPixel(samples, markerOffset, |samples|, x, y)
  {
  }

  /** Outside rows 6..68 there are no bars: a cell there is black or a tick. */
  lemma OutsideBandIsBlackOrTick(samples: seq<byte>, markerOffset: int, beats: Option<seq<Beat>>, x: int, y: int)
    requires y < 6 || y > 68
    ensures DetailPixel(samples, markerOffset, beats, x, y) in {Black, Red, White}
    ensures beats.None? ==> DetailPixel(samples, markerOffset, beats, x, y) == Black
  {
    if markerOffset <= x < markerOffset + |samples| {
      BarInBand(samples[x - markerOffset], y);
    }
    if |samples| > 0 && beats.Some? {
      LastTickIsLastCovering(beats.value, markerOffset, x, y);
      if LastTick(beats.value, markerOffset, x, y).Some? {
        var k :| 0 <= k < |beats.value| && TickCovers(beats.value[k], markerOffset, x, y);
        LastCoveringExists(beats.value, markerOffset, x, y, k);
      }
    }
  }

  /** Some covering tick is the last covering one; its colour is red or white. */
  lemma LastCoveringExists(beats: seq<Beat>, markerOffset: int, x: int, y: int, k: int)
    requires 0 <= k < |beats| && TickCovers(beats[k], markerOffset, x, y)
    ensures LastTick(beats, markerOffset, x, y) in {Some(Red), Some(White)}
    decreases |beats| - k
  {
    LastTickIsLastCovering(beats, markerOffset, x, y);
    if exists j :: k < j < |beats| && TickCovers(beats[j], markerOffset, x, y) {
      var j :| k < j < |beats| && TickCovers(beats[j], markerOffset, x, y);
      LastCoveringExists(beats, markerOffset, x, y, j);
    } else {
      assert LastTick(beats, markerOffset, x, y) == Some(TickColor(beats[k]));
    }
  }
}
