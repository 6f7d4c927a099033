# Waveform, preview, beat bar and player registry of the ProDJ Link monitor

This project models the rendering and state core of the monitor window of
python-prodj-link (`gui.py`) in Dafny, and proves properties of it:

- **Detail waveform** (`WaveformWidget`). A waveform reply loses its 20-byte
  header. Each remaining byte is one sample: half-height `b & 0x1f` and
  whiteness `b >> 5`. The widget composites, once per data update, a 75-row
  image that is `position_marker_offset + #samples` wide. The image is black
  with a white centre line on row 37. Each sample gets one vertical bar of
  colour (36w, 36w, 255). When a beat grid is present, each beat gets red
  (downbeat, 8 px) or white (5 px) ticks at the top and bottom edges. The
  widget also keeps its view state: frames shown, the position-cursor offset
  and the scroll offset. A 40 ms refresh tick moves the scroll offset forward
  by 5. Each paint copies a `frames`-wide window out of the cached image and
  stamps a 4-px red cursor into the copy.
- **Preview waveform** (`PreviewWaveformWidget`). A fixed 400×34 image is
  built from (height, whiteness) byte pairs. Bars are drawn only for buffers
  of at least 800 bytes. A white baseline sits on row 33. The progress
  position is debounced.
- **Beat bar** (`BeatBarWidget`). There are four boxes, and box `beat-1` is
  filled. The beat value is debounced.
- **Player registry** (`Gui`). It is a dictionary of player widgets on a
  two-column grid. Players are created and removed idempotently. Keepalives
  outside 1..4 are ignored. Four fetch requests are issued only when a
  player's track id changes to a non-zero value. Replies for players that
  are no longer present are dropped.

Layout of the project:

- `raster.dfy` (module `Raster`): the pixmap, an `array2<Color>` indexed
  `img[x, y]`. The primitives the core's images need are methods that write
  cells, clipped to the image: `Fill`, `FillRect`, vertical and horizontal
  `drawLine`, and `copy`. The beat bar's `drawRect` becomes a black
  `FillRect`; its outline is left out.
- `detail.dfy` (module `Detail`): sample decoding, beat placement, and
  `DetailPixel`, the colour every cell of the composited image must have. It
  also holds the lemmas about that image.
- `waveform.dfy` (module `Waveform`): the `WaveformWidget` class. Its
  `RenderWaveformPixmap` loops are proved to produce exactly `DetailPixel`,
  and `PaintEvent` is proved to produce `ViewPixel`.
- `preview.dfy` (module `Preview`) and `beatbar.dfy` (module `BeatBar`): the
  two smaller widgets.
- `registry.dfy` (module `Registry`): `PlayerWidget` (only its core widgets,
  its `track_id` and the player number of its title) and the `Gui` registry.

Modelling choices:

- Calls to the data service are recorded in an emitted list, `Gui.requests`.
- A reply is a tagged union, `Reply`, rather than a string tag and an untyped
  payload.
- `Beatgrid.parse` lives outside the modelled file. It is passed in as a
  function from bytes to an optional list of beats. `None` stands for a parse
  that raised `RangeError` or `FieldError`.
- The float position marker is a non-negative fraction `num/den`. The
  progress value is passed in as the integer `int(400*relative)`.
- `update()` increments a redraw counter `updates`. `startTimer` is replaced
  by calls to `TimerEvent`.
- A widget's `if self.pixmap:` is read as "an image exists and is not a
  null pixmap", that is, its width is positive.

Three behaviours of the code that a reader might not expect:

- The preview widget stores `position` but never draws a progress marker.
- Changing the frame count or the marker does not re-render the image. The
  cached image therefore keeps the cursor offset it was rendered with, and
  `Cached()` is stated relative to that offset.
- The scroll offset is never reset when new data arrives.

## Model

| member | source | states |
|---|---|---|
| Raster.Fill | gui.py:75 | every cell of the pixmap gets the fill colour |
| Raster.FillRect | gui.py:99-100 | exactly the cells of the rectangle that lie inside the image get the colour; every other cell keeps its old colour |
| Raster.DrawVLine | gui.py:89 | a 1-px vertical line colours the cells of its column between the two end points (both included) and nothing else |
| Raster.DrawHLine | gui.py:81 | a 1-px horizontal line colours the cells of its row between the two end points (both included) and nothing else |
| Raster.Copy | gui.py:54 | the copy is a fresh w×h pixmap whose cell (x, y) is source cell (left+x, top+y); cells outside the source are black |
| Detail.SampleHeight | gui.py:86 | the half-height of a sample (its low five bits) lies in 0..31 |
| Detail.Whiteness | gui.py:87 | the whiteness of a sample (its high three bits) lies in 0..7, and 32·whiteness + half-height rebuilds the byte |
| Detail.DecodeIsBitwise | gui.py:86-87 | on the 8-bit value of a sample, the half-height is exactly `b & 0x1f` and the whiteness exactly `b >> 5` |
| Detail.BarColor | gui.py:88 | the bar colour is a valid RGB colour with red = green = 36·whiteness ≤ 252 and blue = 255 |
| Detail.DecodeEncode | gui.py:86-87 | every (height, whiteness) pair in range is decoded back from its byte |
| Detail.EncodeDecode | gui.py:86-87 | every byte is rebuilt from its height and whiteness, so decoding loses nothing |
| Detail.StripHeader | gui.py:29 | the stored samples are `d[20:]`: max(\|d\|-20, 0) bytes, byte i being d[20+i] |
| Detail.BarInBand | gui.py:85-89 | a bar covers the centre row 37 and exactly rows 37-h..37+h, all inside rows 6..68 of the 75-row band |
| Detail.BeatX | gui.py:98 | definition: column of a beat, `time*150//1000 + position_marker_offset` |
| Detail.BeatXMonotone | gui.py:98 | a later beat is never placed left of an earlier one |
| Detail.BeatXWholeSeconds | gui.py:98 | a beat at k seconds is placed at column 150·k + position_marker_offset (1000 ms gives 150 for offset 0) |
| Detail.TickLength | gui.py:92-97 | definition: ticks are 8 px long for beat 1 and 5 px for every other beat |
| Detail.TickColor | gui.py:92-97 | definition: ticks are red for beat 1 and white for every other beat |
| Detail.TickCovers | gui.py:99-100 | definition: a beat's two ticks cover columns x-1..x+2 on the top `length` rows and the bottom `length` rows |
| Detail.LastTick | gui.py:91-100 | definition: the colour of the last beat, in drawing order, whose tick covers the cell: a later beat paints over an earlier one |
| Detail.LastTickIsLastCovering | gui.py:91-100 | a cell takes the colour of the last beat whose tick covers it, and has no tick colour when none covers it |
| Detail.LastCoveringExists | gui.py:92-97 | a cell covered by some tick shows red or white |
| Detail.DetailPixel | gui.py:72-100 | definition: the composited image: `Background` (black, white centre row 37), then `BarsPixel` (one bar per sample, 37-h..37+h in its column), then `LastTick` on top, only when there are samples and a beat grid |
| Detail.SampleColumn | gui.py:84-89 | off the ticks, sample i lands in column position_marker_offset+i only, as its bar colour on its bar rows; every other cell there is background |
| Detail.TickPlacement | gui.py:90-100 | with samples and a beat grid, the cells of the top and bottom ticks (columns x-1..x+2) of a beat not painted over later are red for beat 1 and white otherwise |
| Detail.NoTicksWithoutGrid | gui.py:83-90 | with no samples or no beat grid no tick is drawn: no cell is red, and every cell is bar or background |
| Detail.OutsideBandIsBlackOrTick | gui.py:73-100 | outside rows 6..68 a cell is black or a tick colour, and black when there is no beat grid |
| Waveform.MarkerOffset | gui.py:47 | the cursor column is the largest integer not above relative·frames, that is `int(relative*frames)` |
| Waveform.ScrollStepIsFive | gui.py:106 | each tick scrolls `int(142*0.04)` = 5 pixels |
| Waveform.ViewPixel | gui.py:53-65 | definition: a painted frame: the red cursor in columns cursor..cursor+3, elsewhere image column `offset + x`, black past the image |
| Waveform.ViewAtZeroOffset | gui.py:53-55 | at scroll offset 0 the frame's left edge is the image's left edge: off the cursor, frame column x is image column x |
| Waveform.ViewAfterTick | gui.py:104-108 | after one tick, off the cursor, the picture is the previous one moved 5 columns to the left |
| Waveform.WaveformWidget.constructor | gui.py:12-25 | no data, no beat grid, no image; offset 0; marker 1/2; 1500 frames; cursor column 750 |
| Waveform.WaveformWidget.SetData | gui.py:27-30 | stores `d[20:]` and rebuilds the image: (cursor column + samples) wide, 75 high, equal to the composite |
| Waveform.WaveformWidget.SetBeatgridData | gui.py:32-39 | stores the parse result (None on failure, without raising); rebuilds the image only if there are samples; otherwise the image is kept and stays consistent |
| Waveform.WaveformWidget.SetFrameCount | gui.py:41-43 | sets frames and recomputes the cursor column from the kept marker |
| Waveform.WaveformWidget.SetPositionMarkerOffset | gui.py:45-47 | sets the marker and keeps cursor column == `int(marker*frames)` |
| Waveform.WaveformWidget.RenderWaveformPixmap | gui.py:71-101 | the fresh image is (cursor column + samples) by 75, and every cell is `DetailPixel` of the samples, the cursor column and the beat grid |
| Waveform.WaveformWidget.TimerEvent | gui.py:104-108 | the offset grows by exactly 5, so it strictly increases; one redraw is requested |
| Waveform.WaveformWidget.PaintEvent | gui.py:49-58 | with a non-null image, the frame is image columns offset..offset+frames-1 with columns cursor..cursor+3 red; the cached image is unchanged; with no image nothing is painted |
| Waveform.WaveformWidget.DrawPositionMarker | gui.py:61-65 | columns cursor..cursor+3 become red over the full height; all other cells are unchanged |
| Preview.PreviewColor | gui.py:157-158 | definition: a preview bar's colour is `QColor(36w, 36w, 255)` with w the second byte plus one |
| Preview.HasBars | gui.py:154 | definition: bars are drawn only for non-empty data of at least 800 bytes |
| Preview.PreviewPixel | gui.py:150-161 | definition: the preview image: white row 33 in columns 0..399, else `Preview.BarsPixel` (bar of column x on rows 31-height..31 in `PreviewColor`) when `HasBars`, black elsewhere |
| Preview.PreviewColorInRange | gui.py:156-158 | the preview colour is a valid RGB colour exactly when the second byte is at most 6 |
| Preview.ShortBufferNoBars | gui.py:154-161 | a missing or shorter-than-800-byte buffer draws no bars: only the baseline is white |
| Preview.FullBufferBars | gui.py:154-159 | with 800 bytes or more every column 0..399 has a bar, coloured by byte 2x+1 on rows 31-byte(2x)..31 |
| Preview.BaselineUntouched | gui.py:159-161 | row 33 is white and row 32 black in columns 0..399, whatever the data |
| Preview.PreviewWaveformWidget.constructor | gui.py:111-119 | no data, position 0 |
| Preview.PreviewWaveformWidget.SetData | gui.py:121-123 | stores the buffer and requests one redraw |
| Preview.PreviewWaveformWidget.SetProgress | gui.py:132-136 | the position becomes the new one; a redraw is requested only when it differs from the stored one |
| Preview.PreviewWaveformWidget.DrawPreviewWaveformPixmap | gui.py:148-163 | the fresh 400×34 image has every cell equal to `PreviewPixel` of the stored data |
| BeatBar.BoxFilled | gui.py:187 | definition: box x is filled yellow exactly when `x == beat - 1` |
| BeatBar.FilledCountIs | gui.py:184-188 | among the first n boxes exactly one is filled when 1 ≤ beat ≤ n, otherwise none |
| BeatBar.OneBoxPerBeat | gui.py:184-188 | beats 1..4 fill exactly box beat-1; 0 or any value outside 1..4 fills none |
| BeatBar.BoxWidth | gui.py:182 | definition: `box_width = (width - 1 - 3*6) // 4` |
| BeatBar.BoxLeft | gui.py:185 | definition: box i starts at column `i * (box_width + 6)` |
| BeatBar.InBox | gui.py:182-186 | definition: a cell lies in box i, `box_width` wide and `height - 1` high from the top |
| BeatBar.BoxesPixel | gui.py:184-188 | definition: the colour of a cell once boxes 0..n-1 are painted, each black, then yellow if it is the beat's box, a later box over an earlier one |
| BeatBar.BoxesLaidOut | gui.py:181-186 | boxes are laid out left to right, 6 px apart, and the last ends inside the widget |
| BeatBar.BoxColor | gui.py:184-188 | for widths of at least 19, every cell of box i ends up yellow when i = beat-1 and black otherwise, whatever was under it |
| BeatBar.OutsideBoxes | gui.py:184-188 | a cell in none of the boxes keeps its colour |
| BeatBar.BeatBarWidget.constructor | gui.py:166-169 | the beat starts at 0 |
| BeatBar.BeatBarWidget.SetBeat | gui.py:171-174 | the beat becomes the new one; a redraw is requested only when it differs from the stored one |
| BeatBar.BeatBarWidget.PaintEvent | gui.py:176-189 | every cell of the canvas is `BoxesPixel` over its old colour: with `BoxColor` and `OutsideBoxes`, the four boxes turn black, except box beat-1, which turns yellow for beats 1..4; all other cells are unchanged |
| Registry.GridCell | gui.py:346 | player n goes to column (n-1) mod 2 of row (n-1) div 2: 2·row + col = n-1 with col in {0, 1} |
| Registry.GridCellInjective | gui.py:346 | distinct players never share a grid cell |
| Registry.GridCellOfFour | gui.py:346 | players 1..4 go to (0,0), (0,1), (1,0), (1,1) |
| Registry.FetchRequests | gui.py:378-382 | the fetches for a track change are four requests of four different kinds, all for the client's player, slot and track, and among them the track's waveform |
| Registry.TrackChanged | gui.py:375 | definition: fetch when the recorded id differs from the new one and the new one is not 0 |
| Registry.TrackChangeOnce | gui.py:375-377 | a change needs an id that is new and non-zero; once recorded, the same id triggers no second fetch |
| Registry.PlayerWidget.constructor | gui.py:192-234 | a new player widget has the number of its title, is `Initial()` (no track id; no waveform data, beat grid or image, offset 0, marker 1/2, 1500 frames, cursor 750; preview empty at position 0; beat 0; no redraws), and its child widgets are fresh |
| Registry.IsKeepaliveNumber | gui.py:359 | definition: keepalives count only for player numbers 1..4 |
| Registry.Gui.constructor | gui.py:324-338 | the registry starts with player 1 alone, at cell (0, 0), and no requests; player 1 is a fresh widget in its initial state with fresh child widgets, as `create_player(1)` builds it |
| Registry.Gui.CreatePlayer | gui.py:342-348 | idempotent: an existing player is kept; a new player n is added at `GridCell(n)` with a fresh widget whose fresh child widgets are in their initial state; every other player and cell is kept; the registry invariant, including distinct child widgets per player, holds |
| Registry.Gui.RemovePlayer | gui.py:350-355 | idempotent: player n and its cell are removed if present; nothing else changes |
| Registry.Gui.KeepaliveSlot | gui.py:358-364 | numbers outside 1..4 change nothing; a present player 1..4 is kept; a missing one is added at `GridCell(n)` with a fresh widget whose fresh child widgets are in their initial state, and every other player and cell is kept |
| Registry.Gui.ChangeCallback | gui.py:366-382 | ignored for absent players; otherwise passes the beat to the beat bar, counting a redraw only for a new beat, and records the id and appends `FetchRequests(c)`, the reference list of the four fetches, exactly when the id changed to a non-zero value; other players and their beat bars are unchanged; recorded ids stay non-zero and requested |
| Registry.Gui.DbserverCallback | gui.py:384-401 | replies for absent players are dropped; other players' widgets and this waveform's offset, frames, marker, cursor and redraw count are unchanged; a waveform reply stores `d[20:]`, keeps the beat grid and rebuilds a consistent (cursor + samples) × 75 image, leaving the preview alone; a preview reply stores the buffer and adds one redraw, keeping the preview's position and leaving the waveform alone; a beat-grid reply stores the parse result, rebuilds the image when there are samples and otherwise keeps it consistent, leaving the preview alone; other replies change no core state |

## Left out

- Scaling of the frame to the widget size (`pixmap.scaled`, gui.py:56, 144) is left out: it is Qt interpolation. `Waveform.WaveformWidget.PaintEvent` returns the unscaled frame. The preview's `paintEvent` (gui.py:138-146) only draws and scales the image, so only `DrawPreviewWaveformPixmap` is modelled.
- Raster.Copy: Qt's own behaviour for a window reaching past the image (gui.py:54) is not modelled. The model pads with black instead. The model also gives an empty window when `frames` is 0, where Qt copies the whole pixmap for an empty rectangle.
- Pen and brush state and antialiasing are left out. A 1-px line is modelled as covering both end points.
- BeatBar.BeatBarWidget.PaintEvent: of `drawRect` (gui.py:186) only the fill by the solid black brush (gui.py:179) is modelled, over the same `box_width` × `box_height` cells as `fillRect`; the yellow 1-px outline it draws around each box is left out.
- Preview.PreviewColor: Qt's treatment of a colour channel above 255 (preview second byte 7 or more) is not modelled. The model keeps the computed value, and `PreviewColorInRange` says when it is valid.
- Float conversions are left out. The marker `relative` is a non-negative fraction, so a negative marker is not modelled. `setProgress` takes the integer `int(400*relative)`. `heightForWidth`, `sizeHint` and `drawPositionMarkerScaled` (gui.py:125-130, 68-69) are left out.
- `Beatgrid.parse` is not part of this model; it is passed in as a function. Exceptions other than its parse errors are not modelled.
- Timers and the Qt event loop are left out: `startTimer(40)` becomes explicit `TimerEvent` calls and `update()` a redraw counter.
- Labels, layout boxes, stylesheets and artwork are left out as display plumbing: `PlayerWidget.reset`, `setPlayerNumber`, `setMaster`, `setPlayerInfo`, `setSpeed`, `setMetadata` and `setArtwork`, and the calls to them from `keepalive_slot`, `change_callback` and `dbserver_callback`.
- The client-list lookup `getClient` is left out: the entry is passed in as `ClientInfo`.
- Logging is left out.
- The artwork fetch at gui.py:391 is left out. It uses an undefined `player_slot`.
