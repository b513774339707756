# visualizer 0.5.0-alpha — a Dafny model of its state rules

visualizer is a browser audio visualiser. A Web Audio analyser feeds an animation loop that draws one of
several modes on a full-window canvas. The main mode is a recursive "tree" of branches that rotates, zooms
and changes shape. A once-a-second timer mutates the tree's structure, and keyboard, wheel and drag-and-drop
handlers change the shared parameter records.

This project models the non-drawing logic of the `scripts/` bundle in Dafny:

- `wrappers.dfy` (`Wrappers`): `Option` models `undefined`, `Result` models a promise that rejects, and
  `Outcome` models a check that can fail.
- `text.dfy` (`Text`): the JavaScript built-ins the core relies on. This covers integer and number
  formatting in template literals, `toFixed(2)`, `join`/`split` on one character, and ASCII case mapping.
- `data.dfy` (`Data`, scripts/data.js): the default `graphics` and `audio` records. `TreeParams`,
  `Graphics` and `AudioState` are classes whose constructors build the defaults. `TreeParams` and
  `AudioState` carry the invariant (`Valid`) the handlers keep.
- `utils.dfy` (`Utils`, scripts/utils.js): `random`, `randomColor`, `rgbaString`, `vendorPrefix` and
  `vendorPrefixed`. Property lookups are modelled on a map of JavaScript values with their truthiness.
- `audio.dfy` (`Audio`, scripts/audio.js): the analyser step with its band mapping and low/mid/high
  partition. It also covers source switching, with the `stopped` handshake against the 'ended' event,
  microphone capture's rejection, and the MIME filter for dropped files.
- `gui.js` is modelled in `gui.dfy` (`Gui`): the keydown handler (toggles, recolouring, mode selection by
  digit and `?`), the wheel, `toggleMute`, `toggleFullscreen`, `showError`, `resizeGraphics`, and the drop
  and capture completions.
- `index.js` is modelled in `render.dfy` (`Render`):
  - `hexToRgb` and the `timeLoop` mutator;
  - the per-frame dash and zoom advance;
  - the tree frame, and `renderTree`'s recursion with its global branch counter and the strokes it makes;
  - the line list `renderInfo` draws, the whole `render` frame, and `setup`.

Effects on the world are inputs. The uniform draw behind `Math.random()` is a parameter `u` in [0, 1).
The wall clock is given as elapsed milliseconds and the second of the minute. The analyser's byte buffers
are host-supplied sequences. `|sin(growSpeed) * 1.5|` is also a parameter.

The canvas is reduced to a log. It records the branch counter value at each `stroke()` of the tree.

Behaviour of the code worth knowing, which the model keeps:

- Analysis buffers are allocated only when a source starts. After the FFT size changes on the panel,
  they keep their old length.
- A file that fails to decode is never reported through `showError`. The rejection happens inside the
  file reader's callback, where nothing catches it.
- `graphics.modes` and `graphics.spiral` are never defined in data.js. So by default a digit 1-9 or `?`
  throws before changing the mode (digit 0 returns before the mode list is read). The wheel handler updates the tree zoom and then throws on the spiral.
- Every source start sets `stopped`, even when no earlier source will report 'ended': for the first
  source, after the microphone, and after a file that has already played to its end (`stop()` on an
  ended source dispatches nothing). When the new file then ends on its own, the "playing: ..." line stays
  on screen (`Audio.SwitchWithoutPendingEnd`, `Audio.InitAudio`'s `endedDue`).
- `renderTree` reduces the mid-band amounts without an initial value, so an empty mid band throws. That
  aborts the frame before the info overlay is drawn, and the render loop stops rescheduling. The model
  makes this an outcome of `Render.RenderFrame` rather than a precondition.

## Model

| member | source | states |
|---|---|---|
| Data.DefaultInfoNamesVersion | scripts/data.js:48-57 | the default info text has eight lines and its first line ends with the version string `0.5.0-alpha` |
| Data.FftChoicesArePowersOfTwo | scripts/gui.js:138 | every FFT size the panel offers, the default 8192 among them, is a power of two |
| Data.TreeParams.constructor | scripts/data.js:12-25 | the tree defaults: depth 3 and branch factor 8 within the panel's [2, 10] and [1, 16], zoom 100 within [0, 2000] and increasing, counters and phases at 0, and `branchIncrease` falsy |
| Data.Graphics.constructor | scripts/data.js:9-58 | the graphics defaults: mode `tree`, colours `#e1e1e1`/`#575454`, info shown and data hidden, 60 fps, an empty info list, the default info text, and no mode list and no spiral; its tree has the tree defaults, including rotation speed 5, grow factor 1, zoom speed 0 and a falsy `branchIncrease` |
| Data.AudioState.constructor | scripts/data.js:3-7 | unmuted, FFT size 8192, no source, no buffers; the invariant (output linked exactly when a source plays unmuted, buffers present exactly when a length is set) holds |
| Utils.Random | scripts/utils.js:1-2 | for min <= max the result lies in [floor(min), max + 1); for whole-number bounds it lies in [min, max] |
| Utils.RandomReaches | scripts/utils.js:1-2 | every integer k in [min, max] is produced by some draw u in [0, 1) |
| Utils.RandomColor | scripts/utils.js:4-5 | four elements: three whole numbers in [0, 255], then 1.0 |
| Utils.RgbaString | scripts/utils.js:7-13 | the text starts with `rgba(` and ends with `)`; with four entries it closes with a comma, the fourth entry as printed, and `)` |
| Utils.RgbaStringRoundTrip | scripts/utils.js:7-13 | splitting the inner text at commas gives four parts: the floors of the first three channels, then the fourth entry as printed |
| Utils.RgbaStringIgnoresExtra | scripts/utils.js:9-11 | elements after the fourth do not change the string |
| Utils.VendorPrefix | scripts/utils.js:22-23 | exactly four names, '' / 'ms' / 'moz' / 'webkit' followed by the string, in that order |
| Utils.VendorPrefixDistinct | scripts/utils.js:22-23 | the four names are pairwise different and each one ends in the original string |
| Utils.PrefixedNames | scripts/utils.js:16-17 | the property unchanged first, then 'ms', 'moz' and 'webkit' followed by the property with its first letter upper-cased |
| Utils.FirstTruthy | scripts/utils.js:18-19 | the first truthy value of the list, or `undefined` exactly when none is truthy |
| Utils.VendorPrefixed | scripts/utils.js:15-20 | `undefined` exactly when none of the four prefixed lookups is truthy; otherwise the first truthy lookup in that order |
| Text.Hundredths | scripts/index.js:42-44 | the rounded hundredths lie within half a hundredth of the value, the rounding `toFixed(2)` applies |
| Text.ToFixed2 | scripts/index.js:42-44 | `toFixed(2)`: digits with a point third from the end and two digits after it, led by `-` exactly for a negative value |
| Text.ToFixed2Value | scripts/index.js:42-44 | after the sign, the whole part and the two decimals read back as the rounded hundredths of the magnitude |
| Audio.FreqBands | scripts/audio.js:81-86 | one band per frequency bin, in order; entry i carries amount `freqData[i]` and frequency `i * sampleRate / fftSize` |
| Audio.Select | scripts/audio.js:87-90 | a filter is never longer than the band list it filters |
| Audio.SelectInRange | scripts/audio.js:87-90 | every band a filter keeps has a frequency in that filter's range |
| Audio.SelectKeeps | scripts/audio.js:87-90 | a band is in a range's list exactly when it is among the bands and its frequency lies in that range |
| Audio.SelectPartition | scripts/audio.js:87-90 | the low, mid and high lists together hold every band exactly once |
| Audio.SelectNone | scripts/audio.js:87-90 | a range no band falls in gives an empty list |
| Audio.SelectContiguous | scripts/audio.js:87-90 | over ascending frequencies, low then mid then high concatenate back to the band list, so relative order is kept |
| Audio.FreqBandsAscending | scripts/audio.js:81-86 | bin frequencies ascend with the bin index |
| Audio.BinRange | scripts/audio.js:83-90 | bin i is low exactly when i * sampleRate < 160 * fftSize and high exactly when i * sampleRate >= 1280 * fftSize |
| Audio.BandEdges | scripts/audio.js:87-90 | at 44100 Hz and FFT size 8192 the low/mid edge lies between bins 29 and 30, and the mid/high edge between bins 237 and 238 |
| Audio.AnalyseAudio | scripts/audio.js:76-92 | the analyser takes the chosen FFT size; without a buffer length nothing else changes; otherwise the buffers take the analyser's data and the band lists are rebuilt from it; the invariant holds |
| Audio.CaptureAudio | scripts/audio.js:12-19 | a granted capture yields the input named `microphone`; a refusal rejects with `permission denied to microphone` |
| Audio.AfterInit | scripts/audio.js:49-73 | after a source starts, `stopped` is set and the info is the single line `playing: ` followed by the filename |
| Audio.AfterEnded | scripts/audio.js:60-66 | an 'ended' event clears a pending `stopped` and keeps the info, and otherwise restores the default info |
| Audio.SwitchFromFile | scripts/audio.js:45-66 | when a playing file is replaced, the old source's 'ended' event only clears the flag; the next end restores the default text |
| Audio.SwitchWithoutPendingEnd | scripts/audio.js:49-66 | the first 'ended' after a start never restores the default text, so a first file that ends on its own leaves its `playing:` line |
| Audio.InitAudio | scripts/audio.js:44-74 | an old file source is stopped, and an 'ended' is due exactly when it had not already played to its end; the new source's kind follows the input; the output is linked exactly when unmuted; zeroed buffers of the analyser's bin count; the info shows and reads `playing: <filename>` |
| Audio.SourceEnded | scripts/audio.js:60-66 | the 'ended' listener moves the flag and info as `AfterEnded` says |
| Audio.FileFinished | scripts/audio.js:60-66 | a file that plays to its end runs the listener as `AfterEnded` says and is marked ended, so stopping it later makes no 'ended' due |
| Audio.Analysed | scripts/audio.js:78-91 | without a buffer length the analysis is unchanged; otherwise the buffers are the analyser's bytes and there is one band per frequency byte |
| Audio.AudioTypeExamples | scripts/audio.js:26-29 | `audio/...` matches in any letter case; `video/...`, the empty type and `audi` do not |
| Audio.AudioTypeIsPrefixTest | scripts/audio.js:26-29 | whether a type matches depends only on its first five characters |
| Audio.LoadDraggedAudio | scripts/audio.js:21-42 | a non-audio type rejects with `dragged file is not an audio file` and leaves the info alone; an audio type shows `loading: <name>` and starts the read |
| Gui.ErrorLine | scripts/gui.js:21 | `error: ` followed by the message with every letter lower-cased and nothing else changed |
| Gui.ShowError | scripts/gui.js:19-22 | the info becomes exactly that one line |
| Gui.ResizeGraphics | scripts/gui.js:24-29 | the canvas takes the window's size and the origin is its centre |
| Gui.ModeAfterKey | scripts/gui.js:63-69 | without a mode list the mode stays; the new mode is the old one or an entry of the list; `?` picks the first entry |
| Gui.DigitSelectsMode | scripts/gui.js:63-67 | digit k selects `modes[k]` exactly when 1 <= k <= length - 1; 0 and out-of-range digits leave the mode |
| Gui.OtherKeysKeepMode | scripts/gui.js:68-69 | `?` selects `modes[0]`; other keys leave the mode |
| Gui.ToggleMute | scripts/gui.js:97-104 | with no source nothing changes; otherwise the output is linked exactly when unmuted |
| Gui.ToggleFullscreen | scripts/gui.js:106-114 | the flag always flips, and the request is to exit when it was set and to enter otherwise |
| Gui.KeyDown | scripts/gui.js:42-71 | `f`, `m`, `q`, `i`, `d` each flip their own flag and no other (so a second press restores it); `m` keeps the output link in step; `r` requests capture; `c` sets both colours from fresh random colours; the mode follows the digit/`?` rule |
| Gui.WheelDelta | scripts/gui.js:86-91 | +5 when scrolling up, -5 when scrolling down at a zoom of at least 5, otherwise 0 |
| Gui.WheelKeepsZoomNonNegative | scripts/gui.js:86-92 | a non-negative tree zoom never becomes negative |
| Gui.WheelUpThenDown | scripts/gui.js:86-92 | one notch up followed by one notch down returns to the starting zoom |
| Gui.Wheel | scripts/gui.js:84-94 | the same delta is added to the tree zoom and, when a spiral exists, to its zoom; without one only the tree zoom changes |
| Gui.Drop | scripts/gui.js:37-41 | an audio file starts loading; any other file shows `error: dragged file is not an audio file` |
| Gui.CaptureCompleted | scripts/gui.js:45-48 | a granted capture starts the microphone source with `playing: microphone`; a refusal shows `error: permission denied to microphone` and keeps the source |
| Render.HexToRgb | scripts/index.js:9-14 | a result exactly when, after an optional `#`, there are 3 to 6 hex digits; then three channels in [0, 255]; otherwise the exec result is null and indexing throws |
| Render.HexToRgbSixDigits | scripts/index.js:9-14 | any six hex digits of either letter case, with or without `#`, give the base-16 values of the three pairs |
| Render.HexToRgbRoundTrip | scripts/index.js:9-14 | a colour written as six lower-case or six upper-case hex digits, with or without `#`, parses back to its three channels |
| Render.HexToRgbUpperCase | scripts/index.js:10 | `#E1E1E1` reads the same as `#e1e1e1`: the `i` flag makes the digit class case-blind |
| Render.HexToRgbForeground | scripts/index.js:9-14 | the default foreground `#e1e1e1` gives 225, 225, 225 |
| Render.HexToRgbBackground | scripts/index.js:9-14 | the default background `#575454` gives 87, 84, 84 |
| Render.HexToRgbShorthand | scripts/index.js:10-13 | `#abc` gives 10, 11, 12: the one-digit groups are not doubled |
| Render.HexToRgbFiveDigits | scripts/index.js:10 | five digits split greedily 2, 2, 1 |
| Render.HexToRgbRejects | scripts/index.js:10-11 | two digits, seven digits, or a non-hex character: no match |
| Render.Mutate | scripts/index.js:218-238 | no change within 10 s of start; the branch factor only changes at second 42 and depth and rotation only on a draw of 42; each moves by at most one; at second 42 the direction turns down at 16 and up at 2 and is kept in between, and the factor moves +1 when rising with depth < 5, -1 when falling, else 0; on a draw of 42 the depth moves +1 below factor 10, 0 at depth <= 3, else -1, and the rotation speed gains 2 |
| Render.MutateKeepsSteady | scripts/index.js:219-238 | a branch factor in [1, 16], a non-negative depth, and "depth >= 5 implies factor <= 9" survive every tick |
| Render.MutateKeepsPanelFactor | scripts/index.js:219-232 | a branch factor in [2, 16] stays there |
| Render.DefaultsSteady | scripts/data.js:12-25 | the tree of a freshly built graphics record satisfies the mutator's invariant |
| Render.DepthGrowsBelowTen | scripts/index.js:233-236 | below a factor of 10 every hit adds a level, with no upper limit |
| Render.TimeTick | scripts/index.js:216-239 | one timer tick changes the tree as `Mutate` says with the draw `random(0, second)`; before second 42 depth and rotation cannot change; the tree invariant is kept |
| Render.ZoomStep | scripts/index.js:168-175 | at or below the minimum the zoom turns upward; at or above the threshold it turns downward, and that check wins; it then moves by exactly `zoomSpeed / 100` in that direction |
| Render.ZoomStaysInBand | scripts/index.js:168-175 | with the threshold above the minimum and at most the maximum, [zoomMin - step, zoomMax + step] is never left |
| Render.ZoomThresholdRange | scripts/index.js:170-171 | for a whole-number maximum the threshold `random(zoomMax/2, zoomMax)` lies in [zoomMax / 2, zoomMax] |
| Render.AdvanceZoom | scripts/index.js:167-175 | the tree's zoom fields move as `ZoomStep` says with the frame's random threshold |
| Render.NodeCountIsGeometric | scripts/index.js:108-146 | the branches of a tree of depth d and factor b number b^0 + b^1 + ... + b^(d-1) |
| Render.NodeCountClosedForm | scripts/index.js:108-146 | (b - 1) times the branch count is b^d - 1 |
| Render.NodeCountChain | scripts/index.js:142-144 | with factor 1 the tree is a chain of d branches |
| Render.DefaultTreeSize | scripts/data.js:13-14 | the default tree (factor 8, depth 3) draws 73 branches per frame |
| Render.FrameStrokes | scripts/index.js:125-140 | a frame with n branches strokes counter values 2, 3, ..., n in order: every branch once except the first |
| Render.PeakAmountIsPeak | scripts/index.js:115-116 | the reduce yields the largest mid-band amount: no amount exceeds it and some band has it |
| Render.VisitBranch | scripts/index.js:125-140 | one visit adds 1 to the counter and strokes the branch exactly when the new count is above 1 |
| Render.RenderBranches | scripts/index.js:142-144 | the loop adds b subtrees of the given depth, so the counter rises by b times the subtree size, and the strokes appended are the counter values above 1 it passes |
| Render.RenderTree | scripts/index.js:108-146 | with depth 0 or no wave data nothing happens; otherwise the counter rises by the branch count of a depth-d, factor-b tree, and the strokes appended are exactly the counter values above 1 it passes |
| Render.BeginTreeFrame | scripts/index.js:179-185 | counter reset to 0, branch angle advanced by `rotationSpeed / 100`, `angleEach * branchFactor == 360`, grow speed advanced by 0.001 |
| Render.Turned | scripts/index.js:179-181 | the tree-mode turn: the angle grows by a hundredth of the rotation speed, the grow phase by 0.001, and angleEach is 360 divided by the branch factor |
| Render.DrawTree | scripts/index.js:178-187 | the tree frame: the angle turns by a hundredth of the rotation speed, the grow phase by 0.001, the grow factor is the host's and angleEach times the factor is 360; it throws exactly on an empty mid band with wave data and positive depth, with the counter at 0; otherwise the counter ends at the full branch count and the frame's strokes are 2..n |
| Render.TreeLinesReadBack | scripts/index.js:39-41 | the total-branches, depth and branch-factor lines read back as those integers |
| Render.FpsLineReadBack | scripts/index.js:57-61 | the last data line reads back as the frame rate |
| Render.TreeLines | scripts/index.js:37-46 | seven lines labelled total branches, tree depth, branch factor, branch angle, grow factor, zoom level and linewidth |
| Render.ModeLines | scripts/index.js:37-56 | seven lines in tree mode, two in oscope or bars mode, none otherwise |
| Render.DataLines | scripts/index.js:36-61 | the mode's lines first, then `background: ` and `foreground: ` with the colours as printed, then `fps: ` with the frame rate |
| Render.InsertMuted | scripts/index.js:64-67 | `audio: muted` becomes the second line after the title, or the only line of an empty list, and nothing is lost |
| Render.InfoLines | scripts/index.js:24-73 | nothing when info is hidden; unmuted, the given lines followed by exactly the data lines when shown; muted, `audio: muted` goes in second place and every other line keeps its order (alone when there is nothing else) |
| Render.RenderInfo | scripts/index.js:24-73 | the lines drawn are `InfoLines` of the current state |
| Render.BeginFrame | scripts/index.js:149-175 | the whole analysis outcome is `Analysed` of the old one, the dash phase advances by 0.001 and the zoom steps |
| Render.DrawMode | scripts/index.js:177-192 | in tree mode the tree frame's turn, counter, throw and strokes as DrawTree states; in any other mode the counter, the turned fields and the stroke log are unchanged |
| Render.DrawFrame | scripts/index.js:177-193 | the mode is drawn with DrawMode's effects, then the overlay: it throws exactly in the empty-mid-band case with the counter at 0, otherwise it draws `InfoLines` of the state after the tree step |
| Render.RenderFrame | scripts/index.js:148-194 | one frame: the analysis outcome is `Analysed` of the old one, the dash phase and zoom step, the tree's turn, counter and strokes (nothing of the tree changes in other modes); it throws exactly in the empty-mid-band case; otherwise it draws `InfoLines` of the new state |
| Render.Setup | scripts/index.js:196-205 | the info starts as the default text and the canvas takes the window's size |

## Left out

- Canvas drawing: coordinates, trigonometry, labels, line widths, curves, the clear and the font.
  `renderTree` keeps its recursion, counter and stroke rule, and passes length and angle on uncomputed in
  geometry.
- `renderOscilloscope` and `renderBars`: they only draw.
- The Web Audio graph (context, analyser, source nodes, `start`/`stop`/`connect`), `fetch`/`loadAudioFile`,
  `FileReader` and `decodeAudioData`, and `getUserMedia`. These are foreign APIs. Their effects on the
  modelled state are a source kind, an output link flag, the analyser's FFT size, and host-supplied data.
- The dat.GUI control panel and the Stats meter (`toggleControls`), the `#stats` display toggle on `q`,
  the `fullscreenchange` listener (it only writes a field nothing reads), and the vendor-prefixed
  fullscreen DOM functions. These are UI and library glue.
- Scheduling: `renderLoop`'s `setTimeout`/`requestAnimationFrame` and `timeLoop`'s `setInterval`. Each
  frame and each tick is one method call.
- The older root-level `index.js`, `gui.js`, `audio.js` and `data.js`, versions 0.3 and 0.4 of the same
  logic; nothing in `scripts/` imports them.
- Gui.ShowError: the `console.error` log of the error is not modelled (console output).
- Gui.ErrorLine: lower-cases ASCII letters only; `toLowerCase` also maps other scripts.
- Utils.Capitalised: upper-cases ASCII letters only; the property names it is used on are ASCII.
- Text.ToFixed2: rounds the exact real, while JavaScript rounds the nearest double, so for example
  `1.005.toFixed(2)` is "1.00" in JavaScript and "1.01" here.
- Text.NumberString: non-integral numbers are printed with at most two decimals rather than JavaScript's
  shortest round-trip form. The proved properties rely only on its digits, sign and point, and on the
  exact form of integral values.
- Gui.ModeAfterKey: a panel-supplied mode list is assumed non-empty; with an empty list `?` would set the
  mode to `undefined`.
- Render.BeginTreeFrame: `growFactor` is the caller's value of `|sin(growSpeed) * 1.5|`; the sine is not
  computed.
- Audio.AnalyseAudio: the analyser's byte data is an input of the buffer length, not derived from the
  signal.
