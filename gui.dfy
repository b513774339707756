/** scripts/gui.js: the input handlers that change the shared records. The keydown handler selects the
    visualisation by digit key, toggles flags and recolours; the wheel nudges the zoom; `toggleMute`,
    `toggleFullscreen`, `showError` and `resizeGraphics` keep the output, the page and the info text in
    step. The control panel and the FPS meter are left out. */
module Gui {
  import opened Wrappers
  import opened Text
  import opened Data
  import opened Audio
  import Utils

  /** The status line `showError` shows: `error: ` and the message in lower case. */
  function ErrorLine(message: string): (line: string)
    ensures |line| == 7 + |message| && line[..7] == "error: " && NoUpper(line[7..])
    ensures forall i | 0 <= i < |message| :: LowerChar(line[7 + i]) == LowerChar(message[i])
  {
    "error: " + Lower(message)
  }

  /** `showError(err)`: the info text becomes that one line (the console log is left out). */
  method ShowError(g: Graphics, message: string)
    modifies g`info
    ensures g.info == [ErrorLine(message)]
  {
    g.info := [ErrorLine(message)];
  }

  /** `resizeGraphics()`: the canvas takes the window's size and the drawing origin its centre. */
  method ResizeGraphics(g: Graphics, innerWidth: real, innerHeight: real)
    modifies g`cw, g`ch, g`x, g`y
    ensures g.cw == innerWidth && g.ch == innerHeight
    ensures 2.0 * g.x == g.cw && 2.0 * g.y == g.ch
  {
    g.cw := innerWidth;
    g.ch := innerHeight;
    g.x := g.cw / 2.0;
    g.y := g.ch / 2.0;
  }

  /** A single decimal digit key (`/^[0-9]$/`). */
  predicate IsDigitKey(key: string) { |key| == 1 && IsDigit(key[0]) }

  /** The mode after a key press. A digit k picks `modes[k]` when 1 <= k <= |modes| - 1 and does nothing
      otherwise; `?` picks `modes[0]`, the help screen. Without a mode list both throw before assigning. */
  function ModeAfterKey(mode: string, key: string, modes: Option<seq<string>>): (m: string)
    requires modes.Some? ==> |modes.value| > 0
    ensures modes.None? ==> m == mode
    ensures m == mode || (modes.Some? && m in modes.value)
    ensures modes.Some? && key == "?" ==> m == modes.value[0]
  {
    match modes
    case None => mode
    case Some(ms) =>
      if IsDigitKey(key) then
        var index := key[0] as int - '0' as int;
        if index == 0 || index > |ms| - 1 then mode else ms[index]
      else if key == "?" then ms[0]
      else mode
  }

  /** Digit k selects entry k of the mode list exactly when 1 <= k < |modes|; 0 and out-of-range digits
      leave the mode as it was. */
  lemma DigitSelectsMode(mode: string, k: nat, ms: seq<string>)
    requires k < 10 && |ms| > 0
    ensures 1 <= k < |ms| ==> ModeAfterKey(mode, [DigitChar(k)], Some(ms)) == ms[k]
    ensures k == 0 || k >= |ms| ==> ModeAfterKey(mode, [DigitChar(k)], Some(ms)) == mode
  {
  }

  /** `?` selects the first mode; keys that are neither digits nor `?` leave the mode alone. */
  lemma OtherKeysKeepMode(mode: string, key: string, ms: seq<string>)
    requires |ms| > 0
    ensures ModeAfterKey(mode, "?", Some(ms)) == ms[0]
    ensures !IsDigitKey(key) && key != "?" ==> ModeAfterKey(mode, key, Some(ms)) == mode
  {
  }

  /** `toggleMute()`: with no source nothing happens; otherwise the source is unplugged from the
      speakers when muted and plugged back in when not. The analyser link is never touched. */
  method ToggleMute(a: AudioState)
    modifies a`outputConnected
    ensures a.source.None? ==> a.outputConnected == old(a.outputConnected)
    ensures a.source.Some? ==> a.outputConnected == !a.muted
  {
    if a.source.None? {
      return;
    }
    if a.muted {
      a.outputConnected := false;
    } else {
      a.outputConnected := true;
    }
  }

  /** The page-level request `toggleFullscreen` makes. */
  datatype FullscreenRequest = ExitFullscreen | RequestFullscreen

  /** `toggleFullscreen()`: leaves full screen when in it, enters it otherwise, and flips the flag. */
  method ToggleFullscreen(g: Graphics) returns (request: FullscreenRequest)
    modifies g`fullscreen
    ensures g.fullscreen == !old(g.fullscreen)
    ensures request == if old(g.fullscreen) then ExitFullscreen else RequestFullscreen
  {
    if g.fullscreen {
      request := ExitFullscreen;
      g.fullscreen := false;
    } else {
      request := RequestFullscreen;
      g.fullscreen := true;
    }
  }

  /** The keydown handler. `draws` are the six uniform draws `randomColor` uses on `c` (foreground
      first). The result tells whether `r` asked for microphone capture, which completes later through
      `CaptureCompleted`. */
  method KeyDown(g: Graphics, a: AudioState, key: string, draws: seq<real>) returns (captureRequested: bool)
    requires a.Valid()
    requires g.modes.Some? ==> |g.modes.value| > 0
    requires |draws| == 6 && forall i | 0 <= i < 6 :: 0.0 <= draws[i] < 1.0
    modifies g`fullscreen, g`showFps, g`showInfo, g`showData, g`foreground, g`background, g`mode
    modifies a`muted, a`outputConnected
    ensures a.Valid()
    ensures captureRequested <==> key == "r"
    ensures g.mode == ModeAfterKey(old(g.mode), key, g.modes)
    ensures g.fullscreen == (if key == "f" then !old(g.fullscreen) else old(g.fullscreen))
    ensures a.muted == (if key == "m" then !old(a.muted) else old(a.muted))
    ensures g.showFps == (if key == "q" then !old(g.showFps) else old(g.showFps))
    ensures g.showInfo == (if key == "i" then !old(g.showInfo) else old(g.showInfo))
    ensures g.showData == (if key == "d" then !old(g.showData) else old(g.showData))
    ensures key == "c" ==> (g.foreground == Rgba(Utils.RandomColor(draws[0], draws[1], draws[2])) &&
      g.background == Rgba(Utils.RandomColor(draws[3], draws[4], draws[5])))
    ensures key != "c" ==> g.foreground == old(g.foreground) && g.background == old(g.background)
  {
    captureRequested := false;
    if key == "f" {
      var _ := ToggleFullscreen(g);
    } else if key == "r" {
      captureRequested := true;
    } else if key == "m" {
      a.muted := !a.muted;
      ToggleMute(a);
    } else if key == "q" {
      g.showFps := !g.showFps;
    } else if key == "i" {
      g.showInfo := !g.showInfo;
    } else if key == "d" {
      g.showData := !g.showData;
    } else if key == "c" {
      g.foreground := Rgba(Utils.RandomColor(draws[0], draws[1], draws[2]));
      g.background := Rgba(Utils.RandomColor(draws[3], draws[4], draws[5]));
    } else if IsDigitKey(key) {
      if g.modes.None? {
        return;
      }
      var index := key[0] as int - '0' as int;
      if index == 0 || index > |g.modes.value| - 1 {
        return;
      }
      g.mode := g.modes.value[index];
    } else if key == "?" {
      if g.modes.Some? {
        g.mode := g.modes.value[0];
      }
    }
  }

  /** The zoom step of one wheel event: +5 when scrolling up, -5 when scrolling down while the tree zoom
      is at least 5, otherwise nothing. */
  function WheelDelta(deltaY: real, zoomLevel: real): (d: real)
    ensures deltaY < 0.0 ==> d == 5.0
    ensures deltaY > 0.0 && zoomLevel >= 5.0 ==> d == -5.0
    ensures deltaY == 0.0 || (deltaY > 0.0 && zoomLevel < 5.0) ==> d == 0.0
  {
    if deltaY < 0.0 then 5.0 else if deltaY > 0.0 && zoomLevel >= 5.0 then -5.0 else 0.0
  }

  /** Scrolling never takes a non-negative tree zoom below zero. */
  lemma WheelKeepsZoomNonNegative(deltaY: real, zoomLevel: real)
    requires zoomLevel >= 0.0
    ensures zoomLevel + WheelDelta(deltaY, zoomLevel) >= 0.0
  {
  }

  /** One notch up followed by one notch down returns to the starting zoom. */
  lemma WheelUpThenDown(zoomLevel: real, up: real, down: real)
    requires zoomLevel >= 0.0 && up < 0.0 && down > 0.0
    ensures var raised := zoomLevel + WheelDelta(up, zoomLevel);
      raised + WheelDelta(down, raised) == zoomLevel
  {
  }

  /** The wheel handler: the same step is added to the tree zoom and then to the spiral zoom. Without a
      spiral record the second update throws after the first has been made. */
  method Wheel(g: Graphics, deltaY: real)
    modifies g.tree`zoomLevel, g`spiralZoom
    ensures g.tree.zoomLevel == old(g.tree.zoomLevel) + WheelDelta(deltaY, old(g.tree.zoomLevel))
    ensures old(g.spiralZoom).None? ==> g.spiralZoom == None
    ensures old(g.spiralZoom).Some? ==>
      g.spiralZoom == Some(old(g.spiralZoom).value + WheelDelta(deltaY, old(g.tree.zoomLevel)))
  {
    var zoomDelta := 0.0;
    if deltaY < 0.0 {
      zoomDelta := 5.0;
    } else if deltaY > 0.0 && g.tree.zoomLevel >= 5.0 {
      zoomDelta := -5.0;
    }
    g.tree.zoomLevel := g.tree.zoomLevel + zoomDelta;
    if g.spiralZoom.Some? {
      g.spiralZoom := Some(g.spiralZoom.value + zoomDelta);
    }
  }

  /** The drop handler: `loadDraggedAudio(event).catch(showError)` up to the foreign file read. A
      rejected type shows `error: dragged file is not an audio file`. */
  method Drop(g: Graphics, fileType: string, fileName: string) returns (readStarted: bool)
    modifies g`info
    ensures readStarted <==> IsAudioType(fileType)
    ensures readStarted ==> g.info == ["loading: " + fileName]
    ensures !readStarted ==> g.info == [ErrorLine(NotAudioFile)]
  {
    var r := LoadDraggedAudio(g, fileType, fileName);
    readStarted := r.Pass?;
    if r.Fail? {
      ShowError(g, r.error);
    }
  }

  /** The end of a capture started by `r`: `captureAudio().then(initAudio).catch(showError)`. */
  method CaptureCompleted(g: Graphics, a: AudioState, granted: bool)
    requires a.Valid()
    modifies a`stopped, a`source, a`playbackEnded, a`outputConnected, a`bufferLength, a`waveData, a`freqData
    modifies g`showInfo, g`info
    ensures a.Valid()
    ensures granted ==> (a.stopped && a.source == Some(StreamSource) && !a.playbackEnded &&
      (a.outputConnected <==> !a.muted) && a.bufferLength == a.analyserFftSize / 2 &&
      a.waveData == Some(Zeros(a.bufferLength)) && a.freqData == Some(Zeros(a.bufferLength)) &&
      g.showInfo && g.info == [PlayingLine("microphone")])
    ensures !granted ==> (g.info == [ErrorLine(MicrophoneDenied)] &&
      a.stopped == old(a.stopped) && a.source == old(a.source) && a.playbackEnded == old(a.playbackEnded) &&
      a.outputConnected == old(a.outputConnected) && a.bufferLength == old(a.bufferLength) &&
      a.waveData == old(a.waveData) && a.freqData == old(a.freqData) && g.showInfo == old(g.showInfo))
  {
    match CaptureAudio(granted)
    case Ok(input) =>
      var _ := InitAudio(a, g, input);
    case Err(message) =>
      ShowError(g, message);
  }
}
