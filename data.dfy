/** scripts/data.js: the shared `audio` and `graphics` records and their initial values. The records are
    updated in place by the render loop, the mutation timer and the input handlers, so each is a class;
    the constructors give the defaults. */
module Data {
  import opened Wrappers

  const Version: string := "0.5.0-alpha"

  /** A foreground or background colour: the CSS text of the defaults (`#e1e1e1`) or the
      `[r, g, b, a]` list that `randomColor` produces. */
  datatype Colour = Css(text: string) | Rgba(channels: seq<real>)

  /** A byte of the analyser's output buffers. */
  type Byte = b: int | 0 <= b < 256

  /** One spectrum bin as `analyseAudio` summarises it: its centre frequency and its level. */
  datatype Band = Band(freq: real, amount: Byte)

  /** The playback source: a decoded file (a scheduled source that can be stopped and ends) or a
      microphone stream. */
  datatype SourceKind = BufferSource | StreamSource

  /** The FFT sizes the control panel offers. */
  const FftChoices: seq<int> := [1024, 2048, 4096, 8192]

  predicate IsPowerOfTwo(n: int)
    decreases n
  {
    n == 1 || (n > 1 && n % 2 == 0 && IsPowerOfTwo(n / 2))
  }

  function DefaultInfo(): seq<string> {
    [ "visualizer v" + Version,
      "drag an audio file here to start or",
      "press r to capture audio from microphone",
      "press m to mute audio",
      "press h to toggle all options",
      "press f to toggle fullscreen",
      "zoom with mouse wheel or touchpad",
      "" ]
  }

  /** The default FFT size is one of the offered sizes and every offered size is a power of two, as the
      analyser demands. */
  lemma FftChoicesArePowersOfTwo()
    ensures 8192 in FftChoices
    ensures forall n | n in FftChoices :: IsPowerOfTwo(n)
  {
    assert IsPowerOfTwo(1024) by {
      assert IsPowerOfTwo(2) && IsPowerOfTwo(4) && IsPowerOfTwo(8) && IsPowerOfTwo(16);
      assert IsPowerOfTwo(32) && IsPowerOfTwo(64) && IsPowerOfTwo(128) && IsPowerOfTwo(256);
      assert IsPowerOfTwo(512);
    }
  }

  /** The first line of the default info text names the version. */
  lemma DefaultInfoNamesVersion()
    ensures |DefaultInfo()| == 8 && DefaultInfo()[0][12..] == Version
  {
  }

  /** `graphics.tree`. */
  class TreeParams {
    var depth: int
    var branchFactor: int
    var branchAngle: real
    var growFactor: real
    var growSpeed: real
    var rotationSpeed: real
    var zoomLevel: real
    var zoomSpeed: real
    var zoomIncrease: bool
    var zoomMin: real
    var zoomMax: real
    var totalbranches: int
    /** Not among the defaults: it starts `undefined`, which reads as false. */
    var branchIncrease: bool

    /** What every handler keeps: the branch factor within the panel's [1, 16], a depth at which the
        recursion stops, and a non-negative branch count. */
    ghost predicate Valid()
      reads this
    {
      1 <= branchFactor <= 16 && 0 <= depth && 0 <= totalbranches
    }

    /** Within the ranges of the control panel's sliders. */
    ghost predicate InPanelRanges()
      reads this
    {
      2 <= depth <= 10 && 1 <= branchFactor <= 16 && zoomMin <= zoomLevel <= zoomMax
    }

    constructor ()
      ensures Valid() && InPanelRanges()
      ensures depth == 3 && branchFactor == 8 && branchAngle == 0.0 && growFactor == 1.0
      ensures growSpeed == 0.0 && rotationSpeed == 5.0
      ensures zoomLevel == 100.0 && zoomSpeed == 0.0 && zoomIncrease && zoomMin == 0.0 && zoomMax == 2000.0
      ensures totalbranches == 0 && !branchIncrease
    {
      depth, branchFactor, branchAngle, growFactor := 3, 8, 0.0, 1.0;
      growSpeed, rotationSpeed := 0.0, 5.0;
      zoomLevel, zoomSpeed, zoomIncrease, zoomMin, zoomMax := 100.0, 0.0, true, 0.0, 2000.0;
      totalbranches, branchIncrease := 0, false;
    }
  }

  /** `graphics`. The canvas geometry (`cw`, `ch`, `x`, `y`) and `angleEach` are set later by
      `resizeGraphics` and the render loop; they start at 0 here. */
  class Graphics {
    var mode: string
    /** `graphics.modes` is never defined in data.js; it stays `None` unless the host supplies a list. */
    var modes: Option<seq<string>>
    var composition: string
    const tree: TreeParams
    var barsHeight: real
    var barsWidth: real
    var barsGap: real
    var lineCurve: bool
    var lineWidth: real
    var lineDiff: bool
    var lineDWidth: real
    var lineDWidthSpeed: real
    var foreground: Colour
    var background: Colour
    var showLabels: bool
    var showFps: bool
    var showInfo: bool
    var showData: bool
    var clearFrames: bool
    var fps: int
    var fontsize: real
    var lineheight: real
    var fullscreen: bool
    var info: seq<string>
    var defaultInfo: seq<string>
    /** `graphics.spiral` is never defined in data.js either: `None` means reading it throws. */
    var spiralZoom: Option<real>
    var angleEach: real
    var cw: real
    var ch: real
    var x: real
    var y: real

    constructor ()
      ensures fresh(tree) && tree.Valid() && tree.InPanelRanges() && tree.depth == 3 && tree.branchFactor == 8
      ensures tree.zoomLevel == 100.0 && tree.zoomMin == 0.0 && tree.zoomMax == 2000.0 && tree.zoomIncrease
      ensures tree.totalbranches == 0 && tree.growSpeed == 0.0 && tree.branchAngle == 0.0
      ensures tree.rotationSpeed == 5.0 && tree.growFactor == 1.0 && tree.zoomSpeed == 0.0 && !tree.branchIncrease
      ensures mode == "tree" && modes == None && composition == "source-over"
      ensures barsHeight == 2.0 && barsWidth == 1.0 && barsGap == 2.0
      ensures !lineCurve && lineWidth == 1.0 && !lineDiff && lineDWidth == 0.0 && lineDWidthSpeed == 0.0
      ensures foreground == Css("#e1e1e1") && background == Css("#575454")
      ensures !showLabels && !showFps && showInfo && !showData && clearFrames
      ensures fps == 60 && fontsize == 12.0 && lineheight == 1.2 && !fullscreen
      ensures info == [] && defaultInfo == DefaultInfo() && spiralZoom == None
    {
      tree := new TreeParams();
      mode, modes, composition := "tree", None, "source-over";
      barsHeight, barsWidth, barsGap := 2.0, 1.0, 2.0;
      lineCurve, lineWidth, lineDiff, lineDWidth, lineDWidthSpeed := false, 1.0, false, 0.0, 0.0;
      foreground, background := Css("#e1e1e1"), Css("#575454");
      showLabels, showFps, showInfo, showData, clearFrames := false, false, true, false, true;
      fps, fontsize, lineheight, fullscreen := 60, 12.0, 1.2, false;
      info, defaultInfo, spiralZoom := [], DefaultInfo(), None;
      angleEach, cw, ch, x, y := 0.0, 0.0, 0.0, 0.0, 0.0;
    }
  }

  /** `audio`, with the parts of the Web Audio graph the core reads: the analyser's FFT size, the
      context's sample rate and whether the current source feeds the speakers. */
  class AudioState {
    var muted: bool
    var fftSize: int
    /** Set while a deliberately stopped source is still due to report 'ended'. */
    var stopped: bool
    var source: Option<SourceKind>
    /** The current file source has played to its end and reported 'ended'; `stop()` on it then
        dispatches nothing more. */
    var playbackEnded: bool
    /** The current source is connected to the output (the speakers). */
    var outputConnected: bool
    /** `audio.analyser.fftSize`; its `frequencyBinCount` is half of it. */
    var analyserFftSize: int
    /** `audio.ctx.sampleRate`. */
    const sampleRate: int
    /** 0 stands for unset (`undefined`), which is falsy like 0. */
    var bufferLength: int
    var waveData: Option<seq<Byte>>
    var freqData: Option<seq<Byte>>
    var freqBands: seq<Band>
    var lowFreqs: seq<Band>
    var midFreqs: seq<Band>
    var highFreqs: seq<Band>

    /** The analyser's FFT size is valid, the output link follows the mute flag, and both buffers exist
        exactly when a buffer length has been set, with that length. */
    ghost predicate Valid()
      reads this
    {
      fftSize in FftChoices && IsPowerOfTwo(analyserFftSize) && analyserFftSize >= 32 && sampleRate > 0 &&
      outputConnected == (source.Some? && !muted) &&
      0 <= bufferLength &&
      (bufferLength == 0 <==> waveData.None?) && (waveData.Some? <==> freqData.Some?) &&
      (waveData.Some? ==> |waveData.value| == bufferLength && |freqData.value| == bufferLength)
    }

    /** The defaults of data.js; a new analyser has FFT size 2048. */
    constructor (rate: int)
      requires rate > 0
      ensures Valid()
      ensures !muted && fftSize == 8192 && !stopped && source == None && !playbackEnded && !outputConnected
      ensures analyserFftSize == 2048 && sampleRate == rate && bufferLength == 0
      ensures waveData == None && freqData == None
      ensures freqBands == [] && lowFreqs == [] && midFreqs == [] && highFreqs == []
    {
      muted, fftSize, stopped, source, playbackEnded, outputConnected := false, 8192, false, None, false, false;
      analyserFftSize, sampleRate, bufferLength := 2048, rate, 0;
      waveData, freqData := None, None;
      freqBands, lowFreqs, midFreqs, highFreqs := [], [], [], [];
      assert IsPowerOfTwo(2048) by {
        assert IsPowerOfTwo(2) && IsPowerOfTwo(4) && IsPowerOfTwo(8) && IsPowerOfTwo(16);
        assert IsPowerOfTwo(32) && IsPowerOfTwo(64) && IsPowerOfTwo(128) && IsPowerOfTwo(256);
        assert IsPowerOfTwo(512) && IsPowerOfTwo(1024);
      }
    }
  }
}
