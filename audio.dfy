/** scripts/audio.js: the spectrum summary computed every frame (`analyseAudio`), the switch to a new
    playback source (`initAudio`) with its 'ended' handshake, and the MIME check on dropped files. The
    Web Audio, FileReader and media-capture calls are foreign: their results are parameters here. */
module Audio {
  import opened Wrappers
  import opened Text
  import opened Data

  /** Centre frequency of spectrum bin i: `i * sampleRate / fftSize`. */
  function BinFrequency(i: nat, sampleRate: int, fftSize: int): real
    requires fftSize > 0
  {
    (i * sampleRate) as real / fftSize as real
  }

  /** `Array.from(freqData).map((d, i) => ({ freq, amount: d }))`. */
  function FreqBands(data: seq<Byte>, sampleRate: int, fftSize: int): (bands: seq<Band>)
    requires fftSize > 0
    ensures |bands| == |data|
    ensures forall i | 0 <= i < |data| :: bands[i].amount == data[i] && bands[i].freq == BinFrequency(i, sampleRate, fftSize)
  {
    seq(|data|, i requires 0 <= i < |data| => Band(BinFrequency(i, sampleRate, fftSize), data[i]))
  }

  /** The three sub-bands: below 160 Hz, from 160 Hz to below 1280 Hz, and from 1280 Hz up. */
  datatype Range = Low | Mid | High

  function RangeOf(freq: real): Range {
    if freq < 160.0 then Low else if freq < 1280.0 then Mid else High
  }

  /** `bands.filter(...)` for one sub-band: the bands of that range, in their original order. */
  function Select(bands: seq<Band>, r: Range): (picked: seq<Band>)
    ensures |picked| <= |bands|
  {
    if bands == [] then []
    else (if RangeOf(bands[0].freq) == r then [bands[0]] else []) + Select(bands[1..], r)
  }

  /** Every band a filter keeps is of the filter's range. */
  lemma {:induction false} SelectInRange(bands: seq<Band>, r: Range)
    ensures forall i | 0 <= i < |Select(bands, r)| :: RangeOf(Select(bands, r)[i].freq) == r
  {
    if bands != [] {
      SelectInRange(bands[1..], r);
    }
  }

  /** A band is kept exactly when it is of the selected range. */
  lemma {:induction false} SelectKeeps(bands: seq<Band>, r: Range, b: Band)
    ensures b in Select(bands, r) <==> b in bands && RangeOf(b.freq) == r
  {
    if bands != [] {
      SelectKeeps(bands[1..], r, b);
      assert bands == [bands[0]] + bands[1..];
    }
  }

  /** Every band lands in exactly one of the three lists: together they hold the bands, counted with
      multiplicity. */
  lemma {:induction false} SelectPartition(bands: seq<Band>)
    ensures multiset(Select(bands, Low)) + multiset(Select(bands, Mid)) + multiset(Select(bands, High)) == multiset(bands)
  {
    if bands != [] {
      var first, rest := bands[0], bands[1..];
      SelectPartition(rest);
      assert [first] + rest == bands;
      PartitionStep(first, rest);
    }
  }

  /** The partition of `[first] + rest` from that of `rest`: `first` joins exactly its own range. */
  lemma PartitionStep(first: Band, rest: seq<Band>)
    requires multiset(Select(rest, Low)) + multiset(Select(rest, Mid)) + multiset(Select(rest, High)) == multiset(rest)
    ensures var bands := [first] + rest;
      multiset(Select(bands, Low)) + multiset(Select(bands, Mid)) + multiset(Select(bands, High)) == multiset(bands)
  {
    var bands := [first] + rest;
    SelectFront(first, rest, Low);
    SelectFront(first, rest, Mid);
    SelectFront(first, rest, High);
    var low, mid, high := multiset(Select(rest, Low)), multiset(Select(rest, Mid)), multiset(Select(rest, High));
    assert multiset(bands) == multiset{first} + multiset(rest);
    match RangeOf(first.freq)
    case Low =>
      assert multiset(Select(bands, Low)) == multiset{first} + low;
      assert multiset(Select(bands, Mid)) == mid && multiset(Select(bands, High)) == high;
    case Mid =>
      assert multiset(Select(bands, Mid)) == multiset{first} + mid;
      assert multiset(Select(bands, Low)) == low && multiset(Select(bands, High)) == high;
    case High =>
      assert multiset(Select(bands, High)) == multiset{first} + high;
      assert multiset(Select(bands, Low)) == low && multiset(Select(bands, Mid)) == mid;
  }

  predicate Ascending(bands: seq<Band>) {
    forall i, j | 0 <= i < j < |bands| :: bands[i].freq <= bands[j].freq
  }

  lemma {:induction false} SelectNone(bands: seq<Band>, r: Range)
    requires forall i | 0 <= i < |bands| :: RangeOf(bands[i].freq) != r
    ensures Select(bands, r) == []
  {
    if bands != [] {
      SelectNone(bands[1..], r);
    }
  }

  /** The first band of an ascending list is at or below every later one, and the rest ascends. */
  lemma AscendingRest(bands: seq<Band>)
    requires Ascending(bands) && bands != []
    ensures Ascending(bands[1..])
    ensures forall i | 0 <= i < |bands[1..]| :: bands[0].freq <= bands[1..][i].freq
  {
  }

  /** Once a band is mid or high, no later band of an ascending list is low; once high, none is mid. */
  lemma RangeMonotone(f: real, g: real)
    requires f <= g
    ensures RangeOf(f) == Mid ==> RangeOf(g) != Low
    ensures RangeOf(f) == High ==> RangeOf(g) == High
  {
  }

  /** One step of `filter`: the front band goes to the list of its own range. */
  lemma SelectFront(first: Band, rest: seq<Band>, r: Range)
    ensures Select([first] + rest, r) == (if RangeOf(first.freq) == r then [first] else []) + Select(rest, r)
  {
    assert ([first] + rest)[1..] == rest;
  }

  lemma AppendAssoc(a: seq<Band>, b: seq<Band>, c: seq<Band>)
    ensures a + b + c == a + (b + c)
  {
  }

  /** A low band in front goes to the front of the low list. */
  lemma ContiguousLow(first: Band, rest: seq<Band>)
    requires RangeOf(first.freq) == Low
    requires Select(rest, Low) + Select(rest, Mid) + Select(rest, High) == rest
    ensures Select([first] + rest, Low) + Select([first] + rest, Mid) + Select([first] + rest, High) == [first] + rest
  {
    var low, mid, high := Select(rest, Low), Select(rest, Mid), Select(rest, High);
    SelectFront(first, rest, Low);
    SelectFront(first, rest, Mid);
    SelectFront(first, rest, High);
    AppendAssoc([first], low, mid);
    AppendAssoc([first], low + mid, high);
  }

  /** A mid band in front of bands no lower than it: the low list is empty. */
  lemma ContiguousMid(first: Band, rest: seq<Band>)
    requires RangeOf(first.freq) == Mid && Select(rest, Low) == []
    requires Select(rest, Low) + Select(rest, Mid) + Select(rest, High) == rest
    ensures Select([first] + rest, Low) + Select([first] + rest, Mid) + Select([first] + rest, High) == [first] + rest
  {
    SelectFront(first, rest, Low);
    SelectFront(first, rest, Mid);
    SelectFront(first, rest, High);
  }

  /** A high band in front of high bands: the low and mid lists are empty. */
  lemma ContiguousHigh(first: Band, rest: seq<Band>)
    requires RangeOf(first.freq) == High && Select(rest, Low) == [] && Select(rest, Mid) == []
    requires Select(rest, Low) + Select(rest, Mid) + Select(rest, High) == rest
    ensures Select([first] + rest, Low) + Select([first] + rest, Mid) + Select([first] + rest, High) == [first] + rest
  {
    SelectFront(first, rest, Low);
    SelectFront(first, rest, Mid);
    SelectFront(first, rest, High);
  }

  /** Putting a band in front of a split list: the split stays consecutive when the new band is at
      or below all the others. */
  lemma ContiguousStep(first: Band, rest: seq<Band>)
    requires forall i | 0 <= i < |rest| :: first.freq <= rest[i].freq
    requires Select(rest, Low) + Select(rest, Mid) + Select(rest, High) == rest
    ensures Select([first] + rest, Low) + Select([first] + rest, Mid) + Select([first] + rest, High) == [first] + rest
  {
    match RangeOf(first.freq)
    case Low =>
      ContiguousLow(first, rest);
    case Mid =>
      forall i | 0 <= i < |rest| ensures RangeOf(rest[i].freq) != Low {
        RangeMonotone(first.freq, rest[i].freq);
      }
      SelectNone(rest, Low);
      ContiguousMid(first, rest);
    case High =>
      forall i | 0 <= i < |rest| ensures RangeOf(rest[i].freq) == High {
        RangeMonotone(first.freq, rest[i].freq);
      }
      SelectNone(rest, Low);
      SelectNone(rest, Mid);
      ContiguousHigh(first, rest);
  }

  /** On bands in ascending frequency the three lists are consecutive runs: low, then mid, then high,
      and nothing is reordered. */
  lemma {:induction false} SelectContiguous(bands: seq<Band>)
    requires Ascending(bands)
    ensures Select(bands, Low) + Select(bands, Mid) + Select(bands, High) == bands
  {
    if bands != [] {
      AscendingRest(bands);
      SelectContiguous(bands[1..]);
      ContiguousStep(bands[0], bands[1..]);
      assert [bands[0]] + bands[1..] == bands;
    }
  }

  /** Bin frequencies grow with the bin index. */
  lemma FreqBandsAscending(data: seq<Byte>, sampleRate: int, fftSize: int)
    requires fftSize > 0 && sampleRate >= 0
    ensures Ascending(FreqBands(data, sampleRate, fftSize))
  {
    var bands := FreqBands(data, sampleRate, fftSize);
    forall i, j | 0 <= i < j < |bands| ensures bands[i].freq <= bands[j].freq {
      assert i * sampleRate <= j * sampleRate by {
        assert (j - i) * sampleRate >= 0;
      }
    }
  }

  lemma QuotientBelow(x: real, n: real, c: real)
    requires n > 0.0
    ensures x / n < c <==> x < c * n
  {
    var q := x / n;
    assert q * n == x;
    if q < c {
      assert (c - q) * n > 0.0;
    } else {
      assert (q - c) * n >= 0.0;
    }
  }

  /** The cut-offs compared in integers: bin i is low exactly when `i * sampleRate < 160 * fftSize`, and
      high exactly when `i * sampleRate >= 1280 * fftSize`. */
  lemma BinRange(i: nat, sampleRate: int, fftSize: int)
    requires fftSize > 0
    ensures RangeOf(BinFrequency(i, sampleRate, fftSize)) == Low <==> i * sampleRate < 160 * fftSize
    ensures RangeOf(BinFrequency(i, sampleRate, fftSize)) == High <==> i * sampleRate >= 1280 * fftSize
  {
    QuotientBelow((i * sampleRate) as real, fftSize as real, 160.0);
    QuotientBelow((i * sampleRate) as real, fftSize as real, 1280.0);
  }

  /** At 44100 Hz with an 8192-point FFT, bin 29 (about 156 Hz) is the last low bin and bin 237
      (about 1276 Hz) the last mid bin. */
  lemma BandEdges()
    ensures RangeOf(BinFrequency(29, 44100, 8192)) == Low && RangeOf(BinFrequency(30, 44100, 8192)) == Mid
    ensures RangeOf(BinFrequency(237, 44100, 8192)) == Mid && RangeOf(BinFrequency(238, 44100, 8192)) == High
  {
    BinRange(29, 44100, 8192);
    BinRange(30, 44100, 8192);
    BinRange(237, 44100, 8192);
    BinRange(238, 44100, 8192);
  }

  /** The part of the audio record `analyseAudio` refreshes. */
  datatype Analysis = Analysis(waveData: Option<seq<Byte>>, freqData: Option<seq<Byte>>, freqBands: seq<Band>,
                               lowFreqs: seq<Band>, midFreqs: seq<Band>, highFreqs: seq<Band>)

  function AnalysisOf(a: AudioState): Analysis
    reads a
  {
    Analysis(a.waveData, a.freqData, a.freqBands, a.lowFreqs, a.midFreqs, a.highFreqs)
  }

  /** The analysis after `analyseAudio` with the analyser's bytes `wave` and `freq`: unchanged while no
      buffer length is set, otherwise the bytes, their bands and the three filtered lists. */
  function Analysed(prev: Analysis, bufferLength: int, wave: seq<Byte>, freq: seq<Byte>, sampleRate: int,
                    fftSize: int): (n: Analysis)
    requires fftSize > 0
    ensures bufferLength == 0 ==> n == prev
    ensures bufferLength != 0 ==> n.waveData == Some(wave) && n.freqData == Some(freq) && |n.freqBands| == |freq|
  {
    if bufferLength == 0 then prev
    else
      var bands := FreqBands(freq, sampleRate, fftSize);
      Analysis(Some(wave), Some(freq), bands, Select(bands, Low), Select(bands, Mid), Select(bands, High))
  }

  /** `analyseAudio()`: sets the analyser's FFT size, and once a source has set the buffer length, reads
      the analyser's current bytes (`wave`, `freq`, foreign) into the buffers and recomputes the bands. */
  method AnalyseAudio(a: AudioState, wave: seq<Byte>, freq: seq<Byte>)
    requires a.Valid()
    requires a.waveData.Some? ==> |wave| == a.bufferLength && |freq| == a.bufferLength
    modifies a`analyserFftSize, a`waveData, a`freqData, a`freqBands, a`lowFreqs, a`midFreqs, a`highFreqs
    ensures a.Valid() && a.analyserFftSize == a.fftSize
    ensures a.bufferLength == 0 ==>
      (a.waveData == old(a.waveData) && a.freqData == old(a.freqData) &&
       a.freqBands == old(a.freqBands) && a.lowFreqs == old(a.lowFreqs) &&
       a.midFreqs == old(a.midFreqs) && a.highFreqs == old(a.highFreqs))
    ensures a.bufferLength != 0 ==>
      (a.waveData == Some(wave) && a.freqData == Some(freq) &&
       a.freqBands == FreqBands(freq, a.sampleRate, a.fftSize) &&
       a.lowFreqs == Select(a.freqBands, Low) && a.midFreqs == Select(a.freqBands, Mid) &&
       a.highFreqs == Select(a.freqBands, High))
    ensures AnalysisOf(a) == Analysed(old(AnalysisOf(a)), a.bufferLength, wave, freq, a.sampleRate, a.fftSize)
  {
    FftChoicesArePowersOfTwo();
    a.analyserFftSize := a.fftSize;
    if a.bufferLength != 0 {
      a.waveData := Some(wave);
      a.freqData := Some(freq);
      a.freqBands := FreqBands(freq, a.sampleRate, a.analyserFftSize);
      a.lowFreqs := Select(a.freqBands, Low);
      a.midFreqs := Select(a.freqBands, Mid);
      a.highFreqs := Select(a.freqBands, High);
    }
  }

  /** What `initAudio` is given: a decoded file or a captured microphone stream, with its display name. */
  datatype AudioInput = Decoded(filename: string) | Captured(filename: string)

  const MicrophoneDenied: string := "permission denied to microphone"
  const NotAudioFile: string := "dragged file is not an audio file"

  /** `captureAudio()`: the microphone stream named `microphone`, or the permission error. */
  function CaptureAudio(granted: bool): (r: Result<AudioInput, string>)
    ensures granted <==> r.Ok?
    ensures r.Ok? ==> r.value == Captured("microphone")
    ensures r.Err? ==> r.error == MicrophoneDenied
  {
    if granted then Ok(Captured("microphone")) else Err(MicrophoneDenied)
  }

  /** The disambiguation state of the 'ended' handshake: the `stopped` flag and the info text. */
  datatype Handshake = Handshake(stopped: bool, info: seq<string>)

  function PlayingLine(filename: string): string { "playing: " + filename }

  /** The handshake after `initAudio`: the flag is raised before the new source is installed and the
      info text names the new input. */
  function AfterInit(filename: string): (h: Handshake)
    ensures h.stopped && |h.info| == 1 && |h.info[0]| == 9 + |filename|
    ensures h.info[0][..9] == "playing: " && h.info[0][9..] == filename
  {
    Handshake(true, [PlayingLine(filename)])
  }

  /** The 'ended' handler: an end that follows a deliberate stop only lowers the flag; any other end
      restores the default info text. */
  function AfterEnded(h: Handshake, defaultInfo: seq<string>): (e: Handshake)
    ensures !e.stopped
    ensures h.stopped ==> e.info == h.info
    ensures !h.stopped ==> e.info == defaultInfo
  {
    if h.stopped then Handshake(false, h.info) else Handshake(h.stopped, defaultInfo)
  }

  /** Switching away from a playing file: the old file's 'ended' (caused by the stop) keeps the new
      `playing:` line, and the new file's own end brings the default text back. */
  lemma SwitchFromFile(filename: string, defaultInfo: seq<string>)
    ensures AfterEnded(AfterInit(filename), defaultInfo).info == [PlayingLine(filename)]
    ensures AfterEnded(AfterEnded(AfterInit(filename), defaultInfo), defaultInfo).info == defaultInfo
  {
  }

  /** The flag is raised on every switch, also when no 'ended' is due from the old source: for the
      first file, after the microphone, and after a file that has already played to its end. The new
      file's own end is then taken for the stop and the `playing:` line stays. */
  lemma SwitchWithoutPendingEnd(filename: string, defaultInfo: seq<string>)
    requires [PlayingLine(filename)] != defaultInfo
    ensures AfterEnded(AfterInit(filename), defaultInfo).info != defaultInfo
  {
  }

  /** All-zero buffer of n bytes (`new Uint8Array(n)`). */
  function Zeros(n: nat): (z: seq<Byte>)
    ensures |z| == n && forall i | 0 <= i < n :: z[i] == 0
  {
    seq(n, i => 0)
  }

  /** `initAudio(audioInput)`: stops the old file source, unplugs the old source from the speakers
      unless muted, raises `stopped`, installs and connects the new source (to the speakers only when
      not muted), sizes both buffers to the analyser's bin count and shows `playing: <filename>`.
      `endedDue` tells whether the stop makes the old source report 'ended': only a file source that
      has not yet played to its end does. */
  method InitAudio(a: AudioState, g: Graphics, input: AudioInput) returns (endedDue: bool)
    requires a.Valid()
    modifies a`stopped, a`source, a`playbackEnded, a`outputConnected, a`bufferLength, a`waveData, a`freqData
    modifies g`showInfo, g`info
    ensures a.Valid()
    ensures endedDue <==> old(a.source) == Some(BufferSource) && !old(a.playbackEnded)
    ensures !a.playbackEnded
    ensures Handshake(a.stopped, g.info) == AfterInit(input.filename)
    ensures a.source == Some(if input.Decoded? then BufferSource else StreamSource)
    ensures a.outputConnected <==> !a.muted
    ensures a.bufferLength == a.analyserFftSize / 2
    ensures a.waveData == Some(Zeros(a.bufferLength)) && a.freqData == Some(Zeros(a.bufferLength))
    ensures g.showInfo
  {
    endedDue := a.source == Some(BufferSource) && !a.playbackEnded;
    if a.source.Some? && !a.muted {
      a.outputConnected := false;
    }
    a.stopped := true;
    if input.Decoded? {
      a.source := Some(BufferSource);
    } else {
      a.source := Some(StreamSource);
    }
    a.playbackEnded := false;
    if !a.muted {
      a.outputConnected := true;
    }
    PowerOfTwoHalf(a.analyserFftSize);
    a.bufferLength := a.analyserFftSize / 2;
    a.waveData := Some(Zeros(a.bufferLength));
    a.freqData := Some(Zeros(a.bufferLength));
    g.showInfo := true;
    g.info := [PlayingLine(input.filename)];
  }

  lemma PowerOfTwoHalf(n: int)
    requires IsPowerOfTwo(n) && n >= 32
    ensures n / 2 > 0
  {
  }

  /** The listener `initAudio` attaches for 'ended'. */
  method SourceEnded(a: AudioState, g: Graphics)
    modifies a`stopped, g`info
    ensures Handshake(a.stopped, g.info) == AfterEnded(old(Handshake(a.stopped, g.info)), g.defaultInfo)
  {
    if a.stopped {
      a.stopped := false;
    } else {
      g.info := g.defaultInfo;
    }
  }

  /** The current file source plays to its end: it reports 'ended' to the listener, and a later
      `stop()` on it reports nothing more. */
  method FileFinished(a: AudioState, g: Graphics)
    modifies a`stopped, a`playbackEnded, g`info
    ensures a.playbackEnded
    ensures Handshake(a.stopped, g.info) == AfterEnded(old(Handshake(a.stopped, g.info)), g.defaultInfo)
  {
    SourceEnded(a, g);
    a.playbackEnded := true;
  }

  /** The `/^audio/i` test on a dropped file's MIME type. */
  function IsAudioType(mime: string): bool {
    |mime| >= 5 && forall i | 0 <= i < 5 :: LowerChar(mime[i]) == "audio"[i]
  }

  /** Accepted exactly when the type starts with "audio" in any letter case; what follows is not read. */
  lemma AudioTypeExamples(rest: string)
    ensures IsAudioType("audio/" + rest) && IsAudioType("AUDIO/" + rest) && IsAudioType("Audio" + rest)
    ensures !IsAudioType("video/" + rest) && !IsAudioType("") && !IsAudioType("audi")
  {
    assert ("video/" + rest)[0] == 'v';
  }

  lemma AudioTypeIsPrefixTest(mime: string, rest: string)
    requires |mime| >= 5
    ensures IsAudioType(mime + rest) <==> IsAudioType(mime[..5])
  {
    assert forall i | 0 <= i < 5 :: (mime + rest)[i] == mime[..5][i];
  }

  /** `loadDraggedAudio(event)` up to the foreign file read: a non-audio type is rejected with
      "dragged file is not an audio file" and nothing changes; otherwise `loading: <name>` is shown and
      the read starts (the decoded result later goes to `InitAudio`). */
  method LoadDraggedAudio(g: Graphics, fileType: string, fileName: string) returns (r: Outcome<string>)
    modifies g`info
    ensures r.Pass? <==> IsAudioType(fileType)
    ensures r.Fail? ==> r.error == NotAudioFile && g.info == old(g.info)
    ensures r.Pass? ==> g.info == ["loading: " + fileName]
  {
    if !IsAudioType(fileType) {
      return Fail(NotAudioFile);
    }
    g.info := ["loading: " + fileName];
    r := Pass;
  }
}
