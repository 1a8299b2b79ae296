/**
 * The standalone goertzel MP3 decoder: the audio is cut into chunks of
 * `chunk_size` samples; per chunk the strongest test-frequency magnitude is
 * compared with three times the running noise floor to decide whether the
 * key is down, key transitions are timed against simulated time, marks are
 * classified as dots or dashes against the median of the timed durations,
 * silences flush the pending symbol through the full Morse table, and long
 * silences write word spaces. The collected text is finally cleaned up.
 *
 * `Step` states one chunk as a function of the decoder state; the method
 * `DecodeMorseFromMp3` is the decoding loop itself, proved to compute the
 * cleaned text of `Run`, the fold of `Step` over the decoded chunks.
 */
module GoertzelMp3 {
  import opened Stats
  import opened Timing
  import opened MorseTable
  import opened Tables
  import opened TextCleanup
  import opened Spectrum
  import opened Chunking

  const NoiseWindow: nat := 100
  const HistoryWindow: nat := 50
  const KeyFactor: real := 3.0
  const MinDuration: real := 0.01
  const MarkRatio: real := 1.4
  const MinCharGap: real := 0.02
  const CharRatio: real := 0.6
  const MaxSymbol: nat := 30
  const WordGap: real := 0.35

  /** The decoded texts after which the decoder writes a space. */
  const SpacedTexts: seq<string> := ["<AR>", "<SK>", "<BT>", "<KN>", "<AS>", "<CL>", "<HH>", "<SOS>", "<K>", "BK"]

  /** The decoder's variables between two chunks. */
  datatype State = State(
    noise: seq<real>,        // noise_floor, the last 100 noise estimates
    history: seq<real>,      // element_times, the last 50 timed durations
    keyOn: bool,             // key_state
    lastTransition: real,    // last_transition
    symbol: string,          // current_symbol
    lastCharTime: real,      // last_char_time
    text: string)            // decoded_text

  /** The bounds the decoder keeps: deque lengths, timed durations above 10 ms, symbols of dots and dashes. */
  predicate Valid(s: State)
  {
    |s.noise| <= NoiseWindow && |s.history| <= HistoryWindow
    && AllAbove(s.history, MinDuration) && MorseSymbol(s.symbol)
  }

  function Init(): State
  {
    State([], [], false, 0.0, "", 0.0, "")
  }

  /** A mark of `duration` is a dot when shorter than 1.4 times the median duration. */
  function Mark(duration: real, history: seq<real>): char
    requires history != []
  {
    if duration < Median(history) * MarkRatio then '.' else '-'
  }

  /** The history after a transition: the run that ended, pushed when longer than 10 ms. */
  function Timed(s: State, now: real): (h: seq<real>)
    requires Valid(s)
    ensures |h| <= HistoryWindow && AllAbove(h, MinDuration)
  {
    var duration := now - s.lastTransition;
    if duration > MinDuration then
      PushKeepsAbove(s.history, duration, HistoryWindow, MinDuration);
      PushBounded(s.history, duration, HistoryWindow)
    else s.history
  }

  /** A key transition: time the run that ended and, at key-up, add a dot or a dash. */
  function Edge(s: State, keyDown: bool, now: real): (r: State)
    requires Valid(s)
    ensures Valid(r)
  {
    if keyDown == s.keyOn then s
    else
      var history := Timed(s, now);
      var symbol := if !keyDown && history != [] then s.symbol + [Mark(now - s.lastTransition, history)] else s.symbol;
      s.(history := history, keyOn := keyDown, lastTransition := now, symbol := symbol, lastCharTime := now)
  }

  /** The silence that ends a character: max(0.02, 0.6 times the median duration). */
  function CharThreshold(history: seq<real>): real
  {
    Max(MinCharGap, if history != [] then Median(history) * CharRatio else MinCharGap)
  }

  /** The text a pending symbol is decoded to, followed by a space after a prosign. */
  function Decoded(symbol: string): string
  {
    var c := DotFallback(FullTable(), symbol);
    c + (if c in SpacedTexts then " " else "")
  }

  /** The inter-character check: after enough silence, decode the pending symbol. */
  function CharGap(s: State, keyDown: bool, now: real): (r: State)
    requires Valid(s)
    ensures Valid(r)
  {
    if !keyDown && s.symbol != [] && now - s.lastCharTime > CharThreshold(s.history) then
      if |s.symbol| > MaxSymbol then s.(text := s.text + "?", symbol := "", lastCharTime := now)
      else s.(text := s.text + Decoded(s.symbol), symbol := "", lastCharTime := now)
    else s
  }

  /** The word-space check: more than 0.35 s since the last transition or word space. */
  function WordSpace(s: State, keyDown: bool, now: real): (r: State)
    requires Valid(s)
    ensures Valid(r)
  {
    if !keyDown && now - s.lastTransition > WordGap then s.(text := s.text + " ", lastTransition := now)
    else s
  }

  /** The noise floor after a chunk's noise estimate is appended. */
  function NoiseAfter(s: State, mags: seq<real>): seq<real>
    requires |s.noise| <= NoiseWindow && |mags| == TestFrequencyCount
  {
    PushBounded(s.noise, NoiseMagnitude(mags), NoiseWindow)
  }

  /** The key is down when the tone exceeds three times the mean noise floor. */
  function KeyDownAt(s: State, mags: seq<real>): bool
    requires |s.noise| <= NoiseWindow && |mags| == TestFrequencyCount
  {
    ToneMagnitude(mags) > Mean(NoiseAfter(s, mags)) * KeyFactor
  }

  /** One chunk, ending at simulated time `now`. */
  function Step(s: State, mags: seq<real>, now: real): (r: State)
    requires Valid(s) && |mags| == TestFrequencyCount
    ensures Valid(r)
  {
    var keyDown := KeyDownAt(s, mags);
    var heard := s.(noise := NoiseAfter(s, mags));
    WordSpace(CharGap(Edge(heard, keyDown, now), keyDown, now), keyDown, now)
  }

  predicate WellFormed(spectra: seq<seq<real>>)
  {
    forall i :: 0 <= i < |spectra| ==> |spectra[i]| == TestFrequencyCount
  }

  lemma WellFormedPrefix(spectra: seq<seq<real>>, k: nat)
    requires WellFormed(spectra) && k <= |spectra|
    ensures WellFormed(spectra[..k])
  {
    forall i | 0 <= i < k ensures |spectra[..k][i]| == TestFrequencyCount {
      assert spectra[..k][i] == spectra[i];
    }
  }

  /** The state after the given chunks, chunk `k` (from 0) ending at `Elapsed(k + 1, dt)`. */
  function Run(spectra: seq<seq<real>>, dt: real): (s: State)
    requires WellFormed(spectra)
    ensures Valid(s)
  {
    if spectra == [] then Init()
    else Step(Run(spectra[..|spectra| - 1], dt), spectra[|spectra| - 1], Elapsed(|spectra|, dt))
  }

  lemma RunUnfold(spectra: seq<seq<real>>, dt: real)
    requires spectra != [] && WellFormed(spectra)
    ensures Run(spectra, dt) == Step(Run(spectra[..|spectra| - 1], dt), spectra[|spectra| - 1], Elapsed(|spectra|, dt))
  {
  }

  /** One more chunk of the run. */
  lemma RunNext(spectra: seq<seq<real>>, k: nat, dt: real)
    requires k < |spectra| && WellFormed(spectra)
    ensures Run(spectra[..k + 1], dt) == Step(Run(spectra[..k], dt), spectra[k], Elapsed(k + 1, dt))
  {
    var p := spectra[..k + 1];
    var r := p[..|p| - 1];
    assert r == spectra[..k];
    var x := p[|p| - 1];
    assert x == spectra[k];
    var t := Elapsed(|p|, dt);
    assert t == Elapsed(k + 1, dt);
    RunUnfold(p, dt);
    assert Run(p, dt) == Step(Run(r, dt), x, t);
    assert Run(r, dt) == Run(spectra[..k], dt);
  }

  /** The state after the first `k` chunks, counted the way the loop counts them. */
  function RunFirst(spectra: seq<seq<real>>, k: nat, dt: real): (s: State)
    requires k <= |spectra| && WellFormed(spectra)
    ensures Valid(s)
  {
    if k == 0 then Init() else Step(RunFirst(spectra, k - 1, dt), spectra[k - 1], Elapsed(k, dt))
  }

  /** One more chunk is one more step, at the clock that chunk reads. */
  lemma RunFirstNext(spectra: seq<seq<real>>, k: nat, dt: real)
    requires k < |spectra| && WellFormed(spectra)
    ensures |spectra[k]| == TestFrequencyCount
    ensures RunFirst(spectra, k + 1, dt) == Step(RunFirst(spectra, k, dt), spectra[k], Elapsed(k + 1, dt))
  {
  }

  /** Counting chunks and cutting the sequence describe the same run. */
  lemma {:induction false} RunFirstIsRun(spectra: seq<seq<real>>, k: nat, dt: real)
    requires k <= |spectra| && WellFormed(spectra)
    ensures RunFirst(spectra, k, dt) == Run(spectra[..k], dt)
  {
    if k > 0 {
      var prev := RunFirst(spectra, k - 1, dt);
      RunFirstIsRun(spectra, k - 1, dt);
      assert RunFirst(spectra, k, dt) == Step(prev, spectra[k - 1], Elapsed(k, dt));
      RunNext(spectra, k - 1, dt);
    }
  }

  // ------------------------------------------------------------ properties

  /** The token a flush writes for a pending symbol: '?' past 30 marks, else the table's reading and a space after a prosign. */
  function Token(symbol: string): (t: string)
    ensures |symbol| > MaxSymbol ==> t == "?"
    ensures |symbol| <= MaxSymbol ==>
              t == Lookup(FullTable(), symbol) + (if Lookup(FullTable(), symbol) in SpacedTexts then " " else "")
  {
    if |symbol| > MaxSymbol then "?"
    else
      FullTableFallbackCodes();
      FallbacksInert(FullTable(), symbol);
      Decoded(symbol)
  }

  /**
   * The chunk's key decision: the tone against three times the mean of the
   * last (at most 100) noise estimates, this chunk's included; the previous
   * key state plays no part.
   */
  lemma KeyDecision(s: State, mags: seq<real>, keyOn: bool)
    requires Valid(s) && |mags| == TestFrequencyCount
    ensures var q := NoiseAfter(s, mags);
            q != [] && |q| <= NoiseWindow && q[|q| - 1] == NoiseMagnitude(mags)
            && (|s.noise| < NoiseWindow ==> q == s.noise + [NoiseMagnitude(mags)])
            && (|s.noise| == NoiseWindow ==> q == s.noise[1..] + [NoiseMagnitude(mags)])
    ensures KeyDownAt(s, mags) <==> ToneMagnitude(mags) > 3.0 * Mean(NoiseAfter(s, mags))
    ensures KeyDownAt(s.(keyOn := keyOn), mags) == KeyDownAt(s, mags)
  {
  }

  /**
   * A chunk in which the key changes: the run that ended is timed and, when
   * longer than 10 ms, pushed onto the 50-entry history; a key-up adds one
   * dot or dash (once something is timed), a key-down adds nothing; both
   * timestamps move to now, and no text is written, since the inter-character
   * and word checks then measure no silence.
   */
  lemma EdgeChunk(s: State, mags: seq<real>, now: real)
    requires Valid(s) && |mags| == TestFrequencyCount
    requires KeyDownAt(s, mags) != s.keyOn
    ensures var r := Step(s, mags, now);
            var duration := now - s.lastTransition;
            r.keyOn == KeyDownAt(s, mags)
            && r.history == (if duration > MinDuration then PushBounded(s.history, duration, HistoryWindow) else s.history)
            && (KeyDownAt(s, mags) ==> r.symbol == s.symbol)
            && (!KeyDownAt(s, mags) && r.history == [] ==> r.symbol == s.symbol)
            && (!KeyDownAt(s, mags) && r.history != [] ==>
                  r.symbol == s.symbol + [if duration < Median(r.history) * MarkRatio then '.' else '-'])
            && r.lastTransition == now && r.lastCharTime == now
            && r.text == s.text
  {
    EdgeIsStep(s, mags, now);
    EdgeFacts(s, NoiseAfter(s, mags), KeyDownAt(s, mags), now);
  }

  /** A chunk that changes the key is its edge alone. */
  lemma EdgeIsStep(s: State, mags: seq<real>, now: real)
    requires Valid(s) && |mags| == TestFrequencyCount
    requires KeyDownAt(s, mags) != s.keyOn
    ensures Step(s, mags, now) == Edge(s.(noise := NoiseAfter(s, mags)), KeyDownAt(s, mags), now)
  {
    var keyDown := KeyDownAt(s, mags);
    var e := Edge(s.(noise := NoiseAfter(s, mags)), keyDown, now);
    FreshEdgeQuiet(e, keyDown, now);
  }

  /** The edge itself, on any state whose key changes, whatever its noise floor. */
  lemma EdgeFacts(h: State, noise: seq<real>, keyDown: bool, now: real)
    requires Valid(h) && |noise| <= NoiseWindow && keyDown != h.keyOn
    ensures var e := Edge(h.(noise := noise), keyDown, now);
            var duration := now - h.lastTransition;
            e.keyOn == keyDown
            && e.history == (if duration > MinDuration then PushBounded(h.history, duration, HistoryWindow) else h.history)
            && (keyDown ==> e.symbol == h.symbol)
            && (!keyDown && e.history == [] ==> e.symbol == h.symbol)
            && (!keyDown && e.history != [] ==>
                  e.symbol == h.symbol + [if duration < Median(e.history) * MarkRatio then '.' else '-'])
            && e.lastTransition == now && e.lastCharTime == now && e.text == h.text
  {
  }

  /** Right after an edge both clocks read `now`, so neither silence check fires. */
  lemma FreshEdgeQuiet(e: State, keyDown: bool, now: real)
    requires Valid(e) && e.lastCharTime == now && e.lastTransition == now
    ensures WordSpace(CharGap(e, keyDown, now), keyDown, now) == e
  {
    assert CharThreshold(e.history) >= MinCharGap;
    assert CharGap(e, keyDown, now) == e;
  }

  /** A chunk with the key held down changes nothing but the noise floor. */
  lemma KeyHeldChunk(s: State, mags: seq<real>, now: real)
    requires Valid(s) && |mags| == TestFrequencyCount
    requires KeyDownAt(s, mags) && s.keyOn
    ensures Step(s, mags, now) == s.(noise := NoiseAfter(s, mags))
  {
  }

  /**
   * A chunk of continued silence: the pending symbol is flushed exactly when
   * it is non-empty and the silence since the last transition or flush exceeds
   * max(0.02, 0.6 times the median), writing its token (the plain table lookup:
   * the all-dot fallback never applies); then a space is written exactly when
   * more than 0.35 s passed since the last transition or word space, which
   * restarts that clock.
   */
  lemma SilentChunk(s: State, mags: seq<real>, now: real)
    requires Valid(s) && |mags| == TestFrequencyCount
    requires !KeyDownAt(s, mags) && !s.keyOn
    ensures var r := Step(s, mags, now);
            var flush := s.symbol != "" && now - s.lastCharTime > CharThreshold(s.history);
            var space := now - s.lastTransition > WordGap;
            !r.keyOn && r.history == s.history
            && r.symbol == (if flush then "" else s.symbol)
            && r.lastCharTime == (if flush then now else s.lastCharTime)
            && r.text == s.text + (if flush then Token(s.symbol) else "") + (if space then " " else "")
            && r.lastTransition == (if space then now else s.lastTransition)
  {
    var heard := s.(noise := NoiseAfter(s, mags));
    var e := Edge(heard, false, now);
    assert e == heard;
    var g := CharGap(e, false, now);
    FlushWrites(e, now);
    assert Step(s, mags, now) == WordSpace(g, false, now);
  }

  /** The inter-character check on a silent chunk, in terms of `Token`. */
  lemma FlushWrites(s: State, now: real)
    requires Valid(s)
    ensures var g := CharGap(s, false, now);
            var flush := s.symbol != "" && now - s.lastCharTime > CharThreshold(s.history);
            g == (if flush then s.(text := s.text + Token(s.symbol), symbol := "", lastCharTime := now) else s)
  {
  }

  /** The text only grows: every chunk appends to what was written before. */
  lemma StepExtendsText(s: State, mags: seq<real>, now: real)
    requires Valid(s) && |mags| == TestFrequencyCount
    ensures var r := Step(s, mags, now);
            |s.text| <= |r.text| && r.text[..|s.text|] == s.text
  {
    var keyDown := KeyDownAt(s, mags);
    if keyDown != s.keyOn {
      EdgeChunk(s, mags, now);
    } else if !keyDown {
      SilentChunk(s, mags, now);
    }
  }

  lemma PrefixOfPrefix(t: string, b: string, u: string)
    requires |t| <= |b| && b[..|t|] == t
    requires |b| <= |u| && u[..|b|] == b
    ensures |t| <= |u| && u[..|t|] == t
  {
    assert u[..|t|] == u[..|b|][..|t|];
  }

  /** The text after fewer chunks is a prefix of the text after more. */
  lemma {:induction false} RunExtendsText(spectra: seq<seq<real>>, k: nat, dt: real)
    requires WellFormed(spectra) && k <= |spectra|
    ensures var t := Run(spectra[..k], dt).text;
            var u := Run(spectra, dt).text;
            |t| <= |u| && u[..|t|] == t
  {
    if k < |spectra| {
      var p := spectra[..|spectra| - 1];
      WellFormedPrefix(spectra, |spectra| - 1);
      assert p[..k] == spectra[..k];
      RunExtendsText(p, k, dt);
      RunUnfold(spectra, dt);
      var before := Run(p, dt);
      StepExtendsText(before, spectra[|spectra| - 1], Elapsed(|spectra|, dt));
      PrefixOfPrefix(Run(spectra[..k], dt).text, before.text, Run(spectra, dt).text);
    } else {
      assert spectra[..k] == spectra;
    }
  }

  /** What a flush writes for `-.-`: the prosign <K> and a space, never K. */
  lemma FlushOfK()
    ensures Token("-.-") == "<K> "
  {
    FullTableOverrides();
  }

  /** The key-transition block of the loop body. */
  method HandleTransition(s: State, keyDown: bool, simTime: real) returns (r: State)
    requires Valid(s)
    ensures r == Edge(s, keyDown, simTime)
  {
    r := s;
    if keyDown != r.keyOn {
      var duration := simTime - r.lastTransition;
      r := TimeRun(r, simTime);
      if !keyDown && r.history != [] {
        r := AddMark(r, duration);
      }
      r := r.(keyOn := keyDown, lastTransition := simTime, lastCharTime := simTime);
    }
  }

  /** `duration_history.append(duration)` for a run longer than 10 ms, ending at `now`. */
  method TimeRun(s: State, now: real) returns (r: State)
    requires Valid(s)
    ensures r == s.(history := Timed(s, now))
  {
    r := s;
    var duration := now - s.lastTransition;
    if duration > MinDuration {
      r := r.(history := PushBounded(r.history, duration, HistoryWindow));
    }
  }

  /** The dot-or-dash decision at a key-up, against the median of the history. */
  method AddMark(s: State, duration: real) returns (r: State)
    requires s.history != []
    ensures r == s.(symbol := s.symbol + [Mark(duration, s.history)])
  {
    r := s;
    var avgDot := Median(r.history);
    if duration < avgDot * MarkRatio {
      r := r.(symbol := r.symbol + ".");
    } else {
      r := r.(symbol := r.symbol + "-");
    }
  }

  /** The inter-character block of the loop body. */
  method CheckCharacterSpace(s: State, keyDown: bool, simTime: real) returns (r: State)
    requires Valid(s)
    ensures r == CharGap(s, keyDown, simTime)
  {
    r := s;
    if !keyDown && r.symbol != "" {
      var silenceTime := simTime - r.lastCharTime;
      var charSpaceThreshold := Max(MinCharGap, if r.history != [] then Median(r.history) * CharRatio else MinCharGap);
      if silenceTime > charSpaceThreshold {
        if |r.symbol| > MaxSymbol {
          r := r.(text := r.text + "?", symbol := "");
        } else {
          var written := DecodeSymbol(r.symbol);
          r := r.(text := r.text + written, symbol := "");
        }
        r := r.(lastCharTime := simTime);
      }
    }
  }

  /** `decode_char` on the pending symbol, with the space the loop adds after a prosign. */
  method DecodeSymbol(symbol: string) returns (written: string)
    ensures written == Decoded(symbol)
  {
    var c := DotFallback(FullTable(), symbol);
    written := c;
    if c in SpacedTexts {
      written := written + " ";
    }
  }

  /** The word-space block of the loop body. */
  method CheckWordSpace(s: State, keyDown: bool, simTime: real) returns (r: State)
    requires Valid(s)
    ensures r == WordSpace(s, keyDown, simTime)
  {
    r := s;
    if !keyDown && simTime - r.lastTransition > WordGap {
      r := r.(text := r.text + " ", lastTransition := simTime);
    }
  }

  /**
   * `decode_morse_from_mp3` after the samples are loaded: `spectra[k]` holds
   * the test-frequency magnitudes of chunk `k`. The decoder's variables are
   * kept together in `st`.
   */
  method DecodeMorseFromMp3(sampleCount: nat, chunkSize: nat, sampleRate: real, spectra: seq<seq<real>>)
    returns (decodedText: string)
    requires chunkSize > 0 && sampleRate > 0.0
    requires |spectra| == ChunkCount(sampleCount, chunkSize) && WellFormed(spectra)
    ensures decodedText ==
              Cleanup(Run(spectra[..Processed(sampleCount, chunkSize)], chunkSize as real / sampleRate).text)
  {
    var st := Init();
    var simTime := 0.0;
    var chunkDuration := chunkSize as real / sampleRate;

    ghost var n := Processed(sampleCount, chunkSize);
    var i := 0;
    var k := 0;
    while i < sampleCount
      invariant i == Offset(k, chunkSize) && k <= n
      invariant simTime == Elapsed(k, chunkDuration)
      invariant k <= |spectra| && st == RunFirst(spectra, k, chunkDuration)
      decreases sampleCount - i
    {
      var chunkLength := ChunkLength(sampleCount, chunkSize, i);
      ChunkDecision(sampleCount, chunkSize, k);
      if chunkLength < chunkSize / 2 {
        break;
      }
      simTime := AdvanceClock(simTime, chunkDuration, k);
      RunFirstNext(spectra, k, chunkDuration);
      st := DecodeChunk(st, spectra[k], simTime);
      i := i + chunkSize;
      k := k + 1;
    }
    if i >= sampleCount {
      ChunksExhausted(sampleCount, chunkSize, k);
    }
    assert k == n;
    WellFormedPrefix(spectra, k);
    RunFirstIsRun(spectra, k, chunkDuration);
    decodedText := Cleanup(st.text);
  }

  /** The body of the loop for one chunk, once its test-frequency magnitudes are known. */
  method DecodeChunk(s: State, mags: seq<real>, simTime: real) returns (r: State)
    requires Valid(s) && |mags| == TestFrequencyCount
    ensures r == Step(s, mags, simTime)
  {
    r := s.(noise := PushBounded(s.noise, NoiseMagnitude(mags), NoiseWindow));
    var avgNoise := Mean(r.noise);
    var keyDown := ToneMagnitude(mags) > avgNoise * KeyFactor;
    assert keyDown == KeyDownAt(s, mags);
    r := HandleTransition(r, keyDown, simTime);
    r := CheckCharacterSpace(r, keyDown, simTime);
    r := CheckWordSpace(r, keyDown, simTime);
  }
}
