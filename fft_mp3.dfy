/**
 * The standalone FFT MP3 decoder. Per chunk the FFT gives the strongest
 * magnitude within 80 Hz of the target tone and a noise estimate from the
 * lowest bins; the key is down when that peak exceeds 3.5 times the running
 * noise floor. Unlike the goertzel decoder, only key-down runs are timed
 * (from `tone_start_time`), only runs longer than 20 ms become marks, marks
 * are classified against the MEAN of the timed runs, flushes use the plain
 * table lookup without fallbacks or a length cap, and the text is not
 * cleaned up at the end.
 *
 * The two timestamps of this decoder are reset in one place each:
 * `last_char_time` only by a flush and `last_transition` only by a word
 * space. `Step` models that as written; `FixedStep` resets both at key
 * transitions, as the goertzel decoder does.
 */
module FftMp3 {
  import opened Stats
  import opened Timing
  import opened MorseTable
  import opened Tables
  import opened Chunking

  const NoiseWindow: nat := 200
  const HistoryWindow: nat := 50
  const KeyFactor: real := 3.5
  const MinElement: real := 0.02
  const MarkRatio: real := 1.6
  const MinCharGap: real := 0.02
  const CharRatio: real := 0.8
  const WordGap: real := 0.6

  /** What `fft_tone_detect` and the low-bin mean give for one chunk. */
  datatype Reading = Reading(tone: real, noise: real)

  /** The decoder's variables between two chunks. */
  datatype State = State(
    noise: seq<real>,        // noise_floor, the last 200 noise estimates
    history: seq<real>,      // element_times, the last 50 timed marks
    keyOn: bool,             // key_state
    toneStart: real,         // tone_start_time
    lastTransition: real,    // last_transition, moved only by word spaces
    symbol: string,          // current_symbol
    lastCharTime: real,      // last_char_time, moved only by flushes
    text: string)            // decoded_text

  /** The bounds the decoder keeps: deque lengths and marks longer than 20 ms. */
  predicate Valid(s: State)
  {
    |s.noise| <= NoiseWindow && |s.history| <= HistoryWindow && AllAbove(s.history, MinElement)
  }

  function Init(): State
  {
    State([], [], false, 0.0, 0.0, "", 0.0, "")
  }

  /** The key decision against the noise floor that already holds this chunk's estimate. */
  function KeyDownAt(s: State, x: Reading): bool
    requires |s.noise| <= NoiseWindow
  {
    x.tone > Mean(PushBounded(s.noise, x.noise, NoiseWindow)) * KeyFactor
  }

  /** A mark is a dot when shorter than 1.6 times the mean of the history, which already holds it. */
  function Mark(duration: real, history: seq<real>): char
    requires history != []
  {
    if duration < Mean(history) * MarkRatio then '.' else '-'
  }

  /** The key block: a key-down starts timing a tone, a key-up ends it and may add a mark. */
  function Key(s: State, keyDown: bool, now: real): (r: State)
    requires Valid(s)
    ensures Valid(r)
  {
    if keyDown then s.(toneStart := if s.keyOn then s.toneStart else now, keyOn := true)
    else if s.keyOn then
      var duration := now - s.toneStart;
      if duration > MinElement then
        PushKeepsAbove(s.history, duration, HistoryWindow, MinElement);
        var history := PushBounded(s.history, duration, HistoryWindow);
        s.(history := history, symbol := s.symbol + [Mark(duration, history)], keyOn := false)
      else s.(keyOn := false)
    else s
  }

  /** The silence that ends a character: max(0.02, 0.8 times the mean mark). */
  function CharThreshold(history: seq<real>): real
  {
    Max(MinCharGap, if history != [] then Mean(history) * CharRatio else MinCharGap)
  }

  /** The inter-character check, timed from the last flush. */
  function CharGap(s: State, keyDown: bool, now: real): (r: State)
    requires Valid(s)
    ensures Valid(r)
  {
    if !keyDown && s.symbol != [] && now - s.lastCharTime > CharThreshold(s.history) then
      s.(text := s.text + Lookup(FullTable(), s.symbol), symbol := "", lastCharTime := now)
    else s
  }

  /** The word-space check, timed from the last word space. */
  function WordSpace(s: State, keyDown: bool, now: real): (r: State)
    requires Valid(s)
    ensures Valid(r)
  {
    if !keyDown && now - s.lastTransition > WordGap then s.(text := s.text + " ", lastTransition := now)
    else s
  }

  /** One chunk, ending at simulated time `now`. */
  function Step(s: State, x: Reading, now: real): (r: State)
    requires Valid(s)
    ensures Valid(r)
  {
    var keyDown := KeyDownAt(s, x);
    var heard := s.(noise := PushBounded(s.noise, x.noise, NoiseWindow));
    WordSpace(CharGap(Key(heard, keyDown, now), keyDown, now), keyDown, now)
  }

  /** The state after the given chunks, chunk `k` (from 0) ending at `Elapsed(k + 1, dt)`. */
  function Run(readings: seq<Reading>, dt: real): (s: State)
    ensures Valid(s)
  {
    if readings == [] then Init()
    else Step(Run(readings[..|readings| - 1], dt), readings[|readings| - 1], Elapsed(|readings|, dt))
  }

  lemma RunUnfold(readings: seq<Reading>, dt: real)
    requires readings != []
    ensures Run(readings, dt) == Step(Run(readings[..|readings| - 1], dt), readings[|readings| - 1], Elapsed(|readings|, dt))
  {
  }

  /** One more chunk of the run. */
  lemma RunNext(readings: seq<Reading>, k: nat, dt: real)
    requires k < |readings|
    ensures Run(readings[..k + 1], dt) == Step(Run(readings[..k], dt), readings[k], Elapsed(k + 1, dt))
  {
    var p := readings[..k + 1];
    var r := p[..|p| - 1];
    assert r == readings[..k];
    var x := p[|p| - 1];
    assert x == readings[k];
    var t := Elapsed(|p|, dt);
    assert t == Elapsed(k + 1, dt);
    RunUnfold(p, dt);
    assert Run(p, dt) == Step(Run(r, dt), x, t);
  }

  /** The state after the first `k` chunks, counted the way the loop counts them. */
  function RunFirst(readings: seq<Reading>, k: nat, dt: real): (s: State)
    requires k <= |readings|
    ensures Valid(s)
  {
    if k == 0 then Init() else Step(RunFirst(readings, k - 1, dt), readings[k - 1], Elapsed(k, dt))
  }

  /** Counting chunks and cutting the sequence describe the same run. */
  lemma {:induction false} RunFirstIsRun(readings: seq<Reading>, k: nat, dt: real)
    requires k <= |readings|
    ensures RunFirst(readings, k, dt) == Run(readings[..k], dt)
  {
    if k > 0 {
      RunFirstIsRun(readings, k - 1, dt);
      RunNext(readings, k - 1, dt);
    }
  }

  // ------------------------------------------------------------ properties

  /**
   * The chunk's key decision: the peak against 3.5 times the mean of the last
   * (at most 200) noise estimates, this chunk's included; no hysteresis.
   */
  lemma KeyDecision(s: State, x: Reading, keyOn: bool)
    requires Valid(s)
    ensures var q := PushBounded(s.noise, x.noise, NoiseWindow);
            q != [] && |q| <= NoiseWindow && q[|q| - 1] == x.noise
            && (|s.noise| < NoiseWindow ==> q == s.noise + [x.noise])
            && (|s.noise| == NoiseWindow ==> q == s.noise[1..] + [x.noise])
    ensures KeyDownAt(s, x) <==> x.tone > 3.5 * Mean(PushBounded(s.noise, x.noise, NoiseWindow))
    ensures KeyDownAt(s.(keyOn := keyOn), x) == KeyDownAt(s, x)
  {
  }

  /**
   * A key-down chunk writes nothing and keeps the symbol and both clocks; only
   * the first key-down chunk of a tone starts its timing.
   */
  lemma KeyDownChunk(s: State, x: Reading, now: real)
    requires Valid(s) && KeyDownAt(s, x)
    ensures var r := Step(s, x, now);
            r.keyOn && r.text == s.text && r.symbol == s.symbol && r.history == s.history
            && r.lastTransition == s.lastTransition && r.lastCharTime == s.lastCharTime
            && r.toneStart == (if s.keyOn then s.toneStart else now)
  {
  }

  /**
   * The key-up chunk ending a tone: a tone longer than 20 ms enters the
   * history and adds one mark, a dot exactly when it is shorter than 1.6
   * times the mean of the history including itself; a shorter tone leaves no
   * trace. Off-runs are never timed.
   */
  lemma KeyUpMark(s: State, x: Reading, now: real)
    requires Valid(s) && !KeyDownAt(s, x) && s.keyOn
    ensures var k := Key(s.(noise := PushBounded(s.noise, x.noise, NoiseWindow)), false, now);
            var duration := now - s.toneStart;
            !k.keyOn
            && (duration > MinElement ==>
                  k.history == PushBounded(s.history, duration, HistoryWindow)
                  && k.history[|k.history| - 1] == duration
                  && k.symbol == s.symbol + [if duration < Mean(k.history) * 1.6 then '.' else '-'])
            && (duration <= MinElement ==> k.history == s.history && k.symbol == s.symbol)
  {
  }

  /** With nothing timed yet, the first tone is always a dot: it is the whole mean. */
  lemma FirstMarkIsDot(duration: real)
    requires duration > MinElement
    ensures Mark(duration, PushBounded([], duration, HistoryWindow)) == '.'
  {
    var h := PushBounded([], duration, HistoryWindow);
    assert h == [duration];
    assert Sum(h) == Sum(h[..0]) + duration;
  }

  /**
   * The flush: it writes one of the full table's readings or '?', clears the
   * symbol and restarts the character clock. With neither a cap nor a
   * fallback, a symbol longer than every code of the table writes '?'.
   */
  lemma FlushWrites(s: State, keyDown: bool, now: real)
    requires Valid(s)
    ensures var g := CharGap(s, keyDown, now);
            g == s || (g.symbol == "" && g.lastCharTime == now && g.lastTransition == s.lastTransition
                       && ((exists k :: k in FullTable() && g.text == s.text + FullTable()[k])
                           || g.text == s.text + "?"))
    ensures var g := CharGap(s, keyDown, now);
            g != s && |s.symbol| > 9 ==> g.text == s.text + "?"
  {
    var g := CharGap(s, keyDown, now);
    if g != s && s.symbol in FullTable() {
      assert g.text == s.text + FullTable()[s.symbol];
    }
    if |s.symbol| > 9 {
      FullTableLongCodes(s.symbol);
    }
  }

  /** Only a flush moves `last_char_time`, and only a word space moves `last_transition`. */
  lemma ClocksMoveAlone(s: State, x: Reading, now: real)
    requires Valid(s)
    ensures var r := Step(s, x, now);
            (r.lastCharTime != s.lastCharTime ==> !KeyDownAt(s, x) && r.lastCharTime == now && r.symbol == "")
            && (r.lastTransition != s.lastTransition ==>
                  !KeyDownAt(s, x) && r.lastTransition == now && r.text != [] && r.text[|r.text| - 1] == ' ')
  {
  }

  /** The text only grows: every chunk appends to what was written before. */
  lemma StepExtendsText(s: State, x: Reading, now: real)
    requires Valid(s)
    ensures var r := Step(s, x, now);
            |s.text| <= |r.text| && r.text[..|s.text|] == s.text
  {
  }

  // ------------------------------------------------------------ the two clocks

  /**
   * As written, a key-up chunk can flush the mark it has just added: the
   * silence is measured from the previous flush, not from the end of the
   * tone, so the flush needs no silence at all.
   */
  lemma KeyUpFlushesAtOnce(s: State, x: Reading, now: real)
    requires Valid(s) && s.keyOn && !KeyDownAt(s, x)
    requires now - s.toneStart > MinElement
    requires now - s.lastCharTime > CharThreshold(PushBounded(s.history, now - s.toneStart, HistoryWindow))
    ensures var r := Step(s, x, now);
            var h := PushBounded(s.history, now - s.toneStart, HistoryWindow);
            h != [] && r.symbol == "" && r.lastCharTime == now
            && r.text == s.text + Lookup(FullTable(), s.symbol + [Mark(now - s.toneStart, h)])
                          + (if now - s.lastTransition > WordGap then " " else "")
  {
    var heard := s.(noise := PushBounded(s.noise, x.noise, NoiseWindow));
    assert heard == s.(noise := heard.noise);
    assert Step(s, x, now) == WordSpace(CharGap(Key(heard, false, now), false, now), false, now);
    KeyUpFlush(heard, now);
  }

  /** The key-up block and the two checks on a state whose tone is long enough and whose flush is due. */
  lemma KeyUpFlush(heard: State, now: real)
    requires Valid(heard) && heard.keyOn && now - heard.toneStart > MinElement
    requires now - heard.lastCharTime > CharThreshold(PushBounded(heard.history, now - heard.toneStart, HistoryWindow))
    ensures var r := WordSpace(CharGap(Key(heard, false, now), false, now), false, now);
            var h := PushBounded(heard.history, now - heard.toneStart, HistoryWindow);
            h != [] && r.symbol == "" && r.lastCharTime == now
            && r.text == heard.text + Lookup(FullTable(), heard.symbol + [Mark(now - heard.toneStart, h)])
                          + (if now - heard.lastTransition > WordGap then " " else "")
  {
    var duration := now - heard.toneStart;
    var h := PushBounded(heard.history, duration, HistoryWindow);
    var k := Key(heard, false, now);
    assert k == heard.(history := h, symbol := heard.symbol + [Mark(duration, h)], keyOn := false);
    var g := CharGap(k, false, now);
    assert g == k.(text := heard.text + Lookup(FullTable(), k.symbol), symbol := "", lastCharTime := now);
  }

  /**
   * As written, a key-up chunk writes a word space when 0.6 s have passed
   * since the previous word space, however short the silence.
   */
  lemma KeyUpWordSpace(s: State, x: Reading, now: real)
    requires Valid(s) && s.keyOn && !KeyDownAt(s, x)
    requires now - s.lastTransition > WordGap
    ensures var r := Step(s, x, now);
            r.text != [] && r.text[|r.text| - 1] == ' ' && r.lastTransition == now
  {
  }

  /** The letter I keyed at 24 wpm in 50 ms chunks: tone, gap, tone, then silence. */
  function LetterI(): seq<Reading>
  {
    [Reading(1.0, 0.0), Reading(0.0, 0.0), Reading(1.0, 0.0), Reading(0.0, 0.0), Reading(0.0, 0.0)]
  }

  lemma MeanOfZeros(q: seq<real>)
    requires q != [] && forall i :: 0 <= i < |q| ==> q[i] == 0.0
    ensures Mean(q) == 0.0
  {
    SumBounds(q, 0.0, 0.0);
  }

  // The chunks of `LetterI` one by one, as written.

  lemma SplitChunk1()
    ensures Step(Init(), Reading(1.0, 0.0), 0.05) == State([0.0], [], true, 0.05, 0.0, "", 0.0, "")
  {
    MeanOfZeros([0.0]);
    assert PushBounded([], 0.0, NoiseWindow) == [0.0];
  }

  lemma SplitChunk2()
    ensures Step(State([0.0], [], true, 0.05, 0.0, "", 0.0, ""), Reading(0.0, 0.0), 0.1)
            == State([0.0, 0.0], [0.05], false, 0.05, 0.0, "", 0.1, "E")
  {
    var s := State([0.0], [], true, 0.05, 0.0, "", 0.0, "");
    MeanOfZeros([0.0, 0.0]);
    assert PushBounded([0.0], 0.0, NoiseWindow) == [0.0, 0.0];
    SplitKey2();
    SplitFlush2();
  }

  /** The key-up of the first dot: 50 ms timed, a dot appended. */
  lemma SplitKey2()
    ensures Key(State([0.0, 0.0], [], true, 0.05, 0.0, "", 0.0, ""), false, 0.1)
            == State([0.0, 0.0], [0.05], false, 0.05, 0.0, ".", 0.0, "")
  {
    assert PushBounded([], 0.05, HistoryWindow) == [0.05];
    assert Sum([0.05]) == Sum([]) + 0.05;
    assert Mean([0.05]) == 0.05;
    assert "" + ['.'] == ".";
  }

  /** The flush of that dot, 100 ms after the last flush. */
  lemma SplitFlush2()
    ensures CharGap(State([0.0, 0.0], [0.05], false, 0.05, 0.0, ".", 0.0, ""), false, 0.1)
            == State([0.0, 0.0], [0.05], false, 0.05, 0.0, "", 0.1, "E")
  {
    assert Sum([0.05]) == Sum([]) + 0.05;
    assert CharThreshold([0.05]) == 0.04;
    FullTableFallbackCodes();
  }

  lemma SplitChunk3()
    ensures Step(State([0.0, 0.0], [0.05], false, 0.05, 0.0, "", 0.1, "E"), Reading(1.0, 0.0), 0.15)
            == State([0.0, 0.0, 0.0], [0.05], true, 0.15, 0.0, "", 0.1, "E")
  {
    MeanOfZeros([0.0, 0.0, 0.0]);
    assert PushBounded([0.0, 0.0], 0.0, NoiseWindow) == [0.0, 0.0, 0.0];
  }

  lemma SplitChunk4()
    ensures Step(State([0.0, 0.0, 0.0], [0.05], true, 0.15, 0.0, "", 0.1, "E"), Reading(0.0, 0.0), 0.2)
            == State([0.0, 0.0, 0.0, 0.0], [0.05, 0.05], false, 0.15, 0.0, "", 0.2, "EE")
  {
    var s := State([0.0, 0.0, 0.0], [0.05], true, 0.15, 0.0, "", 0.1, "E");
    MeanOfZeros([0.0, 0.0, 0.0, 0.0]);
    assert PushBounded([0.0, 0.0, 0.0], 0.0, NoiseWindow) == [0.0, 0.0, 0.0, 0.0];
    assert PushBounded([0.05], 0.05, HistoryWindow) == [0.05, 0.05];
    assert Sum([0.05, 0.05]) == Sum([0.05]) + 0.05;
    assert Sum([0.05]) == Sum([]) + 0.05;
    assert Mean([0.05, 0.05]) == 0.05;
    assert CharThreshold([0.05, 0.05]) == 0.04;
    assert "" + ['.'] == ".";
    FullTableFallbackCodes();
    var k := Key(s.(noise := [0.0, 0.0, 0.0, 0.0]), false, 0.2);
    assert k == State([0.0, 0.0, 0.0, 0.0], [0.05, 0.05], false, 0.15, 0.0, ".", 0.1, "E");
    assert CharGap(k, false, 0.2) == State([0.0, 0.0, 0.0, 0.0], [0.05, 0.05], false, 0.15, 0.0, "", 0.2, "EE");
  }

  lemma SplitChunk5()
    ensures Step(State([0.0, 0.0, 0.0, 0.0], [0.05, 0.05], false, 0.15, 0.0, "", 0.2, "EE"), Reading(0.0, 0.0), 0.25).text
            == "EE"
  {
    MeanOfZeros([0.0, 0.0, 0.0, 0.0, 0.0]);
    assert PushBounded([0.0, 0.0, 0.0, 0.0], 0.0, NoiseWindow) == [0.0, 0.0, 0.0, 0.0, 0.0];
  }

  lemma SplitPrefix1()
    ensures Run(LetterI()[..1], 0.05) == State([0.0], [], true, 0.05, 0.0, "", 0.0, "")
  {
    var r := LetterI();
    assert r[..0] == [];
    ElapsedIsProduct(1, 0.05);
    RunNext(r, 0, 0.05);
    SplitChunk1();
  }

  lemma SplitPrefix2()
    ensures Run(LetterI()[..2], 0.05) == State([0.0, 0.0], [0.05], false, 0.05, 0.0, "", 0.1, "E")
  {
    var r := LetterI();
    SplitPrefix1();
    ElapsedIsProduct(2, 0.05);
    RunNext(r, 1, 0.05);
    SplitChunk2();
  }

  lemma SplitPrefix3()
    ensures Run(LetterI()[..3], 0.05) == State([0.0, 0.0, 0.0], [0.05], true, 0.15, 0.0, "", 0.1, "E")
  {
    var r := LetterI();
    SplitPrefix2();
    ElapsedIsProduct(3, 0.05);
    RunNext(r, 2, 0.05);
    SplitChunk3();
  }

  lemma SplitPrefix4()
    ensures Run(LetterI()[..4], 0.05) == State([0.0, 0.0, 0.0, 0.0], [0.05, 0.05], false, 0.15, 0.0, "", 0.2, "EE")
  {
    var r := LetterI();
    SplitPrefix3();
    ElapsedIsProduct(4, 0.05);
    RunNext(r, 3, 0.05);
    SplitChunk4();
  }

  /** As written, the two dots of I are flushed one by one: the decoder writes EE. */
  lemma SplitLetterI()
    ensures Run(LetterI(), 0.05).text == "EE"
  {
    var r := LetterI();
    SplitPrefix4();
    assert r[..5] == r;
    ElapsedIsProduct(5, 0.05);
    RunNext(r, 4, 0.05);
    SplitChunk5();
  }


  /** The key block with both clocks restarted at every key change, as the goertzel decoder does. */
  function FixedKey(s: State, keyDown: bool, now: real): (r: State)
    requires Valid(s)
    ensures Valid(r)
  {
    var k := Key(s, keyDown, now);
    if keyDown != s.keyOn then k.(lastTransition := now, lastCharTime := now) else k
  }

  /** One chunk with the clocks restarted at key changes. */
  function FixedStep(s: State, x: Reading, now: real): (r: State)
    requires Valid(s)
    ensures Valid(r)
  {
    var keyDown := KeyDownAt(s, x);
    var heard := s.(noise := PushBounded(s.noise, x.noise, NoiseWindow));
    WordSpace(CharGap(FixedKey(heard, keyDown, now), keyDown, now), keyDown, now)
  }

  function FixedRun(readings: seq<Reading>, dt: real): (s: State)
    ensures Valid(s)
  {
    if readings == [] then Init()
    else FixedStep(FixedRun(readings[..|readings| - 1], dt), readings[|readings| - 1], Elapsed(|readings|, dt))
  }

  /**
   * With the clocks restarted, a chunk that changes the key writes nothing:
   * a flush and a word space both need silence after the last key change.
   */
  lemma FixedEdgeWritesNothing(s: State, x: Reading, now: real)
    requires Valid(s) && KeyDownAt(s, x) != s.keyOn
    ensures var r := FixedStep(s, x, now);
            r.text == s.text && r.lastTransition == now && r.lastCharTime == now
            && r.symbol == Key(s, KeyDownAt(s, x), now).symbol
  {
    var keyDown := KeyDownAt(s, x);
    var heard := s.(noise := PushBounded(s.noise, x.noise, NoiseWindow));
    FixedStepUnfold(s, x, now);
    KeyIgnoresNoise(s, heard.noise, keyDown, now);
    FixedEdgeQuiet(heard, keyDown, now);
  }

  lemma FixedStepUnfold(s: State, x: Reading, now: real)
    requires Valid(s)
    ensures var heard := s.(noise := PushBounded(s.noise, x.noise, NoiseWindow));
            FixedStep(s, x, now) == WordSpace(CharGap(FixedKey(heard, KeyDownAt(s, x), now), KeyDownAt(s, x), now), KeyDownAt(s, x), now)
  {
  }

  /** The key block does not look at the noise estimates. */
  lemma KeyIgnoresNoise(s: State, noise: seq<real>, keyDown: bool, now: real)
    requires Valid(s) && |noise| <= NoiseWindow
    ensures Key(s.(noise := noise), keyDown, now).symbol == Key(s, keyDown, now).symbol
  {
  }

  /** The checks after a key change with the clocks restarted: both silences are zero. */
  lemma FixedEdgeQuiet(h: State, keyDown: bool, now: real)
    requires Valid(h) && keyDown != h.keyOn
    ensures var r := WordSpace(CharGap(FixedKey(h, keyDown, now), keyDown, now), keyDown, now);
            r.text == h.text && r.lastTransition == now && r.lastCharTime == now
            && r.symbol == Key(h, keyDown, now).symbol
  {
    var k := FixedKey(h, keyDown, now);
    assert k.lastCharTime == now && k.lastTransition == now && k.text == h.text;
    assert CharThreshold(k.history) >= MinCharGap;
    assert CharGap(k, keyDown, now) == k;
  }

  lemma FixedRunNext(readings: seq<Reading>, k: nat, dt: real)
    requires k < |readings|
    ensures FixedRun(readings[..k + 1], dt) == FixedStep(FixedRun(readings[..k], dt), readings[k], Elapsed(k + 1, dt))
  {
    var p := readings[..k + 1];
    assert p[..|p| - 1] == readings[..k];
  }

  // The chunks of `LetterI` one by one, with the clocks restarted.

  lemma FixedChunk1()
    ensures FixedStep(Init(), Reading(1.0, 0.0), 0.05) == State([0.0], [], true, 0.05, 0.05, "", 0.05, "")
  {
    MeanOfZeros([0.0]);
    assert PushBounded([], 0.0, NoiseWindow) == [0.0];
  }

  lemma FixedChunk2()
    ensures FixedStep(State([0.0], [], true, 0.05, 0.05, "", 0.05, ""), Reading(0.0, 0.0), 0.1)
            == State([0.0, 0.0], [0.05], false, 0.05, 0.1, ".", 0.1, "")
  {
    MeanOfZeros([0.0, 0.0]);
    assert PushBounded([0.0], 0.0, NoiseWindow) == [0.0, 0.0];
    assert PushBounded([], 0.05, HistoryWindow) == [0.05];
    assert Sum([0.05]) == Sum([]) + 0.05;
    assert Mean([0.05]) == 0.05;
    assert "" + ['.'] == ".";
  }

  lemma FixedChunk3()
    ensures FixedStep(State([0.0, 0.0], [0.05], false, 0.05, 0.1, ".", 0.1, ""), Reading(1.0, 0.0), 0.15)
            == State([0.0, 0.0, 0.0], [0.05], true, 0.15, 0.15, ".", 0.15, "")
  {
    MeanOfZeros([0.0, 0.0, 0.0]);
    assert PushBounded([0.0, 0.0], 0.0, NoiseWindow) == [0.0, 0.0, 0.0];
  }

  lemma FixedChunk4()
    ensures FixedStep(State([0.0, 0.0, 0.0], [0.05], true, 0.15, 0.15, ".", 0.15, ""), Reading(0.0, 0.0), 0.2)
            == State([0.0, 0.0, 0.0, 0.0], [0.05, 0.05], false, 0.15, 0.2, "..", 0.2, "")
  {
    MeanOfZeros([0.0, 0.0, 0.0, 0.0]);
    assert PushBounded([0.0, 0.0, 0.0], 0.0, NoiseWindow) == [0.0, 0.0, 0.0, 0.0];
    assert PushBounded([0.05], 0.05, HistoryWindow) == [0.05, 0.05];
    assert Sum([0.05, 0.05]) == Sum([0.05]) + 0.05;
    assert Sum([0.05]) == Sum([]) + 0.05;
    assert Mean([0.05, 0.05]) == 0.05;
    assert "." + ['.'] == "..";
  }

  lemma FixedChunk5()
    ensures FixedStep(State([0.0, 0.0, 0.0, 0.0], [0.05, 0.05], false, 0.15, 0.2, "..", 0.2, ""), Reading(0.0, 0.0), 0.25).text
            == "I"
  {
    var s := State([0.0, 0.0, 0.0, 0.0], [0.05, 0.05], false, 0.15, 0.2, "..", 0.2, "");
    MeanOfZeros([0.0, 0.0, 0.0, 0.0, 0.0]);
    assert PushBounded([0.0, 0.0, 0.0, 0.0], 0.0, NoiseWindow) == [0.0, 0.0, 0.0, 0.0, 0.0];
    assert Sum([0.05, 0.05]) == Sum([0.05]) + 0.05;
    assert Sum([0.05]) == Sum([]) + 0.05;
    assert Mean([0.05, 0.05]) == 0.05;
    assert CharThreshold([0.05, 0.05]) == 0.04;
    FullTableLetters();
    var k := FixedKey(s.(noise := [0.0, 0.0, 0.0, 0.0, 0.0]), false, 0.25);
    assert k == s.(noise := [0.0, 0.0, 0.0, 0.0, 0.0]);
    assert CharGap(k, false, 0.25).text == "I";
  }

  lemma FixedPrefix1()
    ensures FixedRun(LetterI()[..1], 0.05) == State([0.0], [], true, 0.05, 0.05, "", 0.05, "")
  {
    var r := LetterI();
    assert r[..0] == [];
    ElapsedIsProduct(1, 0.05);
    FixedRunNext(r, 0, 0.05);
    FixedChunk1();
  }

  lemma FixedPrefix2()
    ensures FixedRun(LetterI()[..2], 0.05) == State([0.0, 0.0], [0.05], false, 0.05, 0.1, ".", 0.1, "")
  {
    var r := LetterI();
    FixedPrefix1();
    ElapsedIsProduct(2, 0.05);
    FixedRunNext(r, 1, 0.05);
    FixedChunk2();
  }

  lemma FixedPrefix3()
    ensures FixedRun(LetterI()[..3], 0.05) == State([0.0, 0.0, 0.0], [0.05], true, 0.15, 0.15, ".", 0.15, "")
  {
    var r := LetterI();
    FixedPrefix2();
    ElapsedIsProduct(3, 0.05);
    FixedRunNext(r, 2, 0.05);
    FixedChunk3();
  }

  lemma FixedPrefix4()
    ensures FixedRun(LetterI()[..4], 0.05) == State([0.0, 0.0, 0.0, 0.0], [0.05, 0.05], false, 0.15, 0.2, "..", 0.2, "")
  {
    var r := LetterI();
    FixedPrefix3();
    ElapsedIsProduct(4, 0.05);
    FixedRunNext(r, 3, 0.05);
    FixedChunk4();
  }

  /** With the clocks restarted, the same keying decodes to I. */
  lemma FixedLetterI()
    ensures FixedRun(LetterI(), 0.05).text == "I"
  {
    var r := LetterI();
    FixedPrefix4();
    assert r[..5] == r;
    ElapsedIsProduct(5, 0.05);
    FixedRunNext(r, 4, 0.05);
    FixedChunk5();
  }


  /**
   * `decode_morse_from_mp3` after the samples are loaded: `readings[k]` holds
   * what the FFT gives for chunk `k`. The decoder's variables are kept
   * together in `st`.
   */
  method DecodeMorseFromMp3(sampleCount: nat, chunkSize: nat, sampleRate: real, readings: seq<Reading>)
    returns (decodedText: string)
    requires chunkSize > 0 && sampleRate > 0.0
    requires |readings| == ChunkCount(sampleCount, chunkSize)
    ensures decodedText == Run(readings[..Processed(sampleCount, chunkSize)], chunkSize as real / sampleRate).text
  {
    var st := Init();
    var simTime := 0.0;
    var chunkDuration := chunkSize as real / sampleRate;

    ghost var n := Processed(sampleCount, chunkSize);
    var i := 0;
    var k := 0;
    while i < sampleCount
      invariant i == Offset(k, chunkSize) && k <= n
      invariant simTime == Elapsed(k, chunkDuration)
      invariant k <= |readings| && st == RunFirst(readings, k, chunkDuration)
      decreases sampleCount - i
    {
      var chunkLength := ChunkLength(sampleCount, chunkSize, i);
      ChunkDecision(sampleCount, chunkSize, k);
      if chunkLength < chunkSize / 2 {
        break;
      }
      simTime := AdvanceClock(simTime, chunkDuration, k);
      st := DecodeChunk(st, readings[k], simTime);
      i := i + chunkSize;
      k := k + 1;
    }
    if i >= sampleCount {
      ChunksExhausted(sampleCount, chunkSize, k);
    }
    assert k == n;
    RunFirstIsRun(readings, k, chunkDuration);
    decodedText := st.text;
  }

  /** The body of the loop for one chunk, once its peak and noise estimate are known. */
  method DecodeChunk(s: State, x: Reading, simTime: real) returns (r: State)
    requires Valid(s)
    ensures r == Step(s, x, simTime)
  {
    r := s.(noise := PushBounded(s.noise, x.noise, NoiseWindow));
    var avgNoise := Mean(r.noise);
    var keyDown := x.tone > avgNoise * KeyFactor;
    assert keyDown == KeyDownAt(s, x);
    r := HandleKey(r, keyDown, simTime);
    r := CheckCharacterSpace(r, keyDown, simTime);
    r := CheckWordSpace(r, keyDown, simTime);
  }

  /** The key block of the loop body. */
  method HandleKey(s: State, keyDown: bool, simTime: real) returns (r: State)
    requires Valid(s)
    ensures r == Key(s, keyDown, simTime)
  {
    r := s;
    if keyDown {
      if !r.keyOn {
        r := r.(toneStart := simTime);
      }
      r := r.(keyOn := true);
    } else {
      if r.keyOn {
        var duration := simTime - r.toneStart;
        if duration > MinElement {
          PushKeepsAbove(r.history, duration, HistoryWindow, MinElement);
          r := r.(history := PushBounded(r.history, duration, HistoryWindow));
          var avgDot := Mean(r.history);
          if duration < avgDot * MarkRatio {
            r := r.(symbol := r.symbol + ".");
          } else {
            r := r.(symbol := r.symbol + "-");
          }
        }
        r := r.(keyOn := false);
      }
    }
  }

  /** The inter-character block of the loop body. */
  method CheckCharacterSpace(s: State, keyDown: bool, simTime: real) returns (r: State)
    requires Valid(s)
    ensures r == CharGap(s, keyDown, simTime)
  {
    r := s;
    if !keyDown && r.symbol != "" {
      var silenceTime := simTime - r.lastCharTime;
      var charSpaceThreshold := Max(MinCharGap, if r.history != [] then Mean(r.history) * CharRatio else MinCharGap);
      if silenceTime > charSpaceThreshold {
        if r.symbol in FullTable() {
          r := r.(text := r.text + FullTable()[r.symbol]);
        } else {
          r := r.(text := r.text + "?");
        }
        r := r.(symbol := "", lastCharTime := simTime);
      }
    }
  }

  /** The word-space block of the loop body. */
  method CheckWordSpace(s: State, keyDown: bool, simTime: real) returns (r: State)
    requires Valid(s)
    ensures r == WordSpace(s, keyDown, simTime)
  {
    r := s;
    if !keyDown && simTime - r.lastTransition > WordGap {
      r := r.(text := r.text + " ", lastTransition := simTime);
    }
  }
}
