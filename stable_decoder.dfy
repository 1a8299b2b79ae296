/**
 * The latest-stable GUI decoder. Each audio chunk is reduced to its
 * test-frequency magnitudes; the key decision has hysteresis (the tone must
 * exceed `multiplier` times the noise floor to open the key and only
 * `0.875 * multiplier` to keep it open); marks are classified against 1.5
 * times the median timed run; a symbol reaching six marks is decoded at
 * once; the latest-stable table with the all-dot fallback decodes symbols.
 *
 * The decoder's one-element lists and deques are the fields of `Session`;
 * the pure functions below state one chunk on a `State` value and the
 * methods are proved to follow them.
 */
module StableDecoder {
  import opened Wrappers
  import opened Stats
  import opened Timing
  import opened MorseTable
  import opened Tables
  import opened Spectrum

  const NoiseWindow: nat := 100
  const HistoryWindow: nat := 50
  const MinDuration: real := 0.01
  const MarkRatio: real := 1.5
  const MaxPending: nat := 5
  const MinCharGap: real := 0.02
  const CharRatio: real := 0.6
  const WordGap: real := 0.5
  const Closing: real := 0.875

  /** The decoder's variables between two chunks. */
  datatype State = State(
    noise: seq<real>,        // noise_floor, the last 100 noise estimates
    history: seq<real>,      // element_times, the last 50 timed durations
    keyOn: bool,             // key_state_state[0]
    lastTransition: real,    // last_transition_state[0]
    symbol: string,          // current_symbol_state[0]
    lastCharTime: real,      // last_char_time_state[0]
    text: string)            // the text area's contents

  /** Deque lengths, timed durations above 10 ms, and a pending symbol of at most five marks. */
  predicate Bounded(s: State)
  {
    |s.noise| <= NoiseWindow && |s.history| <= HistoryWindow
    && AllAbove(s.history, MinDuration) && MorseSymbol(s.symbol) && |s.symbol| <= MaxPending
  }

  /** The state when the window opens at time `start`. */
  function Init(start: real): State
  {
    State([], [], false, start, "", start, "")
  }

  /** `decode_char`: a pending symbol is written out through the table and cleared. */
  function FlushChar(s: State): (r: State)
    ensures s.symbol == "" ==> r == s
    ensures s.symbol != "" ==> r == s.(text := s.text + Lookup(StableTable(), s.symbol), symbol := "")
  {
    if s.symbol != "" then
      StableTableFallbackCodes();
      FallbacksInert(StableTable(), s.symbol);
      s.(text := s.text + DotFallback(StableTable(), s.symbol), symbol := "")
    else s
  }

  /** A mark of `duration` is a dot when shorter than 1.5 times the median duration. */
  function Mark(duration: real, history: seq<real>): char
    requires history != []
  {
    if duration < Median(history) * MarkRatio then '.' else '-'
  }

  /** A key transition: time the run that ended; at key-up add a mark and decode a six-mark symbol at once. */
  function Edge(s: State, keyDown: bool, now: real): (r: State)
    requires Bounded(s)
    ensures Bounded(r)
  {
    if keyDown == s.keyOn then s
    else
      var duration := now - s.lastTransition;
      var history := Timed(s, now);
      var marked :=
        if !keyDown && history != [] then
          var symbol := s.symbol + [Mark(duration, history)];
          if |symbol| > MaxPending then FlushChar(s.(history := history, symbol := symbol)).(symbol := "")
          else s.(history := history, symbol := symbol)
        else s.(history := history);
      marked.(keyOn := keyDown, lastTransition := now, lastCharTime := now)
  }

  /** The silence that ends a character: max(0.02, 0.6 times the median duration). */
  function CharThreshold(history: seq<real>): real
  {
    Max(MinCharGap, if history != [] then Median(history) * CharRatio else MinCharGap)
  }

  /** The inter-character check; `last_char_time` moves to now whether or not it decodes. */
  function CharGap(s: State, keyDown: bool, now: real): (r: State)
    requires Bounded(s)
    ensures Bounded(r)
  {
    if !keyDown && s.symbol != "" then
      if now - s.lastCharTime > CharThreshold(s.history) then FlushChar(s).(symbol := "", lastCharTime := now)
      else s.(lastCharTime := now)
    else s
  }

  /** The word check: past 0.5 s of silence decode what is pending, and past the word spacing write two spaces. */
  function WordCheck(s: State, keyDown: bool, farnsworth: bool, now: real): (r: State)
    requires Bounded(s)
    ensures Bounded(r)
  {
    if !keyDown && now - s.lastTransition > WordGap then
      var flushed := FlushChar(s).(symbol := "");
      if now - s.lastTransition > WordSpacing(s.history, farnsworth) then flushed.(text := flushed.text + "  ")
      else flushed
    else s
  }

  /** The key decision with hysteresis against the noise floor that already holds this chunk's estimate. */
  function KeyDownAt(s: State, mags: seq<real>, multiplier: real): bool
    requires |s.noise| <= NoiseWindow && |mags| == TestFrequencyCount
  {
    KeyDown(s.keyOn, ToneMagnitude(mags), Mean(PushBounded(s.noise, NoiseMagnitude(mags), NoiseWindow)), multiplier)
  }

  /** One pass of the decoding loop on a chunk read at time `now`. */
  function Next(s: State, mags: seq<real>, multiplier: real, farnsworth: bool, now: real): (r: State)
    requires Bounded(s) && |mags| == TestFrequencyCount
    ensures Bounded(r)
  {
    var keyDown := KeyDownAt(s, mags, multiplier);
    var heard := s.(noise := PushBounded(s.noise, NoiseMagnitude(mags), NoiseWindow));
    WordCheck(CharGap(Edge(heard, keyDown, now), keyDown, now), keyDown, farnsworth, now)
  }

  /** The last ten durations of the history, `list(element_times)[-10:]`. */
  function LastTen(history: seq<real>): (w: seq<real>)
    ensures |w| == if |history| > 10 then 10 else |history|
    ensures w == history[|history| - |w|..]
  {
    if |history| > 10 then history[|history| - 10..] else history
  }

  /**
   * The recent short durations `calibrate_wpm` estimates from: every duration
   * under 0.1 s among the last ten, each as often as it occurs there, and
   * nothing else.
   */
  function RecentDots(history: seq<real>): (d: seq<real>)
    ensures |d| <= 10 && AllBelow(d, 0.1)
    ensures forall i :: 0 <= i < |d| ==> d[i] in history
    ensures forall x :: multiset(d)[x] == if x < 0.1 then multiset(LastTen(history))[x] else 0
  {
    var recent := LastTen(history);
    assert forall x :: x in recent ==> x in history;
    ShortOnes(recent)
  }

  /** The values below 0.1 s, in order. */
  function ShortOnes(q: seq<real>): (d: seq<real>)
    ensures |d| <= |q| && AllBelow(d, 0.1)
    ensures forall i :: 0 <= i < |d| ==> d[i] in q
    ensures forall x :: multiset(d)[x] == if x < 0.1 then multiset(q)[x] else 0
  {
    if q == [] then []
    else
      var p := q[..|q| - 1];
      var y := q[|q| - 1];
      var rest := ShortOnes(p);
      assert q == p + [y];
      assert multiset(q) == multiset(p) + multiset{y};
      assert forall i :: 0 <= i < |rest| ==> rest[i] in q;
      if y < 0.1 then
        assert multiset(rest + [y]) == multiset(rest) + multiset{y};
        rest + [y]
      else rest
  }

  /**
   * `calibrate_wpm`: nothing before five timed durations or three recent
   * short ones; otherwise `int(1.2 / median)` of the recent short ones, the
   * floor of that positive quotient, or 0 for a median that is not positive.
   */
  function CalibrateWpm(history: seq<real>): (wpm: Option<int>)
    ensures wpm.None? <==> |history| < 5 || |RecentDots(history)| < 3
    ensures wpm.Some? ==> var m := Median(RecentDots(history));
                          (m > 0.0 ==> wpm.value as real <= 1.2 / m < wpm.value as real + 1.0)
                          && (m <= 0.0 ==> wpm.value == 0)
  {
    if |history| < 5 then None
    else
      var dots := RecentDots(history);
      if |dots| < 3 then None
      else
        var avgDot := Median(dots);
        Some(if avgDot > 0.0 then (1.2 / avgDot).Floor else 0)
  }

  /**
   * The calibrated speed lies between 12 and 119 wpm: the recent dots are
   * under 0.1 s and, being timed durations, over 10 ms.
   */
  lemma CalibrateWpmRange(history: seq<real>)
    requires AllAbove(history, MinDuration)
    ensures CalibrateWpm(history).Some? ==> 12 <= CalibrateWpm(history).value <= 119
  {
    if CalibrateWpm(history).Some? {
      var dots := RecentDots(history);
      MedianBelow(dots, 0.1);
      MedianAbove(dots, MinDuration);
      QuotientBounds(Median(dots));
    }
  }

  lemma QuotientBounds(m: real)
    requires MinDuration < m < 0.1
    ensures 12.0 < 1.2 / m < 120.0
  {
    assert 1.2 / m - 12.0 == (1.2 - 12.0 * m) / m;
    assert 120.0 - 1.2 / m == (120.0 * m - 1.2) / m;
  }

  // ------------------------------------------------------------ properties

  /** `decode_char` writes exactly one token for a pending symbol, the table's reading: the all-dot fallback never applies. */
  lemma FlushCharToken(s: State)
    requires s.symbol != ""
    ensures var r := FlushChar(s);
            r.symbol == "" && r.text == s.text + Lookup(StableTable(), s.symbol)
            && (s.symbol == "-.-" ==> r.text == s.text + "<K>")
            && (s.symbol == ".-.-." ==> r.text == s.text + "+")
  {
    StableTableOverrides();
  }

  /** The history after a transition: the run that ended, pushed when longer than 10 ms. */
  function Timed(s: State, now: real): (h: seq<real>)
    requires Bounded(s)
    ensures |h| <= HistoryWindow && AllAbove(h, MinDuration)
  {
    var duration := now - s.lastTransition;
    if duration > MinDuration then
      PushKeepsAbove(s.history, duration, HistoryWindow, MinDuration);
      PushBounded(s.history, duration, HistoryWindow)
    else s.history
  }

  /** A key-down transition only times the run and moves both timestamps. */
  lemma EdgeDown(s: State, now: real)
    requires Bounded(s) && !s.keyOn
    ensures Edge(s, true, now) == s.(history := Timed(s, now), keyOn := true, lastTransition := now, lastCharTime := now)
  {
  }

  /** A key-up transition adds its mark to the pending symbol, and a sixth mark is decoded at once. */
  lemma EdgeUp(s: State, now: real)
    requires Bounded(s) && s.keyOn
    ensures var h := Timed(s, now);
            var r := Edge(s, false, now);
            var symbol := if h != [] then s.symbol + [Mark(now - s.lastTransition, h)] else s.symbol;
            r.noise == s.noise && !r.keyOn && r.history == h && r.lastTransition == now && r.lastCharTime == now
            && (|symbol| <= MaxPending ==> r.symbol == symbol && r.text == s.text)
            && (|symbol| > MaxPending ==>
                  |symbol| == MaxPending + 1 && r.symbol == "" && r.text == s.text + Lookup(StableTable(), symbol))
  {
    var h := Timed(s, now);
    var t := s.(history := h);
    if h != [] {
      var symbol := s.symbol + [Mark(now - s.lastTransition, h)];
      if |symbol| > MaxPending {
        var f := FlushChar(t.(symbol := symbol));
        assert f == t.(text := s.text + Lookup(StableTable(), symbol), symbol := "");
      }
    }
  }

  /**
   * A chunk that changes the key: both timestamps move to now; a key-up adds
   * one mark once something is timed, and a sixth mark makes the symbol be
   * decoded at once; nothing else is written.
   */
  lemma EdgeChunk(s: State, mags: seq<real>, multiplier: real, farnsworth: bool, now: real)
    requires Bounded(s) && |mags| == TestFrequencyCount
    requires KeyDownAt(s, mags, multiplier) != s.keyOn
    ensures var r := Next(s, mags, multiplier, farnsworth, now);
            var duration := now - s.lastTransition;
            var h := Timed(s, now);
            var marked := !KeyDownAt(s, mags, multiplier) && h != [];
            var symbol := if marked then s.symbol + [Mark(duration, h)] else s.symbol;
            r.keyOn == KeyDownAt(s, mags, multiplier) && r.history == h
            && r.lastTransition == now && r.lastCharTime == now
            && (|symbol| <= MaxPending ==> r.symbol == symbol && r.text == s.text)
            && (|symbol| > MaxPending ==>
                  |symbol| == MaxPending + 1 && r.symbol == "" && r.text == s.text + Lookup(StableTable(), symbol))
  {
    var keyDown := KeyDownAt(s, mags, multiplier);
    var heard := s.(noise := PushBounded(s.noise, NoiseMagnitude(mags), NoiseWindow));
    var e := Edge(heard, keyDown, now);
    if keyDown {
      EdgeDown(heard, now);
    } else {
      EdgeUp(heard, now);
    }
    TimedIgnoresNoise(s, heard.noise, now);
    NextUnfold(s, mags, multiplier, farnsworth, now);
    FreshEdgeQuiet(e, keyDown, farnsworth, now);
  }

  lemma NextUnfold(s: State, mags: seq<real>, multiplier: real, farnsworth: bool, now: real)
    requires Bounded(s) && |mags| == TestFrequencyCount
    ensures var keyDown := KeyDownAt(s, mags, multiplier);
            var heard := s.(noise := PushBounded(s.noise, NoiseMagnitude(mags), NoiseWindow));
            Next(s, mags, multiplier, farnsworth, now) == WordCheck(CharGap(Edge(heard, keyDown, now), keyDown, now), keyDown, farnsworth, now)
  {
  }

  /** Right after an edge both clocks read `now`, so neither silence check fires. */
  lemma FreshEdgeQuiet(e: State, keyDown: bool, farnsworth: bool, now: real)
    requires Bounded(e) && e.lastCharTime == now && e.lastTransition == now
    ensures WordCheck(CharGap(e, keyDown, now), keyDown, farnsworth, now) == e
  {
    assert CharGap(e, keyDown, now) == e;
  }

  /** Timing a run does not look at the noise estimates. */
  lemma TimedIgnoresNoise(s: State, noise: seq<real>, now: real)
    requires Bounded(s) && |noise| <= NoiseWindow
    ensures Timed(s.(noise := noise), now) == Timed(s, now)
  {
  }

  /** A chunk with the key held down changes nothing but the noise floor. */
  lemma KeyHeldChunk(s: State, mags: seq<real>, multiplier: real, farnsworth: bool, now: real)
    requires Bounded(s) && |mags| == TestFrequencyCount
    requires KeyDownAt(s, mags, multiplier) && s.keyOn
    ensures Next(s, mags, multiplier, farnsworth, now) == s.(noise := PushBounded(s.noise, NoiseMagnitude(mags), NoiseWindow))
  {
  }

  /**
   * A chunk of continued silence: a pending symbol is decoded when the time
   * since the previous chunk's check exceeds max(0.02, 0.6 times the median)
   * or when more than 0.5 s passed since the last transition, and
   * `last_char_time` moves to now whenever a symbol is pending; two spaces
   * follow once the silence exceeds the word spacing. The last transition
   * is never moved.
   */
  lemma SilentChunk(s: State, mags: seq<real>, multiplier: real, farnsworth: bool, now: real)
    requires Bounded(s) && |mags| == TestFrequencyCount
    requires !KeyDownAt(s, mags, multiplier) && !s.keyOn
    ensures var r := Next(s, mags, multiplier, farnsworth, now);
            var silence := now - s.lastTransition;
            var flush := s.symbol != "" && (now - s.lastCharTime > CharThreshold(s.history) || silence > WordGap);
            var space := silence > WordGap && silence > WordSpacing(s.history, farnsworth);
            !r.keyOn && r.history == s.history && r.lastTransition == s.lastTransition
            && r.symbol == (if flush then "" else s.symbol)
            && r.lastCharTime == (if s.symbol != "" then now else s.lastCharTime)
            && r.text == s.text + (if flush then Lookup(StableTable(), s.symbol) else "") + (if space then "  " else "")
  {
    var heard := s.(noise := PushBounded(s.noise, NoiseMagnitude(mags), NoiseWindow));
    var e := Edge(heard, false, now);
    assert e == heard;
    var g := CharGap(e, false, now);
    CharGapFacts(e, now);
    WordCheckFacts(g, farnsworth, now);
    assert Next(s, mags, multiplier, farnsworth, now) == WordCheck(g, false, farnsworth, now);
  }

  lemma CharGapFacts(s: State, now: real)
    requires Bounded(s)
    ensures var g := CharGap(s, false, now);
            var flush := s.symbol != "" && now - s.lastCharTime > CharThreshold(s.history);
            g.noise == s.noise && g.keyOn == s.keyOn && g.history == s.history && g.lastTransition == s.lastTransition
            && g.symbol == (if flush then "" else s.symbol)
            && g.lastCharTime == (if s.symbol != "" then now else s.lastCharTime)
            && g.text == s.text + (if flush then Lookup(StableTable(), s.symbol) else "")
  {
  }

  lemma WordCheckFacts(s: State, farnsworth: bool, now: real)
    requires Bounded(s)
    ensures var w := WordCheck(s, false, farnsworth, now);
            var silence := now - s.lastTransition;
            var flush := s.symbol != "" && silence > WordGap;
            var space := silence > WordGap && silence > WordSpacing(s.history, farnsworth);
            w.noise == s.noise && w.keyOn == s.keyOn && w.history == s.history && w.lastTransition == s.lastTransition
            && w.lastCharTime == s.lastCharTime
            && w.symbol == (if silence > WordGap then "" else s.symbol)
            && w.text == s.text + (if flush then Lookup(StableTable(), s.symbol) else "") + (if space then "  " else "")
  {
  }

  /**
   * Once the silence exceeds the word spacing, every further silent chunk
   * writes two more spaces: nothing restarts the word clock.
   */
  lemma WordSpacesRepeat(s: State, m1: seq<real>, m2: seq<real>, multiplier: real, farnsworth: bool, t1: real, t2: real)
    requires Bounded(s) && |m1| == TestFrequencyCount && |m2| == TestFrequencyCount
    requires !s.keyOn && !KeyDownAt(s, m1, multiplier)
    requires t1 - s.lastTransition > WordGap && t1 - s.lastTransition > WordSpacing(s.history, farnsworth)
    requires t2 >= t1
    ensures var r1 := Next(s, m1, multiplier, farnsworth, t1);
            !KeyDownAt(r1, m2, multiplier) ==>
              Next(r1, m2, multiplier, farnsworth, t2).text == r1.text + "  "
  {
    var r1 := Next(s, m1, multiplier, farnsworth, t1);
    SilentChunk(s, m1, multiplier, farnsworth, t1);
    assert r1.symbol == "" && !r1.keyOn;
    assert r1.lastTransition == s.lastTransition && r1.history == s.history;
    if !KeyDownAt(r1, m2, multiplier) {
      SilentChunk(r1, m2, multiplier, farnsworth, t2);
    }
  }

  /** The pending symbol never reaches six marks between chunks, so the seven- and nine-mark codes BK and SOS are never decoded. */
  lemma LongCodesUnreachable(s: State)
    requires Bounded(s)
    ensures s.symbol != "-...-.-" && s.symbol != "...---..."
  {
  }

  /** The text only grows: every chunk appends to what was written before. */
  lemma NextExtendsText(s: State, mags: seq<real>, multiplier: real, farnsworth: bool, now: real)
    requires Bounded(s) && |mags| == TestFrequencyCount
    ensures var r := Next(s, mags, multiplier, farnsworth, now);
            |s.text| <= |r.text| && r.text[..|s.text|] == s.text
  {
    var keyDown := KeyDownAt(s, mags, multiplier);
    if keyDown != s.keyOn {
      EdgeChunk(s, mags, multiplier, farnsworth, now);
    } else if !keyDown {
      SilentChunk(s, mags, multiplier, farnsworth, now);
    }
  }

  // ------------------------------------------------------------ the session

  /** The decoder's state as `audio_decoder` and `decode_char` update it. */
  class Session {
    var noise: seq<real>
    var history: seq<real>
    var keyOn: bool
    var lastTransition: real
    var symbol: string
    var lastCharTime: real
    var text: string

    function Snapshot(): State
      reads this
    {
      State(noise, history, keyOn, lastTransition, symbol, lastCharTime, text)
    }

    predicate Valid()
      reads this
    {
      Bounded(Snapshot())
    }

    /** The state set up when the window opens at time `start`. */
    constructor(start: real)
      ensures Snapshot() == Init(start) && Valid()
    {
      noise := [];
      history := [];
      keyOn := false;
      lastTransition := start;
      symbol := "";
      lastCharTime := start;
      text := "";
    }

    /** `decode_char`. */
    method DecodeChar()
      modifies this
      ensures Snapshot() == FlushChar(old(Snapshot()))
    {
      if symbol != "" {
        var decodedSymbol := symbol;
        var c := Lookup(StableTable(), decodedSymbol);
        if c == "?" && AllDots(decodedSymbol) {
          if |decodedSymbol| == 1 {
            c := "E";
          } else if |decodedSymbol| == 4 {
            c := "H";
          } else if |decodedSymbol| == 5 {
            c := "5";
          }
        }
        text := text + c;
        symbol := "";
      }
    }

    /** One pass of the `audio_decoder` loop on a chunk read at time `now`. */
    method Step(mags: seq<real>, multiplier: real, farnsworth: bool, now: real)
      requires Valid() && |mags| == TestFrequencyCount
      modifies this
      ensures Snapshot() == Next(old(Snapshot()), mags, multiplier, farnsworth, now)
      ensures Valid()
    {
      ghost var before := Snapshot();
      var toneMag := ToneMagnitude(mags);
      noise := PushBounded(noise, NoiseMagnitude(mags), NoiseWindow);
      var avgNoise := Mean(noise);
      var openThresh := avgNoise * multiplier;
      var closeThresh := avgNoise * (multiplier * Closing);
      var keyDown := if keyOn then toneMag > closeThresh else toneMag > openThresh;
      assert keyDown == KeyDownAt(before, mags, multiplier);
      HandleTransition(keyDown, now);
      CheckCharacterSpace(keyDown, now);
      CheckWordSpace(keyDown, farnsworth, now);
    }

    /** The key-transition block of the loop body. */
    method HandleTransition(keyDown: bool, now: real)
      requires Valid()
      modifies this
      ensures Snapshot() == Edge(old(Snapshot()), keyDown, now)
    {
      ghost var s := Snapshot();
      if keyDown != keyOn {
        var duration := now - lastTransition;
        if duration > MinDuration {
          PushKeepsAbove(history, duration, HistoryWindow, MinDuration);
          history := PushBounded(history, duration, HistoryWindow);
        }
        assert history == Timed(s, now);
        if !keyDown && history != [] {
          var avgDot := Median(history);
          if duration < avgDot * MarkRatio {
            symbol := symbol + ".";
          } else {
            symbol := symbol + "-";
          }
          assert Snapshot() == s.(history := history, symbol := s.symbol + [Mark(duration, history)]);
          if |symbol| > MaxPending {
            DecodeChar();
            symbol := "";
          }
        }
        keyOn := keyDown;
        lastTransition := now;
        lastCharTime := now;
      }
    }

    /** The inter-character block of the loop body. */
    method CheckCharacterSpace(keyDown: bool, now: real)
      requires Valid()
      modifies this
      ensures Snapshot() == CharGap(old(Snapshot()), keyDown, now)
    {
      if !keyDown && symbol != "" {
        var charSpaceThreshold := Max(MinCharGap, if history != [] then Median(history) * CharRatio else MinCharGap);
        var silenceTime := now - lastCharTime;
        if silenceTime > charSpaceThreshold {
          DecodeChar();
          symbol := "";
        }
        lastCharTime := now;
      }
    }

    /** The word-space block of the loop body. */
    method CheckWordSpace(keyDown: bool, farnsworth: bool, now: real)
      requires Valid()
      modifies this
      ensures Snapshot() == WordCheck(old(Snapshot()), keyDown, farnsworth, now)
    {
      if !keyDown && now - lastTransition > WordGap {
        if symbol != "" {
          DecodeChar();
        }
        symbol := "";
        assert Snapshot() == FlushChar(old(Snapshot())).(symbol := "");
        var spacing := MedianSpacing(history, farnsworth);
        if now - lastTransition > spacing {
          text := text + "  ";
        }
      }
    }
  }
}
