/**
 * The development (new_py11) GUI decoder. The key decision has hysteresis
 * (open above `multiplier` times the noise floor, stay open above
 * `0.875 * multiplier` times it) and marks are classified against 1.3 times
 * the median timed run.
 *
 * `audio_decoder` collects marks in a LOCAL `current_symbol`, while
 * `decode_char` reads and clears the ENCLOSING one (`pending` here), which
 * nothing else writes. The calls from the loop therefore decode nothing and
 * never clear the loop's symbol; only an over-long symbol (more than 30
 * marks) at an inter-character check is replaced by a single '?'.
 */
module DevDecoder {
  import opened Stats
  import opened Timing
  import opened MorseTable
  import opened Tables
  import opened Spectrum

  const NoiseWindow: nat := 100
  const HistoryWindow: nat := 50
  const MinDuration: real := 0.01
  const MarkRatio: real := 1.3
  const MaxSymbol: nat := 30
  const MinCharGap: real := 0.02
  const CharRatio: real := 0.6
  const WordGap: real := 0.5
  const Closing: real := 0.875

  /** The decoder's variables between two chunks. */
  datatype State = State(
    noise: seq<real>,        // noise_floor
    history: seq<real>,      // element_times
    keyOn: bool,             // key_state
    lastTransition: real,    // last_transition
    symbol: string,          // audio_decoder's local current_symbol
    lastCharTime: real,      // last_char_time
    pending: string,         // the enclosing current_symbol, the one decode_char reads
    text: string)            // the text area's contents

  /** Deque lengths, timed durations above 10 ms, symbols of dots and dashes. */
  predicate Bounded(s: State)
  {
    |s.noise| <= NoiseWindow && |s.history| <= HistoryWindow
    && AllAbove(s.history, MinDuration) && MorseSymbol(s.symbol)
  }

  /** The state when the window opens at time `start`. */
  function Init(start: real): State
  {
    State([], [], false, start, "", start, "", "")
  }

  /** `decode_char`: the enclosing symbol, if any, is written out through the table and cleared. */
  function FlushPending(s: State): (r: State)
    ensures s.pending == "" ==> r == s
    ensures s.pending != "" ==> r == s.(text := s.text + Lookup(FullTable(), s.pending), pending := "")
  {
    if s.pending != "" then
      FullTableFallbackCodes();
      FallbacksInert(FullTable(), s.pending);
      s.(text := s.text + DotDashFallback(FullTable(), s.pending), pending := "")
    else s
  }

  /** A mark of `duration` is a dot when shorter than 1.3 times the median duration. */
  function Mark(duration: real, history: seq<real>): char
    requires history != []
  {
    if duration < Median(history) * MarkRatio then '.' else '-'
  }

  /** The history after a transition: the run that ended, pushed when longer than 10 ms. */
  function Timed(s: State, now: real): (h: seq<real>)
    requires Bounded(s)
    ensures |h| <= HistoryWindow && AllAbove(h, MinDuration)
  {
    var duration := now - s.lastTransition;
    if duration > MinDuration then
      PushKeepsAbove(s.history, duration, HistoryWindow, MinDuration);
      PushBounded(s.history, duration, HistoryWindow)
    else s.history
  }

  /** A key transition: time the run that ended and, at key-up, add a mark. */
  function Edge(s: State, keyDown: bool, now: real): (r: State)
    requires Bounded(s)
    ensures Bounded(r) && r.pending == s.pending
  {
    if keyDown == s.keyOn then s
    else
      var history := Timed(s, now);
      var symbol := if !keyDown && history != [] then s.symbol + [Mark(now - s.lastTransition, history)] else s.symbol;
      s.(history := history, symbol := symbol, keyOn := keyDown, lastTransition := now, lastCharTime := now)
  }

  /** The silence that ends a character: max(0.02, 0.6 times the median duration). */
  function CharThreshold(history: seq<real>): real
  {
    Max(MinCharGap, if history != [] then Median(history) * CharRatio else MinCharGap)
  }

  /** The inter-character check: an over-long symbol becomes '?', any other calls `decode_char`. */
  function CharGap(s: State, keyDown: bool, now: real): (r: State)
    requires Bounded(s)
    ensures Bounded(r) && (s.pending == "" ==> r.pending == "")
  {
    if !keyDown && s.symbol != "" && now - s.lastCharTime > CharThreshold(s.history) then
      if |s.symbol| > MaxSymbol then s.(text := s.text + "?", symbol := "", lastCharTime := now)
      else FlushPending(s).(lastCharTime := now)
    else s
  }

  /** The word check: past 0.5 s of silence call `decode_char`, and past the word spacing write two spaces. */
  function WordCheck(s: State, keyDown: bool, farnsworth: bool, now: real): (r: State)
    requires Bounded(s)
    ensures Bounded(r) && (s.pending == "" ==> r.pending == "")
  {
    if !keyDown && now - s.lastTransition > WordGap then
      var flushed := if s.symbol != "" then FlushPending(s) else s;
      if now - s.lastTransition > WordSpacing(s.history, farnsworth) then flushed.(text := flushed.text + "  ")
      else flushed
    else s
  }

  /** The key decision with hysteresis against the noise floor that already holds this chunk's estimate. */
  function KeyDownAt(s: State, mags: seq<real>, multiplier: real): bool
    requires |s.noise| <= NoiseWindow && |mags| == TestFrequencyCount
  {
    KeyDown(s.keyOn, ToneMagnitude(mags), Mean(PushBounded(s.noise, NoiseMagnitude(mags), NoiseWindow)), multiplier)
  }

  /** One pass of the decoding loop on a chunk read at time `now`. */
  function Next(s: State, mags: seq<real>, multiplier: real, farnsworth: bool, now: real): (r: State)
    requires Bounded(s) && |mags| == TestFrequencyCount
    ensures Bounded(r) && (s.pending == "" ==> r.pending == "")
  {
    var keyDown := KeyDownAt(s, mags, multiplier);
    var heard := s.(noise := PushBounded(s.noise, NoiseMagnitude(mags), NoiseWindow));
    WordCheck(CharGap(Edge(heard, keyDown, now), keyDown, now), keyDown, farnsworth, now)
  }

  // ------------------------------------------------------------ properties

  /**
   * `decode_char` on a pending symbol writes exactly one token, the table's
   * reading (the all-dot and all-dash fallbacks never apply), and clears it;
   * with nothing pending it does nothing.
   */
  lemma FlushPendingToken(s: State)
    ensures s.pending == "" ==> FlushPending(s) == s
    ensures s.pending != "" ==>
              FlushPending(s).pending == "" && FlushPending(s).symbol == s.symbol
              && FlushPending(s).text == s.text + Lookup(FullTable(), s.pending)
    ensures s.pending == "-.-" ==> FlushPending(s).text == s.text + "<K>"
    ensures s.pending == "-...-" ==> FlushPending(s).text == s.text + "="
  {
    FullTableOverrides();
  }

  /**
   * A chunk that changes the key: both timestamps move to now, a key-up adds
   * one mark once something is timed (a dot below 1.3 times the median), and
   * nothing is written.
   */
  lemma EdgeChunk(s: State, mags: seq<real>, multiplier: real, farnsworth: bool, now: real)
    requires Bounded(s) && |mags| == TestFrequencyCount
    requires KeyDownAt(s, mags, multiplier) != s.keyOn
    ensures var r := Next(s, mags, multiplier, farnsworth, now);
            var duration := now - s.lastTransition;
            var h := Timed(s, now);
            r.keyOn == KeyDownAt(s, mags, multiplier) && r.history == h
            && r.lastTransition == now && r.lastCharTime == now && r.text == s.text && r.pending == s.pending
            && r.symbol == (if !KeyDownAt(s, mags, multiplier) && h != []
                            then s.symbol + [if duration < Median(h) * 1.3 then '.' else '-'] else s.symbol)
  {
    var keyDown := KeyDownAt(s, mags, multiplier);
    var heard := s.(noise := PushBounded(s.noise, NoiseMagnitude(mags), NoiseWindow));
    var e := Edge(heard, keyDown, now);
    TimedIgnoresNoise(s, heard.noise, now);
    EdgeFacts(heard, keyDown, now);
    NextUnfold(s, mags, multiplier, farnsworth, now);
    FreshEdgeQuiet(e, keyDown, farnsworth, now);
  }

  lemma NextUnfold(s: State, mags: seq<real>, multiplier: real, farnsworth: bool, now: real)
    requires Bounded(s) && |mags| == TestFrequencyCount
    ensures var keyDown := KeyDownAt(s, mags, multiplier);
            var heard := s.(noise := PushBounded(s.noise, NoiseMagnitude(mags), NoiseWindow));
            Next(s, mags, multiplier, farnsworth, now) == WordCheck(CharGap(Edge(heard, keyDown, now), keyDown, now), keyDown, farnsworth, now)
  {
  }

  /** The edge itself: the run is timed, the mark appended on a release, both clocks restarted. */
  lemma EdgeFacts(h: State, keyDown: bool, now: real)
    requires Bounded(h) && keyDown != h.keyOn
    ensures var e := Edge(h, keyDown, now);
            var t := Timed(h, now);
            e.keyOn == keyDown && e.history == t && e.lastTransition == now && e.lastCharTime == now
            && e.text == h.text && e.pending == h.pending
            && e.symbol == (if !keyDown && t != []
                            then h.symbol + [if now - h.lastTransition < Median(t) * 1.3 then '.' else '-'] else h.symbol)
  {
  }

  /** Right after an edge both clocks read `now`, so neither silence check fires. */
  lemma FreshEdgeQuiet(e: State, keyDown: bool, farnsworth: bool, now: real)
    requires Bounded(e) && e.lastCharTime == now && e.lastTransition == now
    ensures WordCheck(CharGap(e, keyDown, now), keyDown, farnsworth, now) == e
  {
    assert CharGap(e, keyDown, now) == e;
  }

  /** Timing a run does not look at the noise estimates. */
  lemma TimedIgnoresNoise(s: State, noise: seq<real>, now: real)
    requires Bounded(s) && |noise| <= NoiseWindow
    ensures Timed(s.(noise := noise), now) == Timed(s, now)
  {
  }

  /** A chunk with the key held down changes nothing but the noise floor. */
  lemma KeyHeldChunk(s: State, mags: seq<real>, multiplier: real, farnsworth: bool, now: real)
    requires Bounded(s) && |mags| == TestFrequencyCount
    requires KeyDownAt(s, mags, multiplier) && s.keyOn
    ensures Next(s, mags, multiplier, farnsworth, now) == s.(noise := PushBounded(s.noise, NoiseMagnitude(mags), NoiseWindow))
  {
  }

  lemma CharGapFacts(s: State, now: real)
    requires Bounded(s) && s.pending == ""
    ensures var g := CharGap(s, false, now);
            var check := s.symbol != "" && now - s.lastCharTime > CharThreshold(s.history);
            var reset := check && |s.symbol| > MaxSymbol;
            g.noise == s.noise && g.keyOn == s.keyOn && g.history == s.history
            && g.lastTransition == s.lastTransition && g.pending == ""
            && g.symbol == (if reset then "" else s.symbol)
            && g.lastCharTime == (if check then now else s.lastCharTime)
            && g.text == s.text + (if reset then "?" else "")
  {
  }

  lemma WordCheckFacts(s: State, farnsworth: bool, now: real)
    requires Bounded(s) && s.pending == ""
    ensures var w := WordCheck(s, false, farnsworth, now);
            var silence := now - s.lastTransition;
            w == (if silence > WordGap && silence > WordSpacing(s.history, farnsworth) then s.(text := s.text + "  ") else s)
  {
  }

  /**
   * A chunk of continued silence, with nothing pending for `decode_char`: the
   * loop's symbol is kept unless an inter-character check finds it longer
   * than 30 marks, which writes one '?' and clears it; two spaces follow
   * once the silence exceeds the word spacing; no letter is ever written.
   */
  lemma SilentChunk(s: State, mags: seq<real>, multiplier: real, farnsworth: bool, now: real)
    requires Bounded(s) && |mags| == TestFrequencyCount && s.pending == ""
    requires !KeyDownAt(s, mags, multiplier) && !s.keyOn
    ensures var r := Next(s, mags, multiplier, farnsworth, now);
            var silence := now - s.lastTransition;
            var check := s.symbol != "" && now - s.lastCharTime > CharThreshold(s.history);
            var reset := check && |s.symbol| > MaxSymbol;
            var space := silence > WordGap && silence > WordSpacing(s.history, farnsworth);
            !r.keyOn && r.history == s.history && r.lastTransition == s.lastTransition && r.pending == ""
            && r.symbol == (if reset then "" else s.symbol)
            && r.lastCharTime == (if check then now else s.lastCharTime)
            && r.text == s.text + (if reset then "?" else "") + (if space then "  " else "")
  {
    var heard := s.(noise := PushBounded(s.noise, NoiseMagnitude(mags), NoiseWindow));
    var e := Edge(heard, false, now);
    assert e == heard;
    var g := CharGap(e, false, now);
    CharGapFacts(e, now);
    WordCheckFacts(g, farnsworth, now);
    assert Next(s, mags, multiplier, farnsworth, now) == WordCheck(g, false, farnsworth, now);
  }

  /**
   * The loop's symbol is never consumed by `decode_char`: a chunk either
   * keeps it, extends it by one mark, or (past 30 marks) clears it while
   * writing '?'. The text gains at most a '?' and two spaces.
   */
  lemma SymbolOnlyGrows(s: State, mags: seq<real>, multiplier: real, farnsworth: bool, now: real)
    requires Bounded(s) && |mags| == TestFrequencyCount && s.pending == ""
    ensures Grows(s, Next(s, mags, multiplier, farnsworth, now))
  {
    var keyDown := KeyDownAt(s, mags, multiplier);
    var r := Next(s, mags, multiplier, farnsworth, now);
    if keyDown != s.keyOn {
      EdgeChunk(s, mags, multiplier, farnsworth, now);
      assert r.text == s.text && r.pending == "";
      if !keyDown && r.history != [] {
        assert r.symbol[..|s.symbol|] == s.symbol;
      }
    } else if !keyDown {
      SilentChunk(s, mags, multiplier, farnsworth, now);
    } else {
      KeyHeldChunk(s, mags, multiplier, farnsworth, now);
    }
  }

  /** What one chunk may do to the loop's symbol and the text. */
  predicate Grows(s: State, r: State)
  {
    r.pending == ""
    && ((r.symbol == "" && |s.symbol| > MaxSymbol && (r.text == s.text + "?" || r.text == s.text + "?  "))
        || (|s.symbol| <= |r.symbol| <= |s.symbol| + 1 && r.symbol[..|s.symbol|] == s.symbol
            && (r.text == s.text || r.text == s.text + "  ")))
  }

  /**
   * Once the silence exceeds the word spacing, every further silent chunk
   * writes two more spaces: nothing restarts the word clock.
   */
  lemma WordSpacesRepeat(s: State, m1: seq<real>, m2: seq<real>, multiplier: real, farnsworth: bool, t1: real, t2: real)
    requires Bounded(s) && |m1| == TestFrequencyCount && |m2| == TestFrequencyCount && s.pending == ""
    requires !s.keyOn && !KeyDownAt(s, m1, multiplier)
    requires t1 - s.lastTransition > WordGap && t1 - s.lastTransition > WordSpacing(s.history, farnsworth)
    requires t2 >= t1
    ensures var r1 := Next(s, m1, multiplier, farnsworth, t1);
            !KeyDownAt(r1, m2, multiplier) ==>
              var r2 := Next(r1, m2, multiplier, farnsworth, t2);
              r2.text == r1.text + "  " || r2.text == r1.text + "?  "
  {
    SpacedChunk(s, m1, multiplier, farnsworth, t1);
    var r1 := Next(s, m1, multiplier, farnsworth, t1);
    if !KeyDownAt(r1, m2, multiplier) {
      SpacedChunk(r1, m2, multiplier, farnsworth, t2);
    }
  }

  /** A silent chunk past the word spacing: two spaces, possibly after a '?', and the word clock kept. */
  lemma SpacedChunk(s: State, mags: seq<real>, multiplier: real, farnsworth: bool, now: real)
    requires Bounded(s) && |mags| == TestFrequencyCount && s.pending == ""
    requires !KeyDownAt(s, mags, multiplier) && !s.keyOn
    requires now - s.lastTransition > WordGap && now - s.lastTransition > WordSpacing(s.history, farnsworth)
    ensures var r := Next(s, mags, multiplier, farnsworth, now);
            !r.keyOn && r.pending == "" && r.lastTransition == s.lastTransition && r.history == s.history
            && (r.text == s.text + "  " || r.text == s.text + "?  ")
  {
    SilentChunk(s, mags, multiplier, farnsworth, now);
  }

  // ------------------------------------------------------------ the shadowed symbol

  /**
   * A symbol that reads K ("-.-") is never written: a silent chunk past the
   * inter-character threshold leaves it in place and the text gains at most
   * the word spaces.
   */
  lemma LetterKLost(s: State, mags: seq<real>, multiplier: real, farnsworth: bool, now: real)
    requires Bounded(s) && |mags| == TestFrequencyCount && s.pending == ""
    requires !KeyDownAt(s, mags, multiplier) && !s.keyOn
    requires s.symbol == "-.-" && now - s.lastCharTime > CharThreshold(s.history)
    ensures var r := Next(s, mags, multiplier, farnsworth, now);
            r.symbol == "-.-" && (r.text == s.text || r.text == s.text + "  ")
  {
    SilentChunk(s, mags, multiplier, farnsworth, now);
  }

  /** The loop's symbol handed to `decode_char`, as if both named one variable. */
  function Decoded(s: State): (r: State)
    requires Bounded(s)
    ensures Bounded(r) && r.symbol == "" && r.pending == ""
    ensures s.pending == "" && s.symbol != "" ==> r.text == s.text + Lookup(FullTable(), s.symbol)
  {
    FlushPending(s.(pending := s.symbol, symbol := ""))
  }

  /** The inter-character check with `decode_char` acting on the loop's symbol. */
  function FixedCharGap(s: State, keyDown: bool, now: real): (r: State)
    requires Bounded(s)
    ensures Bounded(r)
  {
    if !keyDown && s.symbol != "" && now - s.lastCharTime > CharThreshold(s.history) then
      if |s.symbol| > MaxSymbol then s.(text := s.text + "?", symbol := "", lastCharTime := now)
      else Decoded(s).(lastCharTime := now)
    else s
  }

  /** The word check with `decode_char` acting on the loop's symbol. */
  function FixedWordCheck(s: State, keyDown: bool, farnsworth: bool, now: real): (r: State)
    requires Bounded(s)
    ensures Bounded(r)
  {
    if !keyDown && now - s.lastTransition > WordGap then
      var flushed := if s.symbol != "" then Decoded(s) else s;
      if now - s.lastTransition > WordSpacing(s.history, farnsworth) then flushed.(text := flushed.text + "  ")
      else flushed
    else s
  }

  /** One pass of the loop with the symbol shared between the loop and `decode_char`. */
  function FixedNext(s: State, mags: seq<real>, multiplier: real, farnsworth: bool, now: real): (r: State)
    requires Bounded(s) && |mags| == TestFrequencyCount
    ensures Bounded(r)
  {
    var keyDown := KeyDownAt(s, mags, multiplier);
    var heard := s.(noise := PushBounded(s.noise, NoiseMagnitude(mags), NoiseWindow));
    FixedWordCheck(FixedCharGap(Edge(heard, keyDown, now), keyDown, now), keyDown, farnsworth, now)
  }

  /**
   * With the symbol shared, the same chunk writes K's table reading "<K>"
   * (followed by the word spaces when the silence is long enough) and
   * clears the symbol.
   */
  lemma FixedLetterK(s: State, mags: seq<real>, multiplier: real, farnsworth: bool, now: real)
    requires Bounded(s) && |mags| == TestFrequencyCount && s.pending == ""
    requires !KeyDownAt(s, mags, multiplier) && !s.keyOn
    requires s.symbol == "-.-" && now - s.lastCharTime > CharThreshold(s.history)
    ensures var r := FixedNext(s, mags, multiplier, farnsworth, now);
            r.symbol == "" && (r.text == s.text + "<K>" || r.text == s.text + "<K>  ")
  {
    var heard := s.(noise := PushBounded(s.noise, NoiseMagnitude(mags), NoiseWindow));
    assert Edge(heard, false, now) == heard;
    var g := FixedCharGap(heard, false, now);
    assert g == Decoded(heard).(lastCharTime := now) by {
      assert |heard.symbol| == 3;
    }
    DecodedK(heard);
    assert FixedNext(s, mags, multiplier, farnsworth, now) == FixedWordCheck(g, false, farnsworth, now);
    FixedWordCheckQuiet(g, farnsworth, now);
  }

  /** The shared symbol "-.-" is written as the table's "<K>". */
  lemma DecodedK(h: State)
    requires Bounded(h) && h.pending == "" && h.symbol == "-.-"
    ensures Decoded(h).text == h.text + "<K>"
  {
    FullTableOverrides();
  }

  /** Once the symbol is written, the word check adds at most the two spaces. */
  lemma FixedWordCheckQuiet(g: State, farnsworth: bool, now: real)
    requires Bounded(g) && g.symbol == ""
    ensures var r := FixedWordCheck(g, false, farnsworth, now);
            r.symbol == "" && (r.text == g.text || r.text == g.text + "  ")
  {
  }

  // ------------------------------------------------------------ the session

  /** The decoder's variables, the enclosing ones and `audio_decoder`'s local symbol. */
  class Session {
    var noise: seq<real>
    var history: seq<real>
    var keyOn: bool
    var lastTransition: real
    var symbol: string
    var lastCharTime: real
    var pending: string
    var text: string

    function Snapshot(): State
      reads this
    {
      State(noise, history, keyOn, lastTransition, symbol, lastCharTime, pending, text)
    }

    /** The bounds, and nothing pending for `decode_char`: no statement of the loop writes it. */
    predicate Valid()
      reads this
    {
      Bounded(Snapshot()) && pending == ""
    }

    /** The state set up when the window opens at time `start`. */
    constructor(start: real)
      ensures Snapshot() == Init(start) && Valid()
    {
      noise := [];
      history := [];
      keyOn := false;
      lastTransition := start;
      symbol := "";
      lastCharTime := start;
      pending := "";
      text := "";
    }

    /** `decode_char`, on the enclosing symbol. */
    method DecodeChar()
      modifies this
      ensures Snapshot() == FlushPending(old(Snapshot()))
    {
      if pending != "" {
        var decodedSymbol := pending;
        var c := Lookup(FullTable(), decodedSymbol);
        if c == "?" && AllDots(decodedSymbol) {
          if |decodedSymbol| == 1 {
            c := "E";
          } else if |decodedSymbol| == 4 {
            c := "H";
          } else if |decodedSymbol| == 5 {
            c := "5";
          }
        }
        if c == "?" && AllDashes(decodedSymbol) {
          if |decodedSymbol| == 1 {
            c := "T";
          } else if |decodedSymbol| == 3 {
            c := "O";
          }
        }
        text := text + c;
        pending := "";
      }
    }

    /** One pass of the `audio_decoder` loop on a chunk read at time `now`. */
    method Step(mags: seq<real>, multiplier: real, farnsworth: bool, now: real)
      requires Valid() && |mags| == TestFrequencyCount
      modifies this
      ensures Snapshot() == Next(old(Snapshot()), mags, multiplier, farnsworth, now)
      ensures Valid()
    {
      ghost var before := Snapshot();
      var toneMag := ToneMagnitude(mags);
      noise := PushBounded(noise, NoiseMagnitude(mags), NoiseWindow);
      var avgNoise := Mean(noise);
      var openThresh := avgNoise * multiplier;
      var closeThresh := avgNoise * (multiplier * Closing);
      var keyDown := if keyOn then toneMag > closeThresh else toneMag > openThresh;
      assert keyDown == KeyDownAt(before, mags, multiplier);
      HandleTransition(keyDown, now);
      CheckCharacterSpace(keyDown, now);
      CheckWordSpace(keyDown, farnsworth, now);
    }

    /** The key-transition block of the loop body. */
    method HandleTransition(keyDown: bool, now: real)
      requires Valid()
      modifies this
      ensures Snapshot() == Edge(old(Snapshot()), keyDown, now)
    {
      if keyDown != keyOn {
        var duration := now - lastTransition;
        if duration > MinDuration {
          PushKeepsAbove(history, duration, HistoryWindow, MinDuration);
          history := PushBounded(history, duration, HistoryWindow);
        }
        if !keyDown && history != [] {
          var avgDot := Median(history);
          if duration < avgDot * MarkRatio {
            symbol := symbol + ".";
          } else {
            symbol := symbol + "-";
          }
        }
        keyOn := keyDown;
        lastTransition := now;
        lastCharTime := now;
      }
    }

    /** The inter-character block of the loop body. */
    method CheckCharacterSpace(keyDown: bool, now: real)
      requires Valid()
      modifies this
      ensures Snapshot() == CharGap(old(Snapshot()), keyDown, now)
    {
      if !keyDown && symbol != "" {
        var charSpaceThreshold := Max(MinCharGap, if history != [] then Median(history) * CharRatio else MinCharGap);
        var silenceTime := now - lastCharTime;
        if silenceTime > charSpaceThreshold {
          var decodedSymbol := symbol;
          if |decodedSymbol| > MaxSymbol {
            text := text + "?";
            symbol := "";
          } else {
            DecodeChar();
          }
          lastCharTime := now;
        }
      }
    }

    /** The word-space block of the loop body. */
    method CheckWordSpace(keyDown: bool, farnsworth: bool, now: real)
      requires Valid()
      modifies this
      ensures Snapshot() == WordCheck(old(Snapshot()), keyDown, farnsworth, now)
    {
      if !keyDown && now - lastTransition > WordGap {
        if symbol != "" {
          DecodeChar();
        }
        var spacing := MedianSpacing(history, farnsworth);
        if now - lastTransition > spacing {
          text := text + "  ";
        }
      }
    }
  }
}
