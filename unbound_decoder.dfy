/**
 * The "again" and "back" GUI decoders, whose decoding loops are the same
 * statement for statement: the key is down while the strongest tone exceeds
 * ten times the noise floor, marks are classified against 1.8 times the mean
 * timed run, a character ends after three mean units of silence (0.3 s with
 * nothing timed) and a word after seven.
 *
 * `audio_decoder` assigns `current_symbol` (`current_symbol += "."`) without
 * declaring it `nonlocal`, which makes the name local to the whole function,
 * and never binds it first: every statement that reads it raises
 * `UnboundLocalError`, which the loop's bare `except: continue` swallows.
 * The model keeps that outcome explicit: a chunk either completes or raises,
 * with the assignments made before the raising statement kept.
 */
module UnboundDecoder {
  import opened Stats
  import opened Timing
  import opened MorseTable
  import opened Tables
  import opened Spectrum

  const NoiseWindow: nat := 100
  const HistoryWindow: nat := 50
  const KeyFactor: real := 10.0
  const MinDuration: real := 0.01
  const MarkRatio: real := 1.8
  const CharRatio: real := 3.0
  const EmptyCharGap: real := 0.3
  const WordGap: real := 0.5

  /** The decoder's variables between two chunks. */
  datatype State = State(
    noise: seq<real>,        // noise_floor
    history: seq<real>,      // element_times
    keyOn: bool,             // key_state
    lastTransition: real,    // last_transition
    symbol: string,          // the enclosing current_symbol, the one decode_char reads and clears
    lastCharTime: real,      // last_char_time
    text: string)            // the text area's contents

  /** What became of one pass of the loop: the state it left, and whether it ended in `UnboundLocalError`. */
  datatype Outcome = Outcome(state: State, raised: bool)

  /** Deque lengths, timed durations above 10 ms, symbols of dots and dashes. */
  predicate Bounded(s: State)
  {
    |s.noise| <= NoiseWindow && |s.history| <= HistoryWindow
    && AllAbove(s.history, MinDuration) && MorseSymbol(s.symbol)
  }

  /** The state when the window opens at time `start`. */
  function Init(start: real): State
  {
    State([], [], false, start, "", start, "")
  }

  /** The key decision: the strongest tone above ten times the noise floor that already holds this chunk's estimate. */
  function KeyDownAt(s: State, mags: seq<real>): bool
    requires |s.noise| <= NoiseWindow && |mags| == TestFrequencyCount
  {
    ToneMagnitude(mags) > Mean(PushBounded(s.noise, NoiseMagnitude(mags), NoiseWindow)) * KeyFactor
  }

  /** The history after a transition: the run that ended, pushed when longer than 10 ms. */
  function Timed(s: State, now: real): (h: seq<real>)
    requires Bounded(s)
    ensures |h| <= HistoryWindow && AllAbove(h, MinDuration)
  {
    var duration := now - s.lastTransition;
    if duration > MinDuration then
      PushKeepsAbove(s.history, duration, HistoryWindow, MinDuration);
      PushBounded(s.history, duration, HistoryWindow)
    else s.history
  }

  /**
   * One pass of the loop as written. The noise floor is always updated. On a
   * key change the run is timed; the key-down branch then reads the unbound
   * symbol for its label, and the key-up branch reads it to append a mark
   * once something is timed. A key-up with nothing timed completes the
   * transition and raises at the inter-character test, which reads the
   * symbol whenever the key is up. Only a chunk with the key held down
   * completes.
   */
  function Next(s: State, mags: seq<real>, now: real): (o: Outcome)
    requires Bounded(s) && |mags| == TestFrequencyCount
    ensures Bounded(o.state)
  {
    var keyDown := KeyDownAt(s, mags);
    var heard := s.(noise := PushBounded(s.noise, NoiseMagnitude(mags), NoiseWindow));
    if keyDown != s.keyOn then
      var timed := heard.(history := Timed(s, now));
      if keyDown || timed.history != [] then Outcome(timed, true)
      else Outcome(timed.(keyOn := false, lastTransition := now, lastCharTime := now), true)
    else if !keyDown then Outcome(heard, true)
    else Outcome(heard, false)
  }

  /** A chunk of samples as the loop sees it: the 36 magnitudes and the time it was read. */
  datatype Chunk = Chunk(mags: seq<real>, now: real)

  predicate WellFormed(cs: seq<Chunk>)
  {
    forall i :: 0 <= i < |cs| ==> |cs[i].mags| == TestFrequencyCount
  }

  /** The loop run over the chunks `cs` in order, each exception swallowed. */
  function Replay(s: State, cs: seq<Chunk>): (r: State)
    requires Bounded(s) && WellFormed(cs)
    ensures Bounded(r)
    decreases |cs|
  {
    if cs == [] then s
    else Replay(Next(s, cs[0].mags, cs[0].now).state, cs[1..])
  }

  // ------------------------------------------------------------ properties

  /** Every pass of the loop raises, except one where the key is held down. */
  lemma EveryChunkRaises(s: State, mags: seq<real>, now: real)
    requires Bounded(s) && |mags| == TestFrequencyCount
    ensures Next(s, mags, now).raised <==> !(KeyDownAt(s, mags) && s.keyOn)
  {
  }

  /**
   * With the key up, a pass changes nothing the decoder relies on: the key
   * stays up, the timestamps and the text are unchanged, and a key-down
   * chunk only adds its timed run (when longer than 10 ms) to the history.
   */
  lemma KeyStaysUp(s: State, mags: seq<real>, now: real)
    requires Bounded(s) && |mags| == TestFrequencyCount && !s.keyOn
    ensures var r := Next(s, mags, now).state;
            !r.keyOn && r.lastTransition == s.lastTransition && r.lastCharTime == s.lastCharTime
            && r.text == s.text && r.symbol == s.symbol
            && r.history == (if KeyDownAt(s, mags) then Timed(s, now) else s.history)
  {
  }

  lemma WellFormedTail(cs: seq<Chunk>)
    requires WellFormed(cs) && cs != []
    ensures WellFormed(cs[1..])
  {
    forall i | 0 <= i < |cs[1..]| ensures |cs[1..][i].mags| == TestFrequencyCount {
      assert cs[1..][i] == cs[i + 1];
    }
  }

  /**
   * Over any run from a key-up state the decoder is stuck: the key never
   * goes down, the word and character clocks never move, and nothing is
   * written.
   */
  lemma {:induction false} Stuck(s: State, cs: seq<Chunk>)
    requires Bounded(s) && WellFormed(cs) && !s.keyOn
    ensures var r := Replay(s, cs);
            !r.keyOn && r.lastTransition == s.lastTransition && r.lastCharTime == s.lastCharTime
            && r.text == s.text && r.symbol == s.symbol
    decreases |cs|
  {
    if cs != [] {
      KeyStaysUp(s, cs[0].mags, cs[0].now);
      WellFormedTail(cs);
      Stuck(Next(s, cs[0].mags, cs[0].now).state, cs[1..]);
    }
  }

  /** From the window's opening, the text stays empty however long the decoder runs. */
  lemma NothingEverWritten(start: real, cs: seq<Chunk>)
    requires WellFormed(cs)
    ensures Replay(Init(start), cs).text == "" && !Replay(Init(start), cs).keyOn
  {
    Stuck(Init(start), cs);
  }

  // ------------------------------------------------------------ with the symbol bound

  /** `decode_char`: the symbol, if any, is written out through the prosign table and cleared. */
  function DecodeChar(s: State): (r: State)
    requires Bounded(s)
    ensures Bounded(r) && r.symbol == ""
    ensures s.symbol != "" ==> r.text == s.text + Lookup(ProsignTable(), s.symbol)
    ensures s.symbol == "" ==> r == s
  {
    if s.symbol != "" then s.(text := s.text + Lookup(ProsignTable(), s.symbol), symbol := "") else s
  }

  /** A key transition once `current_symbol` names the enclosing variable. */
  function FixedEdge(s: State, keyDown: bool, now: real): (r: State)
    requires Bounded(s)
    ensures Bounded(r)
  {
    if keyDown == s.keyOn then s
    else
      var history := Timed(s, now);
      var duration := now - s.lastTransition;
      var symbol := if !keyDown && history != [] then s.symbol + [if duration < Mean(history) * MarkRatio then '.' else '-'] else s.symbol;
      s.(history := history, symbol := symbol, keyOn := keyDown, lastTransition := now, lastCharTime := now)
  }

  /** Three mean units of silence, or 0.3 s with nothing timed. */
  function CharThreshold(history: seq<real>): real
  {
    if history != [] then Mean(history) * CharRatio else EmptyCharGap
  }

  /** The inter-character check once the symbol is bound. */
  function FixedCharGap(s: State, keyDown: bool, now: real): (r: State)
    requires Bounded(s)
    ensures Bounded(r)
  {
    if !keyDown && s.symbol != "" && now - s.lastCharTime > CharThreshold(s.history) then
      DecodeChar(s).(lastCharTime := now)
    else s
  }

  /** The word check once the symbol is bound. */
  function FixedWordCheck(s: State, keyDown: bool, farnsworth: bool, now: real): (r: State)
    requires Bounded(s)
    ensures Bounded(r)
  {
    if !keyDown && now - s.lastTransition > WordGap then
      var flushed := DecodeChar(s);
      if now - s.lastTransition > MeanWordSpacing(s.history, farnsworth) then flushed.(text := flushed.text + "  ")
      else flushed
    else s
  }

  /** One pass of the loop with `nonlocal current_symbol` declared: no statement raises. */
  function FixedNext(s: State, mags: seq<real>, farnsworth: bool, now: real): (r: State)
    requires Bounded(s) && |mags| == TestFrequencyCount
    ensures Bounded(r)
  {
    var keyDown := KeyDownAt(s, mags);
    var heard := s.(noise := PushBounded(s.noise, NoiseMagnitude(mags), NoiseWindow));
    FixedWordCheck(FixedCharGap(FixedEdge(heard, keyDown, now), keyDown, now), keyDown, farnsworth, now)
  }

  /** With the symbol bound, the key follows the tone: a key-down chunk leaves the key down and restarts both clocks. */
  lemma FixedKeyFollows(s: State, mags: seq<real>, farnsworth: bool, now: real)
    requires Bounded(s) && |mags| == TestFrequencyCount && !s.keyOn
    requires KeyDownAt(s, mags)
    ensures var r := FixedNext(s, mags, farnsworth, now);
            r.keyOn && r.lastTransition == now && r.lastCharTime == now && r.text == s.text
  {
  }

  /**
   * With the symbol bound, a silent chunk past three mean units after a
   * symbol reading K writes the prosign table's "<K>" (followed by the word
   * spaces when the silence is long enough) and clears the symbol.
   */
  lemma FixedLetterK(s: State, mags: seq<real>, farnsworth: bool, now: real)
    requires Bounded(s) && |mags| == TestFrequencyCount
    requires !KeyDownAt(s, mags) && !s.keyOn
    requires s.symbol == "-.-" && now - s.lastCharTime > CharThreshold(s.history)
    ensures var r := FixedNext(s, mags, farnsworth, now);
            r.symbol == "" && (r.text == s.text + "<K>" || r.text == s.text + "<K>  ")
  {
    ProsignTableOverrides();
    var heard := s.(noise := PushBounded(s.noise, NoiseMagnitude(mags), NoiseWindow));
    assert FixedEdge(heard, false, now) == heard;
    var g := FixedCharGap(heard, false, now);
    assert g == DecodeChar(heard).(lastCharTime := now);
    assert g.text == s.text + "<K>" && g.symbol == "";
    assert FixedNext(s, mags, farnsworth, now) == FixedWordCheck(g, false, farnsworth, now);
  }

  // ------------------------------------------------------------ the session

  /** The decoder's enclosing variables, updated in place by `audio_decoder`. */
  class Session {
    var noise: seq<real>
    var history: seq<real>
    var keyOn: bool
    var lastTransition: real
    var symbol: string
    var lastCharTime: real
    var text: string

    function Snapshot(): State
      reads this
    {
      State(noise, history, keyOn, lastTransition, symbol, lastCharTime, text)
    }

    predicate Valid()
      reads this
    {
      Bounded(Snapshot())
    }

    /** The state set up when the window opens at time `start`. */
    constructor(start: real)
      ensures Snapshot() == Init(start) && Valid()
    {
      noise := [];
      history := [];
      keyOn := false;
      lastTransition := start;
      symbol := "";
      lastCharTime := start;
      text := "";
    }

    /**
     * One pass of the `audio_decoder` loop on a chunk read at time `now`;
     * `raised` reports the `UnboundLocalError` that ends it early.
     */
    method Step(mags: seq<real>, now: real) returns (raised: bool)
      requires Valid() && |mags| == TestFrequencyCount
      modifies this
      ensures Outcome(Snapshot(), raised) == Next(old(Snapshot()), mags, now)
      ensures Valid()
    {
      ghost var before := Snapshot();
      var toneMag := ToneMagnitude(mags);
      noise := PushBounded(noise, NoiseMagnitude(mags), NoiseWindow);
      var avgNoise := Mean(noise);
      var keyDown := toneMag > avgNoise * KeyFactor;
      assert keyDown == KeyDownAt(before, mags);
      assert Snapshot() == before.(noise := noise);
      if keyDown != keyOn {
        var duration := now - lastTransition;
        if duration > MinDuration {
          PushKeepsAbove(history, duration, HistoryWindow, MinDuration);
          history := PushBounded(history, duration, HistoryWindow);
        }
        assert history == Timed(before, now);
        if keyDown || history != [] {
          // the label update or `current_symbol += ...` reads the unbound local
          return true;
        }
        keyOn := keyDown;
        lastTransition := now;
        lastCharTime := now;
      }
      if !keyDown {
        // `if not key_down and current_symbol:` reads the unbound local
        return true;
      }
      raised := false;
    }
  }
}
