/**
 * The "runs but no chars" GUI decoder. The key is down while the strongest
 * tone exceeds four times the noise floor (no hysteresis); marks are
 * classified against 1.8 times the MEAN timed run; the inter-character
 * threshold is max(0.08, 1.5 times the mean), and the word spacing is seven
 * mean units.
 *
 * As in the development decoder, `audio_decoder` binds its own local
 * `current_symbol`, so the `decode_char` calls from the loop read the
 * enclosing symbol (`pending` here), which nothing fills: no character is
 * ever written, only word spaces, and the loop's symbol grows without end.
 */
module NoCharsDecoder {
  import opened Stats
  import opened Timing
  import opened MorseTable
  import opened Tables
  import opened Spectrum

  const NoiseWindow: nat := 100
  const HistoryWindow: nat := 50
  const KeyFactor: real := 4.0
  const MinDuration: real := 0.01
  const MarkRatio: real := 1.8
  const MinCharGap: real := 0.08
  const CharRatio: real := 1.5
  const WordGap: real := 0.5

  /** The decoder's variables between two chunks. */
  datatype State = State(
    noise: seq<real>,        // noise_floor
    history: seq<real>,      // element_times
    keyOn: bool,             // key_state
    lastTransition: real,    // last_transition
    symbol: string,          // audio_decoder's local current_symbol
    lastCharTime: real,      // last_char_time
    pending: string,         // the enclosing current_symbol, the one decode_char reads
    text: string)            // the text area's contents

  /** Deque lengths, timed durations above 10 ms, symbols of dots and dashes. */
  predicate Bounded(s: State)
  {
    |s.noise| <= NoiseWindow && |s.history| <= HistoryWindow
    && AllAbove(s.history, MinDuration) && MorseSymbol(s.symbol)
  }

  /** The state when the window opens at time `start`. */
  function Init(start: real): State
  {
    State([], [], false, start, "", start, "", "")
  }

  /** `decode_char`: the enclosing symbol, if any, is written out through the prosign table and cleared. */
  function FlushPending(s: State): (r: State)
    ensures s.pending == "" ==> r == s
    ensures s.pending != "" ==> r.pending == "" && r.symbol == s.symbol && r.history == s.history
    ensures s.pending == "-.-" ==> r.text == s.text + "<K>"
    ensures s.pending == "-...-" ==> r.text == s.text + "<BT>"
    ensures s.pending == ".-.-." ==> r.text == s.text + "<AR>"
  {
    ProsignTableOverrides();
    if s.pending != "" then s.(text := s.text + Lookup(ProsignTable(), s.pending), pending := "") else s
  }

  /** The history after a transition: the run that ended, pushed when longer than 10 ms. */
  function Timed(s: State, now: real): (h: seq<real>)
    requires Bounded(s)
    ensures |h| <= HistoryWindow && AllAbove(h, MinDuration)
  {
    var duration := now - s.lastTransition;
    if duration > MinDuration then
      PushKeepsAbove(s.history, duration, HistoryWindow, MinDuration);
      PushBounded(s.history, duration, HistoryWindow)
    else s.history
  }

  /** A key transition: time the run that ended and, at key-up, add a mark against 1.8 times the mean. */
  function Edge(s: State, keyDown: bool, now: real): (r: State)
    requires Bounded(s)
    ensures Bounded(r) && r.pending == s.pending && r.text == s.text
  {
    if keyDown == s.keyOn then s
    else
      var history := Timed(s, now);
      var duration := now - s.lastTransition;
      var symbol := if !keyDown && history != [] then s.symbol + [if duration < Mean(history) * MarkRatio then '.' else '-'] else s.symbol;
      s.(history := history, symbol := symbol, keyOn := keyDown, lastTransition := now, lastCharTime := now)
  }

  /** The silence that ends a character: max(0.08, 1.5 times the mean), or 0.08 s with nothing timed. */
  function CharThreshold(history: seq<real>): real
  {
    if history != [] then Max(MinCharGap, Mean(history) * CharRatio) else MinCharGap
  }

  /** The inter-character check: past the threshold call `decode_char` and restart the character clock. */
  function CharGap(s: State, keyDown: bool, now: real): (r: State)
    requires Bounded(s)
    ensures Bounded(r) && (s.pending == "" ==> r.pending == "")
  {
    if !keyDown && s.symbol != "" && now - s.lastCharTime > CharThreshold(s.history) then
      FlushPending(s).(lastCharTime := now)
    else s
  }

  /** The word check: past 0.5 s of silence call `decode_char`, and past the word spacing write two spaces. */
  function WordCheck(s: State, keyDown: bool, farnsworth: bool, now: real): (r: State)
    requires Bounded(s)
    ensures Bounded(r) && (s.pending == "" ==> r.pending == "")
  {
    if !keyDown && now - s.lastTransition > WordGap then
      var flushed := if s.symbol != "" then FlushPending(s) else s;
      if now - s.lastTransition > MeanWordSpacing(s.history, farnsworth) then flushed.(text := flushed.text + "  ")
      else flushed
    else s
  }

  /** The key decision: the strongest tone above four times the noise floor that already holds this chunk's estimate. */
  function KeyDownAt(s: State, mags: seq<real>): bool
    requires |s.noise| <= NoiseWindow && |mags| == TestFrequencyCount
  {
    ToneMagnitude(mags) > Mean(PushBounded(s.noise, NoiseMagnitude(mags), NoiseWindow)) * KeyFactor
  }

  /** One pass of the decoding loop on a chunk read at time `now`. */
  function Next(s: State, mags: seq<real>, farnsworth: bool, now: real): (r: State)
    requires Bounded(s) && |mags| == TestFrequencyCount
    ensures Bounded(r) && (s.pending == "" ==> r.pending == "")
  {
    var keyDown := KeyDownAt(s, mags);
    var heard := s.(noise := PushBounded(s.noise, NoiseMagnitude(mags), NoiseWindow));
    WordCheck(CharGap(Edge(heard, keyDown, now), keyDown, now), keyDown, farnsworth, now)
  }

  /** A chunk of samples as the loop sees it: the 36 magnitudes and the time it was read. */
  datatype Chunk = Chunk(mags: seq<real>, now: real)

  predicate WellFormed(cs: seq<Chunk>)
  {
    forall i :: 0 <= i < |cs| ==> |cs[i].mags| == TestFrequencyCount
  }

  /** The loop run over the chunks `cs` in order. */
  function Replay(s: State, cs: seq<Chunk>, farnsworth: bool): (r: State)
    requires Bounded(s) && WellFormed(cs)
    ensures Bounded(r)
    decreases |cs|
  {
    if cs == [] then s
    else Replay(Next(s, cs[0].mags, farnsworth, cs[0].now), cs[1..], farnsworth)
  }

  /** Nothing but spaces. */
  predicate Blank(t: string)
  {
    forall i :: 0 <= i < |t| ==> t[i] == ' '
  }

  // ------------------------------------------------------------ properties

  /**
   * The key decision is the plain comparison with four times the mean noise,
   * whatever the key was before: a chunk's decision does not depend on
   * `key_state`.
   */
  lemma KeyDecision(s: State, mags: seq<real>)
    requires |s.noise| <= NoiseWindow && |mags| == TestFrequencyCount
    ensures KeyDownAt(s, mags) == KeyDownAt(s.(keyOn := !s.keyOn), mags)
    ensures s.noise == [] ==> (KeyDownAt(s, mags) <==> ToneMagnitude(mags) > 4.0 * NoiseMagnitude(mags))
  {
    if s.noise == [] {
      var q := PushBounded(s.noise, NoiseMagnitude(mags), NoiseWindow);
      assert q == [NoiseMagnitude(mags)];
      assert q[..0] == [];
      assert Sum(q) == Sum(q[..0]) + q[0] == NoiseMagnitude(mags);
      assert Mean(q) == NoiseMagnitude(mags);
    }
  }

  /**
   * A chunk that changes the key: both timestamps move to now, a key-up adds
   * one mark once something is timed (a dot below 1.8 times the mean of the
   * history that already holds this run), and nothing is written.
   */
  lemma EdgeChunk(s: State, mags: seq<real>, farnsworth: bool, now: real)
    requires Bounded(s) && |mags| == TestFrequencyCount
    requires KeyDownAt(s, mags) != s.keyOn
    ensures var r := Next(s, mags, farnsworth, now);
            var duration := now - s.lastTransition;
            var h := Timed(s, now);
            r.keyOn == KeyDownAt(s, mags) && r.history == h
            && r.lastTransition == now && r.lastCharTime == now && r.text == s.text && r.pending == s.pending
            && r.symbol == (if !KeyDownAt(s, mags) && h != []
                            then s.symbol + [if duration < Mean(h) * 1.8 then '.' else '-'] else s.symbol)
  {
    var keyDown := KeyDownAt(s, mags);
    var heard := s.(noise := PushBounded(s.noise, NoiseMagnitude(mags), NoiseWindow));
    var e := Edge(heard, keyDown, now);
    TimedIgnoresNoise(s, heard.noise, now);
    EdgeFacts(heard, keyDown, now);
    NextUnfold(s, mags, farnsworth, now);
    FreshEdgeQuiet(e, keyDown, farnsworth, now);
  }

  lemma NextUnfold(s: State, mags: seq<real>, farnsworth: bool, now: real)
    requires Bounded(s) && |mags| == TestFrequencyCount
    ensures var keyDown := KeyDownAt(s, mags);
            var heard := s.(noise := PushBounded(s.noise, NoiseMagnitude(mags), NoiseWindow));
            Next(s, mags, farnsworth, now) == WordCheck(CharGap(Edge(heard, keyDown, now), keyDown, now), keyDown, farnsworth, now)
  {
  }

  /** Timing a run does not look at the noise estimates. */
  lemma TimedIgnoresNoise(s: State, noise: seq<real>, now: real)
    requires Bounded(s) && |noise| <= NoiseWindow
    ensures Timed(s.(noise := noise), now) == Timed(s, now)
  {
  }

  /** The edge itself: the run is timed, the mark appended on a release, both clocks restarted. */
  lemma EdgeFacts(h: State, keyDown: bool, now: real)
    requires Bounded(h) && keyDown != h.keyOn
    ensures var e := Edge(h, keyDown, now);
            var t := Timed(h, now);
            e.keyOn == keyDown && e.history == t && e.lastTransition == now && e.lastCharTime == now
            && e.text == h.text && e.pending == h.pending
            && e.symbol == (if !keyDown && t != []
                            then h.symbol + [if now - h.lastTransition < Mean(t) * 1.8 then '.' else '-'] else h.symbol)
  {
  }

  /** Right after an edge both clocks read `now`, so neither silence check fires. */
  lemma FreshEdgeQuiet(e: State, keyDown: bool, farnsworth: bool, now: real)
    requires Bounded(e) && e.lastCharTime == now && e.lastTransition == now
    ensures WordCheck(CharGap(e, keyDown, now), keyDown, farnsworth, now) == e
  {
    assert CharGap(e, keyDown, now) == e;
  }

  /** A chunk with the key held down changes nothing but the noise floor. */
  lemma KeyHeldChunk(s: State, mags: seq<real>, farnsworth: bool, now: real)
    requires Bounded(s) && |mags| == TestFrequencyCount
    requires KeyDownAt(s, mags) && s.keyOn
    ensures Next(s, mags, farnsworth, now) == s.(noise := PushBounded(s.noise, NoiseMagnitude(mags), NoiseWindow))
  {
  }

  /**
   * A chunk of continued silence, with nothing pending for `decode_char`:
   * the symbol stays as it is, the character clock restarts when the
   * inter-character threshold is passed, and two spaces are written once the
   * silence exceeds both 0.5 s and the word spacing.
   */
  lemma SilentChunk(s: State, mags: seq<real>, farnsworth: bool, now: real)
    requires Bounded(s) && |mags| == TestFrequencyCount && s.pending == ""
    requires !KeyDownAt(s, mags) && !s.keyOn
    ensures var r := Next(s, mags, farnsworth, now);
            var silence := now - s.lastTransition;
            var check := s.symbol != "" && now - s.lastCharTime > CharThreshold(s.history);
            var space := silence > WordGap && silence > MeanWordSpacing(s.history, farnsworth);
            !r.keyOn && r.history == s.history && r.lastTransition == s.lastTransition && r.pending == ""
            && r.symbol == s.symbol
            && r.lastCharTime == (if check then now else s.lastCharTime)
            && r.text == s.text + (if space then "  " else "")
  {
    var heard := s.(noise := PushBounded(s.noise, NoiseMagnitude(mags), NoiseWindow));
    assert Edge(heard, false, now) == heard;
    var g := CharGap(heard, false, now);
    assert g == heard || g == heard.(lastCharTime := now);
    assert Next(s, mags, farnsworth, now) == WordCheck(g, false, farnsworth, now);
  }

  /** One chunk: the symbol keeps its marks and gains at most one, and the text gains at most two spaces. */
  lemma ChunkWritesOnlySpaces(s: State, mags: seq<real>, farnsworth: bool, now: real)
    requires Bounded(s) && |mags| == TestFrequencyCount && s.pending == ""
    ensures var r := Next(s, mags, farnsworth, now);
            r.pending == "" && s.symbol <= r.symbol && |r.symbol| <= |s.symbol| + 1
            && (r.text == s.text || r.text == s.text + "  ")
  {
    var keyDown := KeyDownAt(s, mags);
    if keyDown != s.keyOn {
      EdgeChunk(s, mags, farnsworth, now);
    } else if !keyDown {
      SilentChunk(s, mags, farnsworth, now);
    } else {
      KeyHeldChunk(s, mags, farnsworth, now);
    }
  }

  /**
   * Over any run of chunks no character is ever decoded: the text only gains
   * spaces, and the symbol only ever gains marks.
   */
  lemma {:induction false} NothingDecoded(s: State, cs: seq<Chunk>, farnsworth: bool)
    requires Bounded(s) && WellFormed(cs) && s.pending == ""
    ensures var r := Replay(s, cs, farnsworth);
            r.pending == "" && s.symbol <= r.symbol
            && s.text <= r.text && Blank(r.text[|s.text|..])
    decreases |cs|
  {
    if cs != [] {
      var r1 := Next(s, cs[0].mags, farnsworth, cs[0].now);
      ChunkWritesOnlySpaces(s, cs[0].mags, farnsworth, cs[0].now);
      WellFormedTail(cs);
      NothingDecoded(r1, cs[1..], farnsworth);
      var r := Replay(r1, cs[1..], farnsworth);
      assert Replay(s, cs, farnsworth) == r;
      BlankAfter(s.text, r1.text, r.text);
    }
  }

  lemma WellFormedTail(cs: seq<Chunk>)
    requires cs != [] && WellFormed(cs)
    ensures WellFormed(cs[1..])
  {
    forall i | 0 <= i < |cs[1..]| ensures |cs[1..][i].mags| == TestFrequencyCount {
      assert cs[1..][i] == cs[i + 1];
    }
  }

  /** Two stretches of blanks make one: text that only gained spaces twice only gained spaces. */
  lemma BlankAfter(a: string, b: string, c: string)
    requires b == a || b == a + "  "
    requires b <= c && Blank(c[|b|..])
    ensures a <= c && Blank(c[|a|..])
  {
    forall i | |a| <= i < |c| ensures c[i] == ' ' {
      if i >= |b| {
        assert c[|b|..][i - |b|] == c[i];
      } else {
        assert c[i] == b[i];
      }
    }
  }

  /**
   * Once the silence exceeds the word spacing, every further silent chunk
   * writes two more spaces: nothing restarts the word clock.
   */
  lemma WordSpacesRepeat(s: State, m1: seq<real>, m2: seq<real>, farnsworth: bool, t1: real, t2: real)
    requires Bounded(s) && |m1| == TestFrequencyCount && |m2| == TestFrequencyCount && s.pending == ""
    requires !s.keyOn && !KeyDownAt(s, m1)
    requires t1 - s.lastTransition > WordGap && t1 - s.lastTransition > MeanWordSpacing(s.history, farnsworth)
    requires t2 >= t1
    ensures var r1 := Next(s, m1, farnsworth, t1);
            !KeyDownAt(r1, m2) ==> Next(r1, m2, farnsworth, t2).text == r1.text + "  "
  {
    var r1 := Next(s, m1, farnsworth, t1);
    SilentChunk(s, m1, farnsworth, t1);
    if !KeyDownAt(r1, m2) {
      SilentChunk(r1, m2, farnsworth, t2);
    }
  }

  // ------------------------------------------------------------ the shadowed symbol

  /** The loop's symbol handed to `decode_char`, as if both named one variable. */
  function Decoded(s: State): (r: State)
    requires Bounded(s)
    ensures Bounded(r) && r.symbol == "" && r.pending == ""
    ensures s.pending == "" && s.symbol != "" ==> r.text == s.text + Lookup(ProsignTable(), s.symbol)
  {
    FlushPending(s.(pending := s.symbol, symbol := ""))
  }

  /** The inter-character check with `decode_char` acting on the loop's symbol. */
  function FixedCharGap(s: State, keyDown: bool, now: real): (r: State)
    requires Bounded(s)
    ensures Bounded(r)
  {
    if !keyDown && s.symbol != "" && now - s.lastCharTime > CharThreshold(s.history) then
      Decoded(s).(lastCharTime := now)
    else s
  }

  /** The word check with `decode_char` acting on the loop's symbol. */
  function FixedWordCheck(s: State, keyDown: bool, farnsworth: bool, now: real): (r: State)
    requires Bounded(s)
    ensures Bounded(r)
  {
    if !keyDown && now - s.lastTransition > WordGap then
      var flushed := if s.symbol != "" then Decoded(s) else s;
      if now - s.lastTransition > MeanWordSpacing(s.history, farnsworth) then flushed.(text := flushed.text + "  ")
      else flushed
    else s
  }

  /** One pass of the loop with the symbol shared between the loop and `decode_char`. */
  function FixedNext(s: State, mags: seq<real>, farnsworth: bool, now: real): (r: State)
    requires Bounded(s) && |mags| == TestFrequencyCount
    ensures Bounded(r)
  {
    var keyDown := KeyDownAt(s, mags);
    var heard := s.(noise := PushBounded(s.noise, NoiseMagnitude(mags), NoiseWindow));
    FixedWordCheck(FixedCharGap(Edge(heard, keyDown, now), keyDown, now), keyDown, farnsworth, now)
  }

  /**
   * A symbol reading K, as written: the silent chunk past the
   * inter-character threshold keeps it and writes no character.
   */
  lemma LetterKLost(s: State, mags: seq<real>, farnsworth: bool, now: real)
    requires Bounded(s) && |mags| == TestFrequencyCount && s.pending == ""
    requires !KeyDownAt(s, mags) && !s.keyOn
    requires s.symbol == "-.-" && now - s.lastCharTime > CharThreshold(s.history)
    ensures var r := Next(s, mags, farnsworth, now);
            r.symbol == "-.-" && r.lastCharTime == now && (r.text == s.text || r.text == s.text + "  ")
  {
    SilentChunk(s, mags, farnsworth, now);
  }

  /**
   * With the symbol shared, the same chunk writes the prosign table's
   * reading of K, "<K>" (followed by the word spaces when the silence is long
   * enough), and clears the symbol.
   */
  lemma FixedLetterK(s: State, mags: seq<real>, farnsworth: bool, now: real)
    requires Bounded(s) && |mags| == TestFrequencyCount && s.pending == ""
    requires !KeyDownAt(s, mags) && !s.keyOn
    requires s.symbol == "-.-" && now - s.lastCharTime > CharThreshold(s.history)
    ensures var r := FixedNext(s, mags, farnsworth, now);
            r.symbol == "" && (r.text == s.text + "<K>" || r.text == s.text + "<K>  ")
  {
    ProsignTableOverrides();
    var heard := s.(noise := PushBounded(s.noise, NoiseMagnitude(mags), NoiseWindow));
    assert Edge(heard, false, now) == heard;
    var g := FixedCharGap(heard, false, now);
    assert g == Decoded(heard).(lastCharTime := now);
    assert g.text == s.text + "<K>" && g.symbol == "";
    assert FixedNext(s, mags, farnsworth, now) == FixedWordCheck(g, false, farnsworth, now);
  }

  // ------------------------------------------------------------ the session

  /** The decoder's variables, the enclosing ones and `audio_decoder`'s local symbol. */
  class Session {
    var noise: seq<real>
    var history: seq<real>
    var keyOn: bool
    var lastTransition: real
    var symbol: string
    var lastCharTime: real
    var pending: string
    var text: string

    function Snapshot(): State
      reads this
    {
      State(noise, history, keyOn, lastTransition, symbol, lastCharTime, pending, text)
    }

    /** The bounds, and nothing pending for `decode_char`: no statement of the loop writes it. */
    predicate Valid()
      reads this
    {
      Bounded(Snapshot()) && pending == ""
    }

    /** The state set up when the window opens at time `start`. */
    constructor(start: real)
      ensures Snapshot() == Init(start) && Valid()
    {
      noise := [];
      history := [];
      keyOn := false;
      lastTransition := start;
      symbol := "";
      lastCharTime := start;
      pending := "";
      text := "";
    }

    /** `decode_char`, on the enclosing symbol. */
    method DecodeChar()
      modifies this
      ensures Snapshot() == FlushPending(old(Snapshot()))
    {
      if pending != "" {
        var c := Lookup(ProsignTable(), pending);
        text := text + c;
        pending := "";
      }
    }

    /** One pass of the `audio_decoder` loop on a chunk read at time `now`. */
    method Step(mags: seq<real>, farnsworth: bool, now: real)
      requires Valid() && |mags| == TestFrequencyCount
      modifies this
      ensures Snapshot() == Next(old(Snapshot()), mags, farnsworth, now)
      ensures Valid()
    {
      ghost var before := Snapshot();
      var toneMag := ToneMagnitude(mags);
      noise := PushBounded(noise, NoiseMagnitude(mags), NoiseWindow);
      var avgNoise := Mean(noise);
      var dynamicThresh := avgNoise * KeyFactor;
      var keyDown := toneMag > dynamicThresh;
      assert keyDown == KeyDownAt(before, mags);
      HandleTransition(keyDown, now);
      CheckCharacterSpace(keyDown, now);
      CheckWordSpace(keyDown, farnsworth, now);
    }

    /** The key-transition block of the loop body. */
    method HandleTransition(keyDown: bool, now: real)
      requires Valid()
      modifies this
      ensures Snapshot() == Edge(old(Snapshot()), keyDown, now)
    {
      if keyDown != keyOn {
        var duration := now - lastTransition;
        if duration > MinDuration {
          PushKeepsAbove(history, duration, HistoryWindow, MinDuration);
          history := PushBounded(history, duration, HistoryWindow);
        }
        if !keyDown && history != [] {
          var avgDot := Mean(history);
          if duration < avgDot * MarkRatio {
            symbol := symbol + ".";
          } else {
            symbol := symbol + "-";
          }
        }
        keyOn := keyDown;
        lastTransition := now;
        lastCharTime := now;
      }
    }

    /** The inter-character block of the loop body. */
    method CheckCharacterSpace(keyDown: bool, now: real)
      requires Valid()
      modifies this
      ensures Snapshot() == CharGap(old(Snapshot()), keyDown, now)
    {
      if !keyDown && symbol != "" {
        var charSpaceThreshold := if history != [] then Max(MinCharGap, Mean(history) * CharRatio) else MinCharGap;
        var silenceTime := now - lastCharTime;
        if silenceTime > charSpaceThreshold {
          DecodeChar();
          lastCharTime := now;
        }
      }
    }

    /** The word-space block of the loop body. */
    method CheckWordSpace(keyDown: bool, farnsworth: bool, now: real)
      requires Valid()
      modifies this
      ensures Snapshot() == WordCheck(old(Snapshot()), keyDown, farnsworth, now)
    {
      if !keyDown && now - lastTransition > WordGap {
        if symbol != "" {
          DecodeChar();
        }
        var spacing := MeanSpacing(history, farnsworth);
        if now - lastTransition > spacing {
          text := text + "  ";
        }
      }
    }
  }
}
