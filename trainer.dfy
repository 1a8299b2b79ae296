/**
 * The CW trainer (`cw_trainer`): it sends a text in Morse, character by
 * character. A character is upper-cased and encoded by the first code of the
 * dict whose value is that character; each mark is a tone of 0.05 (dot) or
 * 0.15 (dash) times 20/wpm, the same silence again and an inter-element gap
 * of 0.05 times 20/wpm; each character ends with 0.15 times 20/wpm of silence
 * and a space is 0.7 / (wpm / 20) of silence. The character is then echoed
 * to the text area, followed by a fixed 0.05 s pause.
 *
 * Sleeping and playing become a list of events: a tone or a pause of a given
 * length, or a character written to the text area.
 */
module Trainer {
  import opened Wrappers
  import opened MorseTable
  import opened Tables

  const DotLength: real := 0.05
  const DashLength: real := 0.15
  const ElementGap: real := 0.05
  const CharacterGap: real := 0.15
  const WordGap: real := 0.7
  const EchoPause: real := 0.05

  /** What the trainer does, in order. */
  datatype Event = Tone(seconds: real) | Pause(seconds: real) | Insert(c: char)

  /** `str.upper` on one character, for the ASCII letters. */
  function Upper(c: char): char
  {
    if 'a' <= c <= 'z' then (c as int - 32) as char else c
  }

  /** `text.upper()`: every character upper-cased, nothing else changed. */
  function UpperText(t: string): (u: string)
    ensures |u| == |t|
    ensures forall i :: 0 <= i < |t| ==> u[i] == Upper(t[i])
  {
    seq(|t|, i requires 0 <= i < |t| => Upper(t[i]))
  }

  /** The unscaled length of a mark: a dot is 0.05, anything else 0.15. */
  function MarkLength(m: char): real
  {
    if m == '.' then DotLength else DashLength
  }

  /** The events of one mark, each length multiplied by `scale`. */
  function Mark(m: char, scale: real, play: bool): seq<Event>
  {
    (if play then [Tone(MarkLength(m) * scale)] else []) + [Pause(MarkLength(m) * scale), Pause(ElementGap * scale)]
  }

  /** The events of the marks of `code`, in order. */
  function Marks(code: string, scale: real, play: bool): seq<Event>
  {
    if code == [] then [] else Marks(code[..|code| - 1], scale, play) + Mark(code[|code| - 1], scale, play)
  }

  /** The multiplier `20 / wpm` applied to every mark and gap. */
  function Scale(wpm: int): real
    requires wpm > 0
  {
    20.0 / wpm as real
  }

  /** The keyed part of one character: a word gap for a space, else its marks (if it has a code) and the character gap. */
  function Keyed(items: seq<Entry>, c: char, wpm: int, play: bool): seq<Event>
    requires wpm > 0
  {
    if c == ' ' then [Pause(WordGap / (wpm as real / 20.0))]
    else CodeEvents(KeyFor(items, [c]), Scale(wpm), play)
  }

  /** The keyed part of a character other than a space whose code lookup gave `code`: its marks, if any, then the character gap. */
  function CodeEvents(code: Option<string>, scale: real, play: bool): seq<Event>
  {
    (if code.Some? && code.value != "" then Marks(code.value, scale, play) else []) + [Pause(CharacterGap * scale)]
  }

  /** Everything done for one character: its keyed part, then the echo and its pause. */
  function Character(items: seq<Entry>, c: char, wpm: int, play: bool): seq<Event>
    requires wpm > 0
  {
    Keyed(items, c, wpm, play) + [Insert(c), Pause(EchoPause)]
  }

  /** The events for the already upper-cased text `u`. */
  function Events(items: seq<Entry>, u: string, wpm: int, play: bool): seq<Event>
    requires wpm > 0
  {
    if u == [] then [] else Events(items, u[..|u| - 1], wpm, play) + Character(items, u[|u| - 1], wpm, play)
  }

  /**
   * The trainer's whole output for `text` at `wpm` words per minute. A wpm of
   * zero or less makes the first character's first length raise (a division
   * by zero or a negative sleep), before any event: `None`.
   */
  function Schedule(items: seq<Entry>, text: string, wpm: int, play: bool): Option<seq<Event>>
  {
    if text == [] then Some([])
    else if wpm <= 0 then None
    else Some(Events(items, UpperText(text), wpm, play))
  }

  // ------------------------------------------------------------ the loop

  /** The `else` branch of the loop body for a character other than a space: its marks, then the character gap. */
  method SendCode(items: seq<Entry>, c: char, wpm: int, play: bool) returns (events: seq<Event>)
    requires wpm > 0 && c != ' '
    ensures events == Keyed(items, c, wpm, play)
  {
    var scale := 20.0 / wpm as real;
    events := [];
    var code := KeyFor(items, [c]);
    if code.Some? && code.value != "" {
      var symbol := code.value;
      var j := 0;
      while j < |symbol|
        invariant 0 <= j <= |symbol|
        invariant events == Marks(symbol[..j], scale, play)
      {
        var mark := SendMark(symbol[j], scale, play);
        MarksStep(symbol, j, scale, play);
        events := events + mark;
        j := j + 1;
      }
      assert symbol[..j] == symbol;
    }
    events := events + [Pause(CharacterGap * scale)];
  }

  /** One pass of the inner `for symbol in code` loop: the tone (when playing), its silence, and the element gap. */
  method SendMark(m: char, scale: real, play: bool) returns (events: seq<Event>)
    ensures events == Mark(m, scale, play)
  {
    var length := MarkLength(m) * scale;
    events := [];
    if play {
      events := [Tone(length)];
    }
    events := events + [Pause(length), Pause(ElementGap * scale)];
  }

  /** One more mark: the marks of the first `j + 1` characters of `code` are those of the first `j`, then mark `j`. */
  lemma MarksStep(code: string, j: nat, scale: real, play: bool)
    requires j < |code|
    ensures Marks(code[..j + 1], scale, play) == Marks(code[..j], scale, play) + Mark(code[j], scale, play)
  {
    assert code[..j + 1][..j] == code[..j];
  }

  /** The `for char in text.upper()` loop of `cw_trainer`, for a positive wpm. */
  method SendText(items: seq<Entry>, upper: string, wpm: int, play: bool) returns (events: seq<Event>)
    requires wpm > 0
    ensures events == Events(items, upper, wpm, play)
  {
    events := [];
    var i := 0;
    while i < |upper|
      invariant 0 <= i <= |upper|
      invariant events == Events(items, upper[..i], wpm, play)
    {
      var c := upper[i];
      var keyed;
      if c == ' ' {
        keyed := [Pause(WordGap / (wpm as real / 20.0))];
      } else {
        keyed := SendCode(items, c, wpm, play);
      }
      events := events + (keyed + [Insert(c), Pause(EchoPause)]);
      assert upper[..i + 1][..i] == upper[..i] && upper[..i + 1][i] == c;
      i := i + 1;
    }
    assert upper[..i] == upper;
  }

  /**
   * `cw_trainer` from the upper-casing of the text to the end of its loop.
   * With a wpm of zero or less the first character's first length raises.
   */
  method Train(items: seq<Entry>, text: string, wpm: int, play: bool) returns (r: Option<seq<Event>>)
    ensures r == Schedule(items, text, wpm, play)
  {
    var upper := UpperText(text);
    if upper == [] {
      return Some([]);
    }
    if wpm <= 0 {
      return None;
    }
    var events := SendText(items, upper, wpm, play);
    r := Some(events);
  }

  // ------------------------------------------------------------ properties

  /** The characters written to the text area, in order. */
  function Echoed(ev: seq<Event>): string
  {
    if ev == [] then [] else (if ev[0].Insert? then [ev[0].c] else []) + Echoed(ev[1..])
  }

  /** The tone lengths, in order. */
  function Tones(ev: seq<Event>): seq<real>
  {
    if ev == [] then [] else (if ev[0].Tone? then [ev[0].seconds] else []) + Tones(ev[1..])
  }

  lemma {:induction false} EchoedAppend(a: seq<Event>, b: seq<Event>)
    ensures Echoed(a + b) == Echoed(a) + Echoed(b)
    decreases |a|
  {
    if a == [] {
      assert a + b == b;
    } else {
      assert (a + b)[0] == a[0] && (a + b)[1..] == a[1..] + b;
      EchoedAppend(a[1..], b);
    }
  }

  lemma {:induction false} TonesAppend(a: seq<Event>, b: seq<Event>)
    ensures Tones(a + b) == Tones(a) + Tones(b)
    decreases |a|
  {
    if a == [] {
      assert a + b == b;
    } else {
      assert (a + b)[0] == a[0] && (a + b)[1..] == a[1..] + b;
      TonesAppend(a[1..], b);
    }
  }

  /** A mark writes nothing to the text area, and plays one tone of its own length when playing. */
  lemma MarkFacts(m: char, scale: real, play: bool)
    ensures Echoed(Mark(m, scale, play)) == ""
    ensures Tones(Mark(m, scale, play)) == (if play then [MarkLength(m) * scale] else [])
  {
    var tail := [Pause(MarkLength(m) * scale), Pause(ElementGap * scale)];
    assert tail[1..][1..] == [];
    assert Echoed(tail[1..][1..]) == "" && Tones(tail[1..][1..]) == [];
    assert Echoed(tail[1..]) == "" && Tones(tail[1..]) == [];
    assert Echoed(tail) == "" && Tones(tail) == [];
    if play {
      var ev := [Tone(MarkLength(m) * scale)] + tail;
      assert ev[1..] == tail;
    } else {
      assert Mark(m, scale, play) == tail;
    }
  }

  lemma {:induction false} MarksEchoNothing(code: string, scale: real, play: bool)
    ensures Echoed(Marks(code, scale, play)) == ""
    decreases |code|
  {
    if code != [] {
      var m := code[|code| - 1];
      MarksEchoNothing(code[..|code| - 1], scale, play);
      EchoedAppend(Marks(code[..|code| - 1], scale, play), Mark(m, scale, play));
      MarkFacts(m, scale, play);
    }
  }

  /** A character writes exactly itself to the text area. */
  lemma CharacterEchoesItself(items: seq<Entry>, c: char, wpm: int, play: bool)
    requires wpm > 0
    ensures Echoed(Character(items, c, wpm, play)) == [c]
  {
    var echo := [Insert(c), Pause(EchoPause)];
    assert echo[1..][1..] == [];
    EchoedAppend(Keyed(items, c, wpm, play), echo);
    var gap := [Pause(CharacterGap * Scale(wpm))];
    if c == ' ' {
      assert Echoed(Keyed(items, c, wpm, play)) == "";
    } else {
      var code := KeyFor(items, [c]);
      var marks := if code.Some? && code.value != "" then Marks(code.value, Scale(wpm), play) else [];
      if code.Some? && code.value != "" {
        MarksEchoNothing(code.value, Scale(wpm), play);
      }
      EchoedAppend(marks, gap);
    }
  }

  /**
   * The text area receives exactly the upper-cased text, one character per
   * character of the input and in order; tones and pauses write nothing.
   */
  lemma {:induction false} EchoesUpperText(items: seq<Entry>, u: string, wpm: int, play: bool)
    requires wpm > 0
    ensures Echoed(Events(items, u, wpm, play)) == u
    decreases |u|
  {
    if u != [] {
      var front, c := u[..|u| - 1], u[|u| - 1];
      var ev, ch := Events(items, front, wpm, play), Character(items, c, wpm, play);
      assert Echoed(ev + ch) == front + [c] by {
        EchoesUpperText(items, front, wpm, play);
        EchoedAppend(ev, ch);
        CharacterEchoesItself(items, c, wpm, play);
      }
      assert Events(items, u, wpm, play) == ev + ch;
      assert front + [c] == u;
    }
  }

  /** The echoed text of a whole schedule is `text.upper()`. */
  lemma ScheduleEchoesText(items: seq<Entry>, text: string, wpm: int, play: bool)
    requires wpm > 0
    ensures Schedule(items, text, wpm, play).Some?
    ensures Echoed(Schedule(items, text, wpm, play).value) == UpperText(text)
  {
    EchoesUpperText(items, UpperText(text), wpm, play);
  }

  /** A receiver's reading of tone lengths at `scale`: a dot is 0.05 times the scale, anything else a dash. */
  function Heard(tones: seq<real>, scale: real): (code: string)
    ensures |code| == |tones|
  {
    seq(|tones|, i requires 0 <= i < |tones| => if tones[i] == DotLength * scale then '.' else '-')
  }

  lemma HeardAppend(a: seq<real>, b: seq<real>, scale: real)
    ensures Heard(a + b, scale) == Heard(a, scale) + Heard(b, scale)
  {
    var h := Heard(a + b, scale);
    forall i | 0 <= i < |a + b| ensures h[i] == (Heard(a, scale) + Heard(b, scale))[i] {
      if i < |a| {
        assert (a + b)[i] == a[i];
      } else {
        assert (a + b)[i] == b[i - |a|];
      }
    }
  }

  /** At a positive scale a dash is three times a dot, so only a dot's tone reads back as a dot. */
  lemma HeardMark(m: char, scale: real)
    requires scale > 0.0 && (m == '.' || m == '-')
    ensures Heard([MarkLength(m) * scale], scale) == [m]
  {
    assert DashLength * scale != DotLength * scale;
  }

  lemma LastSplit(code: string)
    requires code != []
    ensures code[..|code| - 1] + [code[|code| - 1]] == code
  {
  }

  /** With the tones played, the tones of a code's marks read back as that code. */
  lemma {:induction false} MarksReadBack(code: string, scale: real)
    requires MorseSymbol(code) && scale > 0.0
    ensures Heard(Tones(Marks(code, scale, true)), scale) == code
    decreases |code|
  {
    if code != [] {
      var m := code[|code| - 1];
      var prefix := code[..|code| - 1];
      assert MorseSymbol(prefix) by {
        forall i | 0 <= i < |prefix| ensures prefix[i] == '.' || prefix[i] == '-' {
          assert prefix[i] == code[i];
        }
      }
      MarksReadBack(prefix, scale);
      var front := Tones(Marks(prefix, scale, true));
      TonesAppend(Marks(prefix, scale, true), Mark(m, scale, true));
      MarkFacts(m, scale, true);
      assert Tones(Marks(code, scale, true)) == front + [MarkLength(m) * scale];
      HeardAppend(front, [MarkLength(m) * scale], scale);
      HeardMark(m, scale);
      LastSplit(code);
    }
  }

  /** The code of every entry is a string of dots and dashes. */
  predicate CodesOnly(e: seq<Entry>)
  {
    forall i :: 0 <= i < |e| ==> MorseSymbol(e[i].0)
  }

  /** The code found for a text is one of the dict's codes, so a string of dots and dashes. */
  lemma FoundCodeIsMorse(e: seq<Entry>, text: string)
    requires CodesOnly(e)
    ensures KeyFor(Items(e), text).Some? ==> MorseSymbol(KeyFor(Items(e), text).value)
  {
    if KeyFor(Items(e), text).Some? {
      var k := KeyFor(Items(e), text).value;
      ItemsMatchBuild(e);
      assert k in Build(e);
      BuildSource(e, k);
    }
  }

  /**
   * The round trip with the decoders' table: for a character with a code, the
   * tones the trainer plays read back as a code that the same dict decodes
   * to that very character; a character with no code plays no tone at all.
   */
  lemma SentCharacterDecodes(e: seq<Entry>, c: char, wpm: int)
    requires wpm > 0 && c != ' ' && CodesOnly(e)
    ensures var code := KeyFor(Items(e), [c]);
            code.Some? ==> Lookup(Build(e), Heard(Tones(Keyed(Items(e), c, wpm, true)), Scale(wpm))) == [c]
    ensures KeyFor(Items(e), [c]).None? ==> Tones(Keyed(Items(e), c, wpm, true)) == []
  {
    var code := KeyFor(Items(e), [c]);
    var tones := Tones(Keyed(Items(e), c, wpm, true));
    assert tones == if code.Some? && code.value != "" then Tones(Marks(code.value, Scale(wpm), true)) else [] by {
      KeyedTones(Items(e), c, wpm);
    }
    if code.Some? {
      assert Lookup(Build(e), code.value) == [c] by {
        KeyForRoundTrip(e, [c]);
      }
      if code.value != "" {
        assert Heard(tones, Scale(wpm)) == code.value by {
          FoundCodeIsMorse(e, [c]);
          MarksReadBack(code.value, Scale(wpm));
        }
      }
    }
  }

  /** The tones of a keyed character other than a space: those of its code's marks, or none. */
  lemma KeyedTones(items: seq<Entry>, c: char, wpm: int)
    requires wpm > 0 && c != ' '
    ensures var code := KeyFor(items, [c]);
            Tones(Keyed(items, c, wpm, true)) ==
              if code.Some? && code.value != "" then Tones(Marks(code.value, Scale(wpm), true)) else []
  {
    var code := KeyFor(items, [c]);
    var gap := [Pause(CharacterGap * Scale(wpm))];
    assert Tones(gap) == [];
    if code.Some? && code.value != "" {
      var marks := Marks(code.value, Scale(wpm), true);
      assert Keyed(items, c, wpm, true) == marks + gap;
      TonesAppend(marks, gap);
    } else {
      assert Keyed(items, c, wpm, true) == gap;
    }
  }

  /** Scales a tone or a pause by `f`; an echo is unchanged. */
  function StretchEvent(ev: Event, f: real): Event
  {
    match ev
    case Tone(d) => Tone(d * f)
    case Pause(d) => Pause(d * f)
    case Insert(c) => Insert(c)
  }

  /** Scales every tone and pause length by `f`. */
  function Stretched(ev: seq<Event>, f: real): (r: seq<Event>)
    ensures |r| == |ev|
  {
    seq(|ev|, i requires 0 <= i < |ev| => StretchEvent(ev[i], f))
  }

  lemma StretchedAppend(a: seq<Event>, b: seq<Event>, f: real)
    ensures Stretched(a + b, f) == Stretched(a, f) + Stretched(b, f)
  {
    forall i | 0 <= i < |a + b| ensures Stretched(a + b, f)[i] == (Stretched(a, f) + Stretched(b, f))[i] {
      if i < |a| {
        assert (a + b)[i] == a[i];
      } else {
        assert (a + b)[i] == b[i - |a|];
      }
    }
  }

  lemma MarkStretch(m: char, f: real, play: bool)
    ensures Stretched(Mark(m, 1.0, play), f) == Mark(m, f, play)
  {
    var b := Mark(m, 1.0, play);
    var r := Stretched(b, f);
    if play {
      assert b == [Tone(MarkLength(m) * 1.0), Pause(MarkLength(m) * 1.0), Pause(ElementGap * 1.0)];
      assert r[0] == Tone(MarkLength(m) * f) && r[1] == Pause(MarkLength(m) * f) && r[2] == Pause(ElementGap * f);
    } else {
      assert b == [Pause(MarkLength(m) * 1.0), Pause(ElementGap * 1.0)];
      assert r[0] == Pause(MarkLength(m) * f) && r[1] == Pause(ElementGap * f);
    }
  }

  lemma {:induction false} MarksStretch(code: string, f: real, play: bool)
    ensures Marks(code, f, play) == Stretched(Marks(code, 1.0, play), f)
    decreases |code|
  {
    if code != [] {
      var m := code[|code| - 1];
      MarksStretch(code[..|code| - 1], f, play);
      var a := Marks(code[..|code| - 1], 1.0, play);
      var b := Mark(m, 1.0, play);
      StretchedAppend(a, b, f);
      MarkStretch(m, f, play);
    }
  }

  /**
   * Every keyed length scales by 20/wpm: a character's tones and gaps at
   * `wpm` are those at 20 wpm stretched by 20/wpm (the echo pause is fixed).
   */
  lemma KeyedScales(items: seq<Entry>, c: char, wpm: int, play: bool)
    requires wpm > 0
    ensures Keyed(items, c, wpm, play) == Stretched(Keyed(items, c, 20, play), Scale(wpm))
  {
    if c == ' ' {
      WordGapScales(wpm);
    } else {
      assert Scale(20) == 1.0;
      CodeEventsScale(KeyFor(items, [c]), Scale(wpm), play);
    }
  }

  lemma CodeEventsScale(code: Option<string>, f: real, play: bool)
    ensures CodeEvents(code, f, play) == Stretched(CodeEvents(code, 1.0, play), f)
  {
    var gap := [Pause(CharacterGap * 1.0)];
    var marks := if code.Some? && code.value != "" then Marks(code.value, 1.0, play) else [];
    StretchedAppend(marks, gap, f);
    if code.Some? && code.value != "" {
      MarksStretch(code.value, f, play);
    }
  }

  /** The word gap `WORD_GAP / (wpm / 20)` is the 20 wpm word gap stretched by 20/wpm. */
  lemma WordGapScales(wpm: int)
    requires wpm > 0
    ensures [Pause(WordGap / (wpm as real / 20.0))] == Stretched([Pause(WordGap / (20 as real / 20.0))], Scale(wpm))
  {
    var f := Scale(wpm);
    assert WordGap / (wpm as real / 20.0) == WordGap / (20 as real / 20.0) * f by {
      assert wpm as real / 20.0 * f == 1.0;
    }
  }

  // ------------------------------------------------------------ the trainers' dicts

  lemma CodesOnlyAppend(a: seq<Entry>, b: seq<Entry>)
    requires CodesOnly(a) && CodesOnly(b)
    ensures CodesOnly(a + b)
  {
    forall i | 0 <= i < |a + b| ensures MorseSymbol((a + b)[i].0) {
      if i >= |a| {
        assert (a + b)[i] == b[i - |a|];
      }
    }
  }

  /** Every code of the full dict and of the letters-figures-prosigns dict is made of dots and dashes. */
  lemma TrainerDictCodes()
    ensures CodesOnly(FullEntries()) && CodesOnly(ProsignEntries())
  {
    LetterFigureCodes();
    ProsignCodes();
    PunctuationCodes();
    CodesOnlyAppend(LetterFigureEntries(), ProsignRows());
    CodesOnlyAppend(LetterFigureEntries() + ProsignRows(), FullPunctuationEntries());
  }

  lemma LetterFigureCodes()
    ensures CodesOnly(LetterFigureEntries())
  {
    var r0 := [(".-", "A"), ("-...", "B"), ("-.-.", "C"), ("-..", "D"), (".", "E")];
    var r1 := [("..-.", "F"), ("--.", "G"), ("....", "H"), ("..", "I"), (".---", "J")];
    var r2 := [("-.-", "K"), (".-..", "L"), ("--", "M"), ("-.", "N"), ("---", "O")];
    var r3 := [(".--.", "P"), ("--.-", "Q"), (".-.", "R"), ("...", "S"), ("-", "T")];
    var r4 := [("..-", "U"), ("...-", "V"), (".--", "W"), ("-..-", "X"), ("-.--", "Y")];
    var r5 := [("--..", "Z"), (".----", "1"), ("..---", "2"), ("...--", "3"), ("....-", "4")];
    var r6 := [(".....", "5"), ("-....", "6"), ("--...", "7"), ("---..", "8"), ("----.", "9")];
    var r7 := [("-----", "0")];
    assert CodesOnly(r0) && CodesOnly(r1) && CodesOnly(r2) && CodesOnly(r3);
    assert CodesOnly(r4) && CodesOnly(r5) && CodesOnly(r6) && CodesOnly(r7);
    CodesOnlyAppend(r0, r1);
    CodesOnlyAppend(r0 + r1, r2);
    CodesOnlyAppend(r0 + r1 + r2, r3);
    CodesOnlyAppend(r0 + r1 + r2 + r3, r4);
    CodesOnlyAppend(r0 + r1 + r2 + r3 + r4, r5);
    CodesOnlyAppend(r0 + r1 + r2 + r3 + r4 + r5, r6);
    CodesOnlyAppend(r0 + r1 + r2 + r3 + r4 + r5 + r6, r7);
  }

  lemma ProsignCodes()
    ensures CodesOnly(ProsignRows())
  {
    var r0 := [(".-.-.", "<AR>"), ("...-.-", "<SK>"), ("-...-", "<BT>"), ("-...-.-", "BK")];
    var r1 := [("-.--.", "<KN>"), (".-...", "<AS>"), ("-.-...", "<CL>"), ("......", "<HH>")];
    var r2 := [("...---...", "<SOS>"), ("-.-", "<K>")];
    assert CodesOnly(r0) && CodesOnly(r1) && CodesOnly(r2);
    CodesOnlyAppend(r0, r1);
    CodesOnlyAppend(r0 + r1, r2);
  }

  lemma PunctuationCodes()
    ensures CodesOnly(FullPunctuationEntries())
  {
    var r0 := [(".----.", "."), ("--..--", ","), ("..--..", "?"), ("-..-.", "/"), ("---...", ":")];
    var r1 := [("-.-.-.", ";"), ("-.--.-", "("), ("-.--.-", ")"), (".-..-.", "\""), (".----.", "'")];
    var r2 := [("-...-", "="), (".-.-.-", "+"), ("..--.-", "@"), ("----..", "$")];
    assert CodesOnly(r0) && CodesOnly(r1) && CodesOnly(r2);
    CodesOnlyAppend(r0, r1);
    CodesOnlyAppend(r0 + r1, r2);
  }

  /**
   * The development trainer against its own decoder's dict: every character
   * it plays reads back, through the full table, as that character.
   */
  lemma FullTrainerRoundTrip(c: char, wpm: int)
    requires wpm > 0 && c != ' '
    ensures KeyFor(Items(FullEntries()), [c]).Some? ==>
              Lookup(FullTable(), Heard(Tones(Keyed(Items(FullEntries()), c, wpm, true)), Scale(wpm))) == [c]
  {
    TrainerDictCodes();
    SentCharacterDecodes(FullEntries(), c, wpm);
  }

  /** The same round trip for the trainers built on the letters-figures-prosigns dict. */
  lemma ProsignTrainerRoundTrip(c: char, wpm: int)
    requires wpm > 0 && c != ' '
    ensures KeyFor(Items(ProsignEntries()), [c]).Some? ==>
              Lookup(ProsignTable(), Heard(Tones(Keyed(Items(ProsignEntries()), c, wpm, true)), Scale(wpm))) == [c]
  {
    TrainerDictCodes();
    SentCharacterDecodes(ProsignEntries(), c, wpm);
  }

  /**
   * The development trainer uses the full table, where K has no code of its
   * own (the `'-.-'` pair is overwritten by "<K>"): a K in the text is echoed
   * but never played.
   */
  lemma FullTrainerSkipsK(wpm: int)
    requires wpm > 0
    ensures Tones(Keyed(Items(FullEntries()), 'K', wpm, true)) == []
  {
    FullTableLostTexts();
    KeyForRoundTrip(FullEntries(), "K");
    assert Tones([Pause(CharacterGap * Scale(wpm))]) == [];
  }

  /** The same holds for the trainers built on the letters-figures-prosigns dict. */
  lemma ProsignTrainerSkipsK(wpm: int)
    requires wpm > 0
    ensures Tones(Keyed(Items(ProsignEntries()), 'K', wpm, true)) == []
  {
    ProsignTableLostTexts();
    KeyForRoundTrip(ProsignEntries(), "K");
    assert Tones([Pause(CharacterGap * Scale(wpm))]) == [];
  }
}
