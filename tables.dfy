/**
 * The three Morse dict displays of the source, row by row as written. The
 * first 46 pairs (letters, figures, prosigns) are common to all three; the
 * full table adds one list of punctuation, the latest-stable table another,
 * and the table of the remaining GUI variants stops after the prosigns.
 */
module Tables {
  import opened Wrappers
  import opened MorseTable

  /** Letters A-Z and figures 1-9, 0. */
  function LetterFigureEntries(): seq<Entry>
  {
    [(".-", "A"), ("-...", "B"), ("-.-.", "C"), ("-..", "D"), (".", "E")] +
    [("..-.", "F"), ("--.", "G"), ("....", "H"), ("..", "I"), (".---", "J")] +
    [("-.-", "K"), (".-..", "L"), ("--", "M"), ("-.", "N"), ("---", "O")] +
    [(".--.", "P"), ("--.-", "Q"), (".-.", "R"), ("...", "S"), ("-", "T")] +
    [("..-", "U"), ("...-", "V"), (".--", "W"), ("-..-", "X"), ("-.--", "Y")] +
    [("--..", "Z"), (".----", "1"), ("..---", "2"), ("...--", "3"), ("....-", "4")] +
    [(".....", "5"), ("-....", "6"), ("--...", "7"), ("---..", "8"), ("----.", "9")] +
    [("-----", "0")]
  }

  /** The prosigns; `-.-` appears here a second time, as <K>. */
  function ProsignRows(): seq<Entry>
  {
    [(".-.-.", "<AR>"), ("...-.-", "<SK>"), ("-...-", "<BT>"), ("-...-.-", "BK")] +
    [("-.--.", "<KN>"), (".-...", "<AS>"), ("-.-...", "<CL>"), ("......", "<HH>")] +
    [("...---...", "<SOS>"), ("-.-", "<K>")]
  }

  /** The punctuation of the full table. */
  function FullPunctuationEntries(): seq<Entry>
  {
    [(".----.", "."), ("--..--", ","), ("..--..", "?"), ("-..-.", "/"), ("---...", ":")] +
    [("-.-.-.", ";"), ("-.--.-", "("), ("-.--.-", ")"), (".-..-.", "\""), (".----.", "'")] +
    [("-...-", "="), (".-.-.-", "+"), ("..--.-", "@"), ("----..", "$")]
  }

  /** The punctuation of the latest-stable table, in its own order. */
  function StablePunctuationEntries(): seq<Entry>
  {
    [(".-.-.-", "."), (".-.-.", "+"), (".----.", "'"), ("--..--", ","), ("..--..", "?")] +
    [("-..-.", "/"), ("---...", ":"), ("-.-.-.", ";"), ("-.--.-", "("), ("-.--.-", ")")] +
    [(".-..-.", "\""), ("-...-", "="), ("..--.-", "@"), ("----..", "$")]
  }

  /** The display shared by the two MP3 decoders and the development GUI decoder. */
  function FullEntries(): seq<Entry>
  {
    LetterFigureEntries() + ProsignRows() + FullPunctuationEntries()
  }

  /** The display of the latest-stable GUI decoder. */
  function StableEntries(): seq<Entry>
  {
    LetterFigureEntries() + ProsignRows() + StablePunctuationEntries()
  }

  /** The display of the three remaining GUI variants: letters, figures and prosigns only. */
  function ProsignEntries(): seq<Entry>
  {
    LetterFigureEntries() + ProsignRows()
  }

  function FullTable(): map<string, string>
  {
    Build(FullEntries())
  }

  function StableTable(): map<string, string>
  {
    Build(StableEntries())
  }

  function ProsignTable(): map<string, string>
  {
    Build(ProsignEntries())
  }

  /** Case split on a position of a display of at most 60 pairs. */
  lemma Position(j: int)
    requires 0 <= j < 60
    ensures j == 0 || j == 1 || j == 2 || j == 3 || j == 4 || j == 5 || j == 6 || j == 7 || j == 8 || j == 9 || j == 10 || j == 11 || j == 12 || j == 13 || j == 14 || j == 15 || j == 16 || j == 17 || j == 18 || j == 19 || j == 20 || j == 21 || j == 22 || j == 23 || j == 24 || j == 25 || j == 26 || j == 27 || j == 28 || j == 29 || j == 30 || j == 31 || j == 32 || j == 33 || j == 34 || j == 35 || j == 36 || j == 37 || j == 38 || j == 39 || j == 40 || j == 41 || j == 42 || j == 43 || j == 44 || j == 45 || j == 46 || j == 47 || j == 48 || j == 49 || j == 50 || j == 51 || j == 52 || j == 53 || j == 54 || j == 55 || j == 56 || j == 57 || j == 58 || j == 59
  {
  }

  lemma FullTableOverridesPart0()
    ensures Lookup(FullTable(), "-.-") == "<K>"
  {
    var e := FullEntries();
    assert |e| == 60;
    assert e[45] == ("-.-", "<K>");
    forall j | 45 < j < 60
      ensures e[j].0 != "-.-"
    {
      Position(j);
    }
    BuildLast(e, 45);
  }

  lemma FullTableOverridesPart1()
    ensures Lookup(FullTable(), "-...-") == "="
  {
    var e := FullEntries();
    assert |e| == 60;
    assert e[56] == ("-...-", "=");
    forall j | 56 < j < 60
      ensures e[j].0 != "-...-"
    {
      Position(j);
    }
    BuildLast(e, 56);
  }

  lemma FullTableOverridesPart2()
    ensures Lookup(FullTable(), ".----.") == "'"
  {
    var e := FullEntries();
    assert |e| == 60;
    assert e[55] == (".----.", "'");
    forall j | 55 < j < 60
      ensures e[j].0 != ".----."
    {
      Position(j);
    }
    BuildLast(e, 55);
  }

  lemma FullTableOverridesPart3()
    ensures Lookup(FullTable(), "-.--.-") == ")"
  {
    var e := FullEntries();
    assert |e| == 60;
    assert e[53] == ("-.--.-", ")");
    forall j | 53 < j < 60
      ensures e[j].0 != "-.--.-"
    {
      Position(j);
    }
    BuildLast(e, 53);
  }

  lemma FullTableOverridesPart4()
    ensures Lookup(FullTable(), ".-.-.-") == "+"
  {
    var e := FullEntries();
    assert |e| == 60;
    assert e[57] == (".-.-.-", "+");
    forall j | 57 < j < 60
      ensures e[j].0 != ".-.-.-"
    {
      Position(j);
    }
    BuildLast(e, 57);
  }

  /** In the full table the later pairs win: `-.-` reads <K>, `-...-` reads =, `.----.` reads an apostrophe, `-.--.-` reads ) and `.-.-.-` reads +. */
  lemma FullTableOverrides()
    ensures Lookup(FullTable(), "-.-") == "<K>"
    ensures Lookup(FullTable(), "-...-") == "="
    ensures Lookup(FullTable(), ".----.") == "'"
    ensures Lookup(FullTable(), "-.--.-") == ")"
    ensures Lookup(FullTable(), ".-.-.-") == "+"
  {
    FullTableOverridesPart0();
    FullTableOverridesPart1();
    FullTableOverridesPart2();
    FullTableOverridesPart3();
    FullTableOverridesPart4();
  }

  lemma FullTableFallbackCodesPart0()
    ensures Lookup(FullTable(), ".") == "E"
  {
    var e := FullEntries();
    assert |e| == 60;
    assert e[4] == (".", "E");
    forall j | 4 < j < 60
      ensures e[j].0 != "."
    {
      Position(j);
    }
    BuildLast(e, 4);
  }

  lemma FullTableFallbackCodesPart1()
    ensures Lookup(FullTable(), "....") == "H"
  {
    var e := FullEntries();
    assert |e| == 60;
    assert e[7] == ("....", "H");
    forall j | 7 < j < 60
      ensures e[j].0 != "...."
    {
      Position(j);
    }
    BuildLast(e, 7);
  }

  lemma FullTableFallbackCodesPart2()
    ensures Lookup(FullTable(), ".....") == "5"
  {
    var e := FullEntries();
    assert |e| == 60;
    assert e[30] == (".....", "5");
    forall j | 30 < j < 60
      ensures e[j].0 != "....."
    {
      Position(j);
    }
    BuildLast(e, 30);
  }

  lemma FullTableFallbackCodesPart3()
    ensures Lookup(FullTable(), "-") == "T"
  {
    var e := FullEntries();
    assert |e| == 60;
    assert e[19] == ("-", "T");
    forall j | 19 < j < 60
      ensures e[j].0 != "-"
    {
      Position(j);
    }
    BuildLast(e, 19);
  }

  lemma FullTableFallbackCodesPart4()
    ensures Lookup(FullTable(), "---") == "O"
  {
    var e := FullEntries();
    assert |e| == 60;
    assert e[14] == ("---", "O");
    forall j | 14 < j < 60
      ensures e[j].0 != "---"
    {
      Position(j);
    }
    BuildLast(e, 14);
  }

  /** The codes the fallbacks stand in for are all in the full table: E, H, 5, T and O. */
  lemma FullTableFallbackCodes()
    ensures Lookup(FullTable(), ".") == "E"
    ensures Lookup(FullTable(), "....") == "H"
    ensures Lookup(FullTable(), ".....") == "5"
    ensures Lookup(FullTable(), "-") == "T"
    ensures Lookup(FullTable(), "---") == "O"
  {
    FullTableFallbackCodesPart0();
    FullTableFallbackCodesPart1();
    FullTableFallbackCodesPart2();
    FullTableFallbackCodesPart3();
    FullTableFallbackCodesPart4();
  }

  lemma FullTableLettersPart0()
    ensures Lookup(FullTable(), "..") == "I"
  {
    var e := FullEntries();
    assert |e| == 60;
    assert e[8] == ("..", "I");
    forall j | 8 < j < 60
      ensures e[j].0 != ".."
    {
      Position(j);
    }
    BuildLast(e, 8);
  }

  lemma FullTableLettersPart1()
    ensures Lookup(FullTable(), "...") == "S"
  {
    var e := FullEntries();
    assert |e| == 60;
    assert e[18] == ("...", "S");
    forall j | 18 < j < 60
      ensures e[j].0 != "..."
    {
      Position(j);
    }
    BuildLast(e, 18);
  }

  lemma FullTableLettersPart2()
    ensures Lookup(FullTable(), ".-") == "A"
  {
    var e := FullEntries();
    assert |e| == 60;
    assert e[0] == (".-", "A");
    forall j | 0 < j < 60
      ensures e[j].0 != ".-"
    {
      Position(j);
    }
    BuildLast(e, 0);
  }

  /** Plain letters of the full table: `..` reads I, `...` reads S and `.-` reads A. */
  lemma FullTableLetters()
    ensures Lookup(FullTable(), "..") == "I"
    ensures Lookup(FullTable(), "...") == "S"
    ensures Lookup(FullTable(), ".-") == "A"
  {
    FullTableLettersPart0();
    FullTableLettersPart1();
    FullTableLettersPart2();
  }

  lemma FullTableLostTextsPart0()
    ensures forall k :: k in Build(FullEntries()) ==> Build(FullEntries())[k] != "K"
  {
    var e := FullEntries();
    assert |e| == 60;
    assert e[10] == ("-.-", "K") && e[45].0 == "-.-";
    forall j | 0 <= j < 60 && e[j].1 == "K"
      ensures j == 10
    {
      Position(j);
    }
    ShadowedText(e, "K", 10, 45);
  }

  lemma FullTableLostTextsPart1()
    ensures forall k :: k in Build(FullEntries()) ==> Build(FullEntries())[k] != "<BT>"
  {
    var e := FullEntries();
    assert |e| == 60;
    assert e[38] == ("-...-", "<BT>") && e[56].0 == "-...-";
    forall j | 0 <= j < 60 && e[j].1 == "<BT>"
      ensures j == 38
    {
      Position(j);
    }
    ShadowedText(e, "<BT>", 38, 56);
  }

  lemma FullTableLostTextsPart2()
    ensures forall k :: k in Build(FullEntries()) ==> Build(FullEntries())[k] != "."
  {
    var e := FullEntries();
    assert |e| == 60;
    assert e[46] == (".----.", ".") && e[55].0 == ".----.";
    forall j | 0 <= j < 60 && e[j].1 == "."
      ensures j == 46
    {
      Position(j);
    }
    ShadowedText(e, ".", 46, 55);
  }

  lemma FullTableLostTextsPart3()
    ensures forall k :: k in Build(FullEntries()) ==> Build(FullEntries())[k] != "("
  {
    var e := FullEntries();
    assert |e| == 60;
    assert e[52] == ("-.--.-", "(") && e[53].0 == "-.--.-";
    forall j | 0 <= j < 60 && e[j].1 == "("
      ensures j == 52
    {
      Position(j);
    }
    ShadowedText(e, "(", 52, 53);
  }

  /** No code of the full display has more than nine marks, so a longer symbol is not in the full table. */
  lemma FullTableLongCodes(symbol: string)
    requires |symbol| > 9
    ensures symbol !in FullTable()
  {
    var e := FullEntries();
    assert |e| == 60;
    forall i | 0 <= i < |e|
      ensures e[i].0 != symbol
    {
      Position(i);
    }
    BuildAbsent(e, symbol);
  }

  /** No code of the full table reads K, <BT>, a full stop or an opening parenthesis: their pairs are overwritten later in the display. */
  lemma FullTableLostTexts()
    ensures forall k :: k in Build(FullEntries()) ==> Build(FullEntries())[k] != "K"
    ensures forall k :: k in Build(FullEntries()) ==> Build(FullEntries())[k] != "<BT>"
    ensures forall k :: k in Build(FullEntries()) ==> Build(FullEntries())[k] != "."
    ensures forall k :: k in Build(FullEntries()) ==> Build(FullEntries())[k] != "("
  {
    FullTableLostTextsPart0();
    FullTableLostTextsPart1();
    FullTableLostTextsPart2();
    FullTableLostTextsPart3();
  }

  lemma StableTableOverridesPart0()
    ensures Lookup(StableTable(), "-.-") == "<K>"
  {
    var e := StableEntries();
    assert |e| == 60;
    assert e[45] == ("-.-", "<K>");
    forall j | 45 < j < 60
      ensures e[j].0 != "-.-"
    {
      Position(j);
    }
    BuildLast(e, 45);
  }

  lemma StableTableOverridesPart1()
    ensures Lookup(StableTable(), ".-.-.") == "+"
  {
    var e := StableEntries();
    assert |e| == 60;
    assert e[47] == (".-.-.", "+");
    forall j | 47 < j < 60
      ensures e[j].0 != ".-.-."
    {
      Position(j);
    }
    BuildLast(e, 47);
  }

  lemma StableTableOverridesPart2()
    ensures Lookup(StableTable(), "-...-") == "="
  {
    var e := StableEntries();
    assert |e| == 60;
    assert e[57] == ("-...-", "=");
    forall j | 57 < j < 60
      ensures e[j].0 != "-...-"
    {
      Position(j);
    }
    BuildLast(e, 57);
  }

  lemma StableTableOverridesPart3()
    ensures Lookup(StableTable(), "-.--.-") == ")"
  {
    var e := StableEntries();
    assert |e| == 60;
    assert e[55] == ("-.--.-", ")");
    forall j | 55 < j < 60
      ensures e[j].0 != "-.--.-"
    {
      Position(j);
    }
    BuildLast(e, 55);
  }

  lemma StableTableOverridesPart4()
    ensures Lookup(StableTable(), ".-.-.-") == "."
  {
    var e := StableEntries();
    assert |e| == 60;
    assert e[46] == (".-.-.-", ".");
    forall j | 46 < j < 60
      ensures e[j].0 != ".-.-.-"
    {
      Position(j);
    }
    BuildLast(e, 46);
  }

  /** In the latest-stable table `-.-` reads <K>, `.-.-.` reads +, `-...-` reads =, `-.--.-` reads ) and `.-.-.-` reads a full stop. */
  lemma StableTableOverrides()
    ensures Lookup(StableTable(), "-.-") == "<K>"
    ensures Lookup(StableTable(), ".-.-.") == "+"
    ensures Lookup(StableTable(), "-...-") == "="
    ensures Lookup(StableTable(), "-.--.-") == ")"
    ensures Lookup(StableTable(), ".-.-.-") == "."
  {
    StableTableOverridesPart0();
    StableTableOverridesPart1();
    StableTableOverridesPart2();
    StableTableOverridesPart3();
    StableTableOverridesPart4();
  }

  lemma StableTableFallbackCodesPart0()
    ensures Lookup(StableTable(), ".") == "E"
  {
    var e := StableEntries();
    assert |e| == 60;
    assert e[4] == (".", "E");
    forall j | 4 < j < 60
      ensures e[j].0 != "."
    {
      Position(j);
    }
    BuildLast(e, 4);
  }

  lemma StableTableFallbackCodesPart1()
    ensures Lookup(StableTable(), "....") == "H"
  {
    var e := StableEntries();
    assert |e| == 60;
    assert e[7] == ("....", "H");
    forall j | 7 < j < 60
      ensures e[j].0 != "...."
    {
      Position(j);
    }
    BuildLast(e, 7);
  }

  lemma StableTableFallbackCodesPart2()
    ensures Lookup(StableTable(), ".....") == "5"
  {
    var e := StableEntries();
    assert |e| == 60;
    assert e[30] == (".....", "5");
    forall j | 30 < j < 60
      ensures e[j].0 != "....."
    {
      Position(j);
    }
    BuildLast(e, 30);
  }

  /** The codes the all-dot fallback stands in for are all in the latest-stable table: E, H and 5. */
  lemma StableTableFallbackCodes()
    ensures Lookup(StableTable(), ".") == "E"
    ensures Lookup(StableTable(), "....") == "H"
    ensures Lookup(StableTable(), ".....") == "5"
  {
    StableTableFallbackCodesPart0();
    StableTableFallbackCodesPart1();
    StableTableFallbackCodesPart2();
  }

  lemma StableTableLostTextsPart0()
    ensures forall k :: k in Build(StableEntries()) ==> Build(StableEntries())[k] != "K"
  {
    var e := StableEntries();
    assert |e| == 60;
    assert e[10] == ("-.-", "K") && e[45].0 == "-.-";
    forall j | 0 <= j < 60 && e[j].1 == "K"
      ensures j == 10
    {
      Position(j);
    }
    ShadowedText(e, "K", 10, 45);
  }

  lemma StableTableLostTextsPart1()
    ensures forall k :: k in Build(StableEntries()) ==> Build(StableEntries())[k] != "<AR>"
  {
    var e := StableEntries();
    assert |e| == 60;
    assert e[36] == (".-.-.", "<AR>") && e[47].0 == ".-.-.";
    forall j | 0 <= j < 60 && e[j].1 == "<AR>"
      ensures j == 36
    {
      Position(j);
    }
    ShadowedText(e, "<AR>", 36, 47);
  }

  lemma StableTableLostTextsPart2()
    ensures forall k :: k in Build(StableEntries()) ==> Build(StableEntries())[k] != "<BT>"
  {
    var e := StableEntries();
    assert |e| == 60;
    assert e[38] == ("-...-", "<BT>") && e[57].0 == "-...-";
    forall j | 0 <= j < 60 && e[j].1 == "<BT>"
      ensures j == 38
    {
      Position(j);
    }
    ShadowedText(e, "<BT>", 38, 57);
  }

  lemma StableTableLostTextsPart3()
    ensures forall k :: k in Build(StableEntries()) ==> Build(StableEntries())[k] != "("
  {
    var e := StableEntries();
    assert |e| == 60;
    assert e[54] == ("-.--.-", "(") && e[55].0 == "-.--.-";
    forall j | 0 <= j < 60 && e[j].1 == "("
      ensures j == 54
    {
      Position(j);
    }
    ShadowedText(e, "(", 54, 55);
  }

  /** No code of the latest-stable table reads K, <AR>, <BT> or an opening parenthesis. */
  lemma StableTableLostTexts()
    ensures forall k :: k in Build(StableEntries()) ==> Build(StableEntries())[k] != "K"
    ensures forall k :: k in Build(StableEntries()) ==> Build(StableEntries())[k] != "<AR>"
    ensures forall k :: k in Build(StableEntries()) ==> Build(StableEntries())[k] != "<BT>"
    ensures forall k :: k in Build(StableEntries()) ==> Build(StableEntries())[k] != "("
  {
    StableTableLostTextsPart0();
    StableTableLostTextsPart1();
    StableTableLostTextsPart2();
    StableTableLostTextsPart3();
  }

  lemma ProsignTableOverridesPart0()
    ensures Lookup(ProsignTable(), "-.-") == "<K>"
  {
    var e := ProsignEntries();
    assert |e| == 46;
    assert e[45] == ("-.-", "<K>");
    BuildLast(e, 45);
  }

  lemma ProsignTableOverridesPart1()
    ensures Lookup(ProsignTable(), "-...-") == "<BT>"
  {
    var e := ProsignEntries();
    assert |e| == 46;
    assert e[38] == ("-...-", "<BT>");
    forall j | 38 < j < 46
      ensures e[j].0 != "-...-"
    {
      Position(j);
    }
    BuildLast(e, 38);
  }

  lemma ProsignTableOverridesPart2()
    ensures Lookup(ProsignTable(), ".-.-.") == "<AR>"
  {
    var e := ProsignEntries();
    assert |e| == 46;
    assert e[36] == (".-.-.", "<AR>");
    forall j | 36 < j < 46
      ensures e[j].0 != ".-.-."
    {
      Position(j);
    }
    BuildLast(e, 36);
  }

  /** In the letters-figures-prosigns table `-.-` reads <K>, while `-...-` keeps <BT> and `.-.-.` keeps <AR>. */
  lemma ProsignTableOverrides()
    ensures Lookup(ProsignTable(), "-.-") == "<K>"
    ensures Lookup(ProsignTable(), "-...-") == "<BT>"
    ensures Lookup(ProsignTable(), ".-.-.") == "<AR>"
  {
    ProsignTableOverridesPart0();
    ProsignTableOverridesPart1();
    ProsignTableOverridesPart2();
  }

  lemma ProsignTableLostTextsPart0()
    ensures forall k :: k in Build(ProsignEntries()) ==> Build(ProsignEntries())[k] != "K"
  {
    var e := ProsignEntries();
    assert |e| == 46;
    assert e[10] == ("-.-", "K") && e[45].0 == "-.-";
    forall j | 0 <= j < 46 && e[j].1 == "K"
      ensures j == 10
    {
      Position(j);
    }
    ShadowedText(e, "K", 10, 45);
  }

  /** No code of the letters-figures-prosigns table reads K. */
  lemma ProsignTableLostTexts()
    ensures forall k :: k in Build(ProsignEntries()) ==> Build(ProsignEntries())[k] != "K"
  {
    ProsignTableLostTextsPart0();
  }
}
