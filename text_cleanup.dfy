/**
 * The final clean-up of the goertzel MP3 decoder, `' '.join(text.split()).strip()`:
 * Python's whitespace split (runs of whitespace separate words, no empty
 * words), a join with single spaces, and a strip of both ends.
 */
module TextCleanup {

  /** The characters Python's `str.isspace` accepts, on which `str.split()` splits. */
  predicate IsSpace(c: char)
  {
    c == ' ' || ('\t' <= c <= '\r') || ('\U{1C}' <= c <= '\U{1F}') || c == '\U{85}' || c == '\U{A0}'
    || c == '\U{1680}' || ('\U{2000}' <= c <= '\U{200A}') || c == '\U{2028}' || c == '\U{2029}'
    || c == '\U{202F}' || c == '\U{205F}' || c == '\U{3000}'
  }

  predicate NoSpace(w: string)
  {
    forall i :: 0 <= i < |w| ==> !IsSpace(w[i])
  }

  /** What `split()` can return: non-empty words without whitespace. */
  predicate ProperWords(ws: seq<string>)
  {
    forall i :: 0 <= i < |ws| ==> ws[i] != [] && NoSpace(ws[i])
  }

  /** The text after its leading whitespace. */
  function DropSpaces(s: string): (t: string)
    ensures |t| <= |s| && t == s[|s| - |t|..]
    ensures t == [] || !IsSpace(t[0])
    ensures forall i :: 0 <= i < |s| - |t| ==> IsSpace(s[i])
  {
    if s != [] && IsSpace(s[0]) then DropSpaces(s[1..]) else s
  }

  /** The text before its trailing whitespace. */
  function DropTrailing(s: string): (t: string)
    ensures |t| <= |s| && t == s[..|t|]
    ensures t == [] || !IsSpace(t[|t| - 1])
    ensures forall i :: |t| <= i < |s| ==> IsSpace(s[i])
  {
    if s != [] && IsSpace(s[|s| - 1]) then DropTrailing(s[..|s| - 1]) else s
  }

  /** The length of the first word: the run of non-whitespace at the front. */
  function WordLength(s: string): (n: nat)
    ensures n <= |s|
    ensures forall i :: 0 <= i < n ==> !IsSpace(s[i])
    ensures n == |s| || IsSpace(s[n])
  {
    if s == [] || IsSpace(s[0]) then 0 else 1 + WordLength(s[1..])
  }

  /** `s.split()`. */
  function Words(s: string): seq<string>
    decreases |s|
  {
    var t := DropSpaces(s);
    if t == [] then []
    else
      var n := WordLength(t);
      [t[..n]] + Words(t[n..])
  }

  /** What `split()` returns are non-empty words without whitespace. */
  lemma {:induction false} WordsProper(s: string)
    ensures ProperWords(Words(s))
    decreases |s|
  {
    var t := DropSpaces(s);
    if t != [] {
      var n := WordLength(t);
      WordsProper(t[n..]);
      var ws := Words(s);
      assert ws == [t[..n]] + Words(t[n..]);
      forall i | 0 <= i < |ws| ensures ws[i] != [] && NoSpace(ws[i]) {
        if i > 0 {
          assert ws[i] == Words(t[n..])[i - 1];
        }
      }
    }
  }

  /** `' '.join(ws)`. */
  function Join(ws: seq<string>): string
  {
    if ws == [] then "" else if |ws| == 1 then ws[0] else ws[0] + " " + Join(ws[1..])
  }

  /** `s.strip()`. */
  function Strip(s: string): string
  {
    DropTrailing(DropSpaces(s))
  }

  /** `' '.join(s.split()).strip()`. */
  function Cleanup(s: string): string
  {
    Strip(Join(Words(s)))
  }

  /** The non-whitespace characters of a text, in order. */
  function Visible(s: string): string
  {
    if s == [] then [] else (if IsSpace(s[0]) then [] else [s[0]]) + Visible(s[1..])
  }

  /** Concatenation of all words. */
  function Concat(ws: seq<string>): string
  {
    if ws == [] then [] else ws[0] + Concat(ws[1..])
  }

  // ------------------------------------------------------------ lemmas

  lemma {:induction false} VisibleAppend(a: string, b: string)
    ensures Visible(a + b) == Visible(a) + Visible(b)
  {
    if a != [] {
      assert (a + b)[0] == a[0];
      assert (a + b)[1..] == a[1..] + b;
      VisibleAppend(a[1..], b);
      var h := if IsSpace(a[0]) then [] else [a[0]];
      assert Visible(a) == h + Visible(a[1..]);
      calc {
        Visible(a + b);
        h + Visible(a[1..] + b);
        h + (Visible(a[1..]) + Visible(b));
        (h + Visible(a[1..])) + Visible(b);
      }
    } else {
      assert a + b == b;
    }
  }

  lemma {:induction false} VisibleOfSpaces(s: string)
    requires forall i :: 0 <= i < |s| ==> IsSpace(s[i])
    ensures Visible(s) == []
  {
    if s != [] {
      VisibleOfSpaces(s[1..]);
    }
  }

  lemma {:induction false} VisibleOfWord(w: string)
    requires NoSpace(w)
    ensures Visible(w) == w
  {
    if w != [] {
      VisibleOfWord(w[1..]);
      assert w == [w[0]] + w[1..];
    }
  }

  lemma VisibleDropSpaces(s: string)
    ensures Visible(s) == Visible(DropSpaces(s))
  {
    var t := DropSpaces(s);
    var k := |s| - |t|;
    assert s == s[..k] + t;
    VisibleAppend(s[..k], t);
    VisibleOfSpaces(s[..k]);
  }

  lemma VisibleFirstWord(t: string)
    ensures Visible(t) == t[..WordLength(t)] + Visible(t[WordLength(t)..])
  {
    var n := WordLength(t);
    assert t == t[..n] + t[n..];
    VisibleAppend(t[..n], t[n..]);
    VisibleOfWord(t[..n]);
  }

  /** One step of `split()`: the first word, then the split of what follows it. */
  lemma WordsStep(s: string)
    requires DropSpaces(s) != []
    ensures var t := DropSpaces(s);
            WordLength(t) > 0
            && Words(s) == [t[..WordLength(t)]] + Words(t[WordLength(t)..])
  {
  }

  /** Splitting keeps every non-whitespace character, in order. */
  lemma {:induction false} WordsKeepVisible(s: string)
    ensures Concat(Words(s)) == Visible(s)
    decreases |s|
  {
    var t := DropSpaces(s);
    VisibleDropSpaces(s);
    if t != [] {
      var n := WordLength(t);
      VisibleFirstWord(t);
      WordsStep(s);
      WordsKeepVisible(t[n..]);
      var ws := Words(s);
      assert ws[0] == t[..n] && ws[1..] == Words(t[n..]);
    }
  }

  /** Every whitespace character is a single space with a visible character on each side. */
  predicate SingleSpaced(r: string)
  {
    forall i :: 0 <= i < |r| && IsSpace(r[i]) ==>
      r[i] == ' ' && 0 < i < |r| - 1 && !IsSpace(r[i - 1]) && !IsSpace(r[i + 1])
  }

  /** Non-empty and visible at both ends. */
  predicate Trimmed(r: string)
  {
    r != [] && !IsSpace(r[0]) && !IsSpace(r[|r| - 1])
  }

  lemma SingleSpacedJoin(w: string, rest: string)
    requires w != [] && NoSpace(w) && Trimmed(rest) && SingleSpaced(rest)
    ensures Trimmed(w + " " + rest) && SingleSpaced(w + " " + rest)
  {
    var j := w + " " + rest;
    assert j[0] == w[0];
    assert j[|j| - 1] == rest[|rest| - 1];
    forall i | 0 <= i < |j|
      ensures IsSpace(j[i]) ==>
                j[i] == ' ' && 0 < i < |j| - 1 && !IsSpace(j[i - 1]) && !IsSpace(j[i + 1])
    {
      if i < |w| {
        assert j[i] == w[i];
      } else if i == |w| {
        assert j[i - 1] == w[|w| - 1];
        assert j[i + 1] == rest[0];
      } else if i == |w| + 1 {
        assert j[i] == rest[0];
      } else {
        assert j[i] == rest[i - |w| - 1];
        assert j[i - 1] == rest[i - |w| - 2];
        if i < |j| - 1 {
          assert j[i + 1] == rest[i - |w|];
        }
      }
    }
  }

  lemma VisibleJoinStep(w: string, rest: string)
    requires NoSpace(w)
    ensures Visible(w + " " + rest) == w + Visible(rest)
  {
    var spaced := " " + rest;
    assert w + " " + rest == w + spaced;
    assert Visible(spaced) == Visible(rest) by {
      VisibleAppend(" ", rest);
      VisibleOfSpaces(" ");
    }
    assert Visible(w + spaced) == w + Visible(spaced) by {
      VisibleAppend(w, spaced);
      VisibleOfWord(w);
    }
  }

  /** Joining proper words keeps their characters, is visible at both ends and single-spaced. */
  lemma {:induction false} JoinShape(ws: seq<string>)
    requires ProperWords(ws)
    ensures ws != [] ==> Trimmed(Join(ws))
    ensures SingleSpaced(Join(ws))
    ensures Visible(Join(ws)) == Concat(ws)
  {
    if |ws| == 1 {
      VisibleOfWord(ws[0]);
      assert Concat(ws) == ws[0] + Concat(ws[1..]);
    } else if |ws| > 1 {
      var w := ws[0];
      var rest := Join(ws[1..]);
      JoinShape(ws[1..]);
      assert Join(ws) == w + " " + rest;
      SingleSpacedJoin(w, rest);
      VisibleJoinStep(w, rest);
      assert Concat(ws) == w + Concat(ws[1..]);
    }
  }

  lemma DropSpacesOfTrimmed(s: string)
    requires s == [] || !IsSpace(s[0])
    ensures DropSpaces(s) == s
  {
  }

  /** Splitting a word, a space and a trimmed text: the word, then the split of the text. */
  lemma WordsOfJoinStep(w: string, rest: string)
    requires w != [] && NoSpace(w) && Trimmed(rest)
    ensures Words(w + " " + rest) == [w] + Words(rest)
  {
    var j := w + " " + rest;
    JoinedParts(w, rest);
    FirstWordLength(w, rest);
    WordsUnfold(j);
    WordsAfterSpace(rest);
  }

  /** The pieces of `w + " " + rest`. */
  lemma JoinedParts(w: string, rest: string)
    requires w != []
    ensures var j := w + " " + rest;
            j[0] == w[0] && j[..|w|] == w && j[|w|..] == " " + rest
  {
  }

  /** The first word of `w + " " + rest` is `w`. */
  lemma FirstWordLength(w: string, rest: string)
    requires NoSpace(w)
    ensures WordLength(w + " " + rest) == |w|
  {
    var j := w + " " + rest;
    forall i | 0 <= i < |w| ensures !IsSpace(j[i]) {
      assert j[i] == w[i];
    }
    assert j[|w|] == ' ';
    WordLengthOfWord(j, |w|);
  }

  /** A text that starts with a visible character splits into its first word and the split of the remainder. */
  lemma WordsUnfold(t: string)
    requires t != [] && !IsSpace(t[0])
    ensures Words(t) == [t[..WordLength(t)]] + Words(t[WordLength(t)..])
  {
    DropSpacesOfTrimmed(t);
  }

  /** One space in front of a trimmed text does not change its split. */
  lemma WordsAfterSpace(rest: string)
    requires Trimmed(rest)
    ensures Words(" " + rest) == Words(rest)
  {
    var s := " " + rest;
    assert s[1..] == rest;
    DropSpacesOfTrimmed(rest);
    assert DropSpaces(s) == rest;
    WordsOfTrimmed(s, rest);
  }

  /** Leading whitespace does not change the split. */
  lemma WordsOfTrimmed(s: string, t: string)
    requires DropSpaces(s) == t
    ensures Words(s) == Words(t)
  {
    DropSpacesOfTrimmed(t);
  }

  /** Splitting a join of proper words gives the words back. */
  lemma {:induction false} WordsOfJoin(ws: seq<string>)
    requires ProperWords(ws)
    ensures Words(Join(ws)) == ws
  {
    if |ws| == 1 {
      WordsOfWord(ws[0]);
    } else if |ws| > 1 {
      var rest := Join(ws[1..]);
      JoinShape(ws[1..]);
      WordsOfJoinStep(ws[0], rest);
      WordsOfJoin(ws[1..]);
      assert ws == [ws[0]] + ws[1..];
    }
  }

  /** A single word splits into itself. */
  lemma WordsOfWord(w: string)
    requires w != [] && NoSpace(w)
    ensures Words(w) == [w]
  {
    DropSpacesOfTrimmed(w);
    WordLengthOfWord(w, |w|);
    assert w[|w|..] == [];
    assert w[..|w|] == w;
  }

  lemma {:induction false} WordLengthOfWord(s: string, n: nat)
    requires n <= |s| && (forall i :: 0 <= i < n ==> !IsSpace(s[i])) && (n == |s| || IsSpace(s[n]))
    ensures WordLength(s) == n
  {
    if n > 0 {
      WordLengthOfWord(s[1..], n - 1);
    }
  }

  /** The result has no leading or trailing whitespace, and every whitespace in it is one space between two visible characters. */
  lemma CleanupShape(s: string)
    ensures Cleanup(s) == [] || Trimmed(Cleanup(s))
    ensures SingleSpaced(Cleanup(s))
  {
    var ws := Words(s);
    WordsProper(s);
    JoinShape(ws);
    StripOfJoin(ws);
  }

  lemma StripOfJoin(ws: seq<string>)
    requires ProperWords(ws)
    ensures Strip(Join(ws)) == Join(ws)
  {
    JoinShape(ws);
    var j := Join(ws);
    assert DropSpaces(j) == j;
    assert DropTrailing(j) == j;
  }

  /** The clean-up keeps every visible character of the text, in order. */
  lemma CleanupKeepsVisible(s: string)
    ensures Visible(Cleanup(s)) == Visible(s)
  {
    var ws := Words(s);
    WordsProper(s);
    JoinShape(ws);
    StripOfJoin(ws);
    WordsKeepVisible(s);
  }

  /** Cleaning up twice is cleaning up once. */
  lemma CleanupIdempotent(s: string)
    ensures Cleanup(Cleanup(s)) == Cleanup(s)
  {
    var ws := Words(s);
    WordsProper(s);
    StripOfJoin(ws);
    WordsOfJoin(ws);
  }
}
