/**
 * The Morse table as the source writes it: a Python dict display of
 * (code, text) pairs. A dict display keeps, for a repeated key, the value of
 * its LAST occurrence, but iterates the key at the position of its FIRST
 * occurrence; both matter, the first to the decoders and the second to the
 * trainer's reverse lookup.
 */
module MorseTable {
  import opened Wrappers

  /** One `code: text` pair of a dict display. */
  type Entry = (string, string)

  /** The mapping a dict display builds: later pairs overwrite earlier ones. */
  function Build(e: seq<Entry>): map<string, string>
  {
    if e == [] then map[] else Build(e[..|e| - 1])[e[|e| - 1].0 := e[|e| - 1].1]
  }

  /** The value of a key is the value of its last pair in the display. */
  lemma {:induction false} BuildLast(e: seq<Entry>, i: nat)
    requires i < |e|
    requires forall j :: i < j < |e| ==> e[j].0 != e[i].0
    ensures e[i].0 in Build(e) && Build(e)[e[i].0] == e[i].1
  {
    if i < |e| - 1 {
      BuildLast(e[..|e| - 1], i);
    }
  }

  /** Every key of the dict comes from a pair of the display, the last one with that key. */
  lemma {:induction false} BuildSource(e: seq<Entry>, k: string)
    requires k in Build(e)
    ensures exists i :: 0 <= i < |e| && e[i] == (k, Build(e)[k])
                        && forall j :: i < j < |e| ==> e[j].0 != k
  {
    var n := |e| - 1;
    if e[n].0 != k {
      BuildSource(e[..n], k);
      var i :| 0 <= i < n && e[..n][i] == (k, Build(e[..n])[k])
                && forall j :: i < j < n ==> e[..n][j].0 != k;
      assert e[i] == (k, Build(e)[k]);
      assert forall j :: i < j < |e| ==> e[j].0 != k by {
        forall j | i < j < |e|
          ensures e[j].0 != k
        {
          if j < n {
            assert e[..n][j] == e[j];
          }
        }
      }
    }
  }

  /** A key no pair of the display carries is not in the dict. */
  lemma {:induction false} BuildAbsent(e: seq<Entry>, k: string)
    requires forall i :: 0 <= i < |e| ==> e[i].0 != k
    ensures k !in Build(e)
  {
    if e != [] {
      BuildAbsent(e[..|e| - 1], k);
    }
  }

  /**
   * A text carried by a single pair whose code is bound again later in the
   * display is read by no code of the dict.
   */
  lemma ShadowedText(e: seq<Entry>, text: string, i: nat, m: nat)
    requires i < m < |e| && e[m].0 == e[i].0
    requires forall j :: 0 <= j < |e| && e[j].1 == text ==> j == i
    ensures forall k :: k in Build(e) ==> Build(e)[k] != text
  {
    forall k | k in Build(e)
      ensures Build(e)[k] != text
    {
      BuildSource(e, k);
      var s :| 0 <= s < |e| && e[s] == (k, Build(e)[k]) && forall j :: s < j < |e| ==> e[j].0 != k;
      assert e[m].0 == e[i].0;
      assert s != i;
    }
  }

  // ------------------------------------------------------------ iteration

  /** Position of key `k` among the items, if present. */
  function IndexOfKey(items: seq<Entry>, k: string): (r: Option<nat>)
    ensures r.Some? ==> r.value < |items| && items[r.value].0 == k
    ensures r.None? ==> forall i :: 0 <= i < |items| ==> items[i].0 != k
  {
    if items == [] then None
    else if items[0].0 == k then Some(0)
    else match IndexOfKey(items[1..], k)
      case None => None
      case Some(i) => Some(i + 1)
  }

  /** Storing a pair into a dict: overwrite in place, or append a new key at the end. */
  function Put(items: seq<Entry>, kv: Entry): seq<Entry>
  {
    match IndexOfKey(items, kv.0)
    case Some(i) => items[i := kv]
    case None => items + [kv]
  }

  /** `d.items()` of the dict the display `e` builds, in iteration order. */
  function Items(e: seq<Entry>): seq<Entry>
  {
    if e == [] then [] else Put(Items(e[..|e| - 1]), e[|e| - 1])
  }

  predicate DistinctKeys(items: seq<Entry>)
  {
    forall i, j :: 0 <= i < j < |items| ==> items[i].0 != items[j].0
  }

  /** The items list each key of the dict exactly once, with its value. */
  lemma {:induction false} ItemsMatchBuild(e: seq<Entry>)
    ensures DistinctKeys(Items(e))
    ensures forall i :: 0 <= i < |Items(e)| ==>
              Items(e)[i].0 in Build(e) && Build(e)[Items(e)[i].0] == Items(e)[i].1
    ensures forall k :: k in Build(e) ==> exists i :: 0 <= i < |Items(e)| && Items(e)[i].0 == k
  {
    if e != [] {
      var p := e[..|e| - 1];
      var kv := e[|e| - 1];
      ItemsMatchBuild(p);
      var items := Items(p);
      match IndexOfKey(items, kv.0)
      case Some(i) =>
        assert Items(e) == items[i := kv];
        forall k | k in Build(e)
          ensures exists m :: 0 <= m < |Items(e)| && Items(e)[m].0 == k
        {
          if k == kv.0 {
            assert Items(e)[i].0 == k;
          } else {
            assert k in Build(p);
            var m :| 0 <= m < |items| && items[m].0 == k;
            assert Items(e)[m].0 == k;
          }
        }
      case None =>
        assert Items(e) == items + [kv];
        forall k | k in Build(e)
          ensures exists m :: 0 <= m < |Items(e)| && Items(e)[m].0 == k
        {
          if k == kv.0 {
            assert Items(e)[|items|].0 == k;
          } else {
            assert k in Build(p);
            var m :| 0 <= m < |items| && items[m].0 == k;
            assert Items(e)[m].0 == k;
          }
        }
    }
  }

  // --------------------------------------------------------------- lookups

  /** `MORSE_DICT.get(symbol, '?')`. */
  function Lookup(table: map<string, string>, symbol: string): string
  {
    if symbol in table then table[symbol] else "?"
  }

  /** `next((k for k, v in MORSE_DICT.items() if v == text), None)`: the first key whose value is `text`. */
  function KeyFor(items: seq<Entry>, text: string): (r: Option<string>)
    ensures r.Some? <==> exists i :: 0 <= i < |items| && items[i].1 == text
    ensures r.Some? ==> exists i :: 0 <= i < |items| && items[i] == (r.value, text)
                                 && forall j :: 0 <= j < i ==> items[j].1 != text
  {
    if items == [] then None
    else if items[0].1 == text then Some(items[0].0)
    else
      var r := KeyFor(items[1..], text);
      assert forall i :: 1 <= i < |items| ==> items[i] == items[1..][i - 1];
      assert r.Some? ==> exists i :: 0 <= i < |items| && items[i] == (r.value, text)
                                     && forall j :: 0 <= j < i ==> items[j].1 != text by {
        if r.Some? {
          var i :| 0 <= i < |items[1..]| && items[1..][i] == (r.value, text)
                   && forall j :: 0 <= j < i ==> items[1..][j].1 != text;
          assert items[i + 1] == (r.value, text);
          assert forall j :: 0 <= j < i + 1 ==> items[j].1 != text by {
            forall j | 0 <= j < i + 1
              ensures items[j].1 != text
            {
              if j > 0 {
                assert items[j] == items[1..][j - 1];
              }
            }
          }
        }
      }
      r
  }

  /**
   * The reverse lookup and the decoder's lookup agree: the key found for a
   * text decodes back to that text, and no key is found exactly when no code
   * of the dict decodes to it.
   */
  lemma KeyForRoundTrip(e: seq<Entry>, text: string)
    ensures KeyFor(Items(e), text).Some? ==>
              Lookup(Build(e), KeyFor(Items(e), text).value) == text
    ensures KeyFor(Items(e), text).None? <==>
              forall k :: k in Build(e) ==> Build(e)[k] != text
  {
    ItemsMatchBuild(e);
    var items := Items(e);
    if KeyFor(items, text).None? {
      forall k | k in Build(e)
        ensures Build(e)[k] != text
      {
        var i :| 0 <= i < |items| && items[i].0 == k;
      }
    } else {
      var k :| k in Build(e) && Build(e)[k] == text by {
        var i :| 0 <= i < |items| && items[i].1 == text;
        assert items[i].0 in Build(e);
      }
    }
  }

  /** A code as the decoders build it: dots and dashes only. */
  predicate MorseSymbol(s: string)
  {
    forall i :: 0 <= i < |s| ==> s[i] == '.' || s[i] == '-'
  }

  // ------------------------------------------------------------- fallbacks

  predicate AllDots(s: string)
  {
    forall i :: 0 <= i < |s| ==> s[i] == '.'
  }

  predicate AllDashes(s: string)
  {
    forall i :: 0 <= i < |s| ==> s[i] == '-'
  }

  /**
   * Lookup with the all-dot fallback: an unknown run of one, four or five dots
   * is read as E, H or 5.
   */
  function DotFallback(table: map<string, string>, symbol: string): (c: string)
    ensures c == Lookup(table, symbol) || (Lookup(table, symbol) == "?" && AllDots(symbol))
  {
    var c := Lookup(table, symbol);
    if c == "?" && AllDots(symbol) then
      if |symbol| == 1 then "E"
      else if |symbol| == 4 then "H"
      else if |symbol| == 5 then "5"
      else c
    else c
  }

  /**
   * Lookup with the all-dot fallback followed by the all-dash fallback: an
   * unknown run of one or three dashes is read as T or O.
   */
  function DotDashFallback(table: map<string, string>, symbol: string): (c: string)
    ensures c == DotFallback(table, symbol)
            || (DotFallback(table, symbol) == "?" && AllDashes(symbol))
  {
    var c := DotFallback(table, symbol);
    if c == "?" && AllDashes(symbol) then
      if |symbol| == 1 then "T"
      else if |symbol| == 3 then "O"
      else c
    else c
  }

  /** An unknown all-dot symbol of length 1, 4 or 5 never comes out as '?'. */
  lemma DotFallbackNamesShortRuns(table: map<string, string>, symbol: string)
    requires AllDots(symbol) && (|symbol| == 1 || |symbol| == 4 || |symbol| == 5)
    ensures DotFallback(table, symbol) != "?"
    ensures symbol !in table ==>
              DotFallback(table, symbol) == (if |symbol| == 1 then "E" else if |symbol| == 4 then "H" else "5")
  {
  }

  /**
   * An unknown all-dash symbol of length 1 or 3 reads T or O and never '?':
   * the all-dot fallback leaves it alone, and the all-dash fallback names it.
   */
  lemma DashFallbackNamesShortRuns(table: map<string, string>, symbol: string)
    requires AllDashes(symbol) && (|symbol| == 1 || |symbol| == 3)
    ensures DotFallback(table, symbol) == Lookup(table, symbol)
    ensures DotDashFallback(table, symbol) != "?"
    ensures symbol !in table ==>
              DotDashFallback(table, symbol) == (if |symbol| == 1 then "T" else "O")
  {
    assert symbol[0] == '-';
    assert !AllDots(symbol);
  }

  /**
   * When the dict already knows ".", "....", "....." (and, for the dash
   * fallback, "-" and "---") the fallbacks never change a lookup.
   */
  lemma FallbacksInert(table: map<string, string>, symbol: string)
    requires forall k :: k in [".", "....", "....."] ==> k in table && table[k] != "?"
    ensures DotFallback(table, symbol) == Lookup(table, symbol)
    ensures (forall k :: k in ["-", "---"] ==> k in table && table[k] != "?") ==>
              DotDashFallback(table, symbol) == Lookup(table, symbol)
  {
    if AllDots(symbol) && |symbol| == 1 {
      assert symbol == ".";
    }
    if AllDots(symbol) && |symbol| == 4 {
      assert symbol == "....";
    }
    if AllDots(symbol) && |symbol| == 5 {
      assert symbol == ".....";
    }
    if AllDashes(symbol) && |symbol| == 1 {
      assert symbol == "-";
    }
    if AllDashes(symbol) && |symbol| == 3 {
      assert symbol == "---";
    }
  }
}
