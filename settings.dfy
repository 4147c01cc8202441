/**
 * The configuration the bot reads at start-up: the four thresholds of the
 * FILTERS section and the two comma-separated lists of the BLACKLISTS
 * section (`load_config`).
 */
module Settings {
  import opened Text

  /** The FILTERS section, already converted to numbers. */
  datatype Filters = Filters(
    minLiquidityThreshold: real,
    pumpThreshold: real,
    rugThreshold: real,
    minVolume24h: real)

  /** Coin symbols are kept upper-cased, developer addresses lower-cased. */
  datatype Folding = ToUpper | ToLower

  function Fold(f: Folding, s: string): (r: string)
    ensures |r| == |s|
  {
    match f
    case ToUpper => Upper(s)
    case ToLower => Lower(s)
  }

  const Separator := ','

  /**
   * One BLACKLISTS entry list: split the text on commas, trim each piece,
   * drop the pieces that are empty once trimmed and case-fold the rest.
   */
  function ParseEntries(text: string, f: Folding): (r: set<string>)
    ensures "" !in r
  {
    var pieces := Split(text, Separator);
    set k | 0 <= k < |pieces| && Strip(pieces[k]) != "" :: Fold(f, Strip(pieces[k]))
  }

  /** `blacklisted_coins` as loaded from the `coins` option. */
  function ParseCoins(text: string): (r: set<string>)
    ensures forall x :: x in r ==> CleanEntry(x, ToUpper)
  {
    ParsedEntriesClean(text, ToUpper);
    ParseEntries(text, ToUpper)
  }

  /** `blacklisted_devs` as loaded from the `developers` option. */
  function ParseDevs(text: string): (r: set<string>)
    ensures forall x :: x in r ==> CleanEntry(x, ToLower)
  {
    ParsedEntriesClean(text, ToLower);
    ParseEntries(text, ToLower)
  }

  /** A blacklist entry as the parser leaves it: non-empty, trimmed, comma-free, already case-folded. */
  predicate CleanEntry(x: string, f: Folding) {
    && x != ""
    && !IsSpace(x[0]) && !IsSpace(x[|x| - 1])
    && Separator !in x
    && Fold(f, x) == x
  }

  lemma FoldIdempotent(f: Folding, s: string)
    ensures Fold(f, Fold(f, s)) == Fold(f, s)
  {
    match f
    case ToUpper => UpperIdempotent(s);
    case ToLower => LowerIdempotent(s);
  }

  /** Case folding a trimmed, comma-free, non-empty string gives a clean entry. */
  lemma FoldClean(f: Folding, s: string)
    requires s != [] && !IsSpace(s[0]) && !IsSpace(s[|s| - 1]) && Separator !in s
    ensures CleanEntry(Fold(f, s), f)
  {
    var r := Fold(f, s);
    assert forall i :: 0 <= i < |s| ==> r[i] == UpperChar(s[i]) || r[i] == LowerChar(s[i]);
    FoldKeepsSpace(s[0]);
    FoldKeepsSpace(s[|s| - 1]);
    forall i | 0 <= i < |s| ensures r[i] != Separator {
      assert s[i] != Separator;
    }
    FoldIdempotent(f, s);
  }

  /** A slice of a comma-free string is comma-free. */
  lemma SliceCommaFree(s: string, i: nat, j: nat)
    requires i <= j <= |s| && Separator !in s
    ensures Separator !in s[i..j]
  {
    forall k | 0 <= k < j - i ensures s[i..j][k] != Separator {
      assert s[i..j][k] == s[i + k];
    }
  }

  /** A comma-free piece that is not blank once trimmed yields a clean entry. */
  lemma PieceEntryClean(piece: string, f: Folding)
    requires Separator !in piece && Strip(piece) != ""
    ensures CleanEntry(Fold(f, Strip(piece)), f)
  {
    var t := Strip(piece);
    StripCommaFree(piece);
    FoldClean(f, t);
  }

  /** Trimming a comma-free string leaves it comma-free. */
  lemma StripCommaFree(s: string)
    requires Separator !in s
    ensures Separator !in Strip(s)
  {
    StripSlice(s);
    SliceCommaFree(s, Leading(s), Leading(s) + |Strip(s)|);
  }

  /** Every parsed entry is clean. */
  lemma ParsedEntriesClean(text: string, f: Folding)
    ensures forall x :: x in ParseEntries(text, f) ==> CleanEntry(x, f)
  {
    var pieces := Split(text, Separator);
    forall x | x in ParseEntries(text, f) ensures CleanEntry(x, f) {
      var k :| 0 <= k < |pieces| && Strip(pieces[k]) != "" && x == Fold(f, Strip(pieces[k]));
      PieceEntryClean(pieces[k], f);
    }
  }

  /** An empty or clean entry is its own trimmed, case-folded form. */
  lemma EntryParsesToItself(x: string, f: Folding)
    requires x == "" || CleanEntry(x, f)
    ensures Strip(x) == x && Fold(f, x) == x
  {
    StripTrimmed(x);
    if x == "" {
      assert |Fold(f, x)| == 0;
    }
  }

  /** Over pieces that are their own parsed form, parsing keeps exactly the non-empty ones. */
  lemma SameEntries(words: seq<string>, f: Folding)
    requires forall k :: 0 <= k < |words| ==> Strip(words[k]) == words[k] && Fold(f, words[k]) == words[k]
    ensures (set k | 0 <= k < |words| && Strip(words[k]) != "" :: Fold(f, Strip(words[k])))
         == (set k | 0 <= k < |words| && words[k] != "" :: words[k])
  {
    var parsed := set k | 0 <= k < |words| && Strip(words[k]) != "" :: Fold(f, Strip(words[k]));
    var given := set k | 0 <= k < |words| && words[k] != "" :: words[k];
    forall x | x in parsed ensures x in given {
      var k :| 0 <= k < |words| && Strip(words[k]) != "" && x == Fold(f, Strip(words[k]));
      var w := words[k];
      assert Strip(w) == w && Fold(f, w) == w;
      assert x == w;
    }
    forall x | x in given ensures x in parsed {
      var k :| 0 <= k < |words| && words[k] != "" && x == words[k];
      var w := words[k];
      assert Strip(w) == w && Fold(f, w) == w;
      assert x == Fold(f, Strip(w));
    }
  }

  /**
   * Parsing a comma-join of comma-free pieces trims and case-folds each
   * piece and keeps those that are not blank once trimmed.
   */
  lemma SplitJoined(words: seq<string>, f: Folding)
    requires |words| >= 1
    requires forall k :: 0 <= k < |words| ==> Separator !in words[k]
    ensures ParseEntries(Join(words, Separator), f)
         == set k | 0 <= k < |words| && Strip(words[k]) != "" :: Fold(f, Strip(words[k]))
  {
    SplitJoin(words, Separator);
  }

  /**
   * Parsing a comma-joined list gives back the set of its entries, for
   * entries that are already trimmed, comma-free and case-folded; empty
   * entries vanish.
   */
  lemma ParseJoined(words: seq<string>, f: Folding)
    requires |words| >= 1
    requires forall k :: 0 <= k < |words| ==> words[k] == "" || CleanEntry(words[k], f)
    ensures ParseEntries(Join(words, Separator), f) == set k | 0 <= k < |words| && words[k] != "" :: words[k]
  {
    forall k | 0 <= k < |words| ensures Separator !in words[k] {
    }
    SplitJoined(words, f);
    forall k | 0 <= k < |words| ensures Strip(words[k]) == words[k] && Fold(f, words[k]) == words[k] {
      EntryParsesToItself(words[k], f);
    }
    SameEntries(words, f);
  }
}
