/**
 * The symbol dictionary of the backend: a cached load of the dictionary
 * file, the reference text for the symbols a dream mentions, the list of
 * mentioned symbol keys, and the full listing with emoji.
 */
module DreamSymbols {
  import opened Wrappers
  import opened Text
  import opened Sequences

  datatype SymbolDetail = SymbolDetail(pozitif: string, negatif: string, genel: string)

  /** The parsed dictionary, as its entries in `Object.keys` order. */
  type SymbolTable = seq<(string, SymbolDetail)>

  /** What reading the dictionary file yields: no file, a read or parse error, or the table. */
  datatype SymbolFile = NoFile | Unreadable | Parsed(table: SymbolTable)

  const EmojiMap: map<string, string> := map[
    "su" := "💧",
    "ateş" := "🔥",
    "uçmak" := "🕊\U{FE0F}",
    "düşmek" := "⬇\U{FE0F}",
    "yılan" := "🐍",
    "köpek" := "🐕",
    "kedi" := "🐈",
    "ev" := "🏠",
    "araba" := "🚗",
    "ölüm" := "💀",
    "bebek" := "👶",
    "para" := "\U{FFFD}",
    "deniz" := "🌊",
    "dağ" := "⛰\U{FE0F}",
    "ay" := "🌙",
    "güneş" := "☀\U{FE0F}",
    "yıldız" := "⭐",
    "kuş" := "\U{FFFD}",
    "ağaç" := "🌳",
    "ayna" := "🪞",
    "kapı" := "🚪",
    "merdiven" := "🪜",
    "diş" := "🦷",
    "saç" := "💇",
    "göz" := "\U{FFFD}\U{FE0F}",
    "yemek" := "🍽\U{FE0F}",
    "ekmek" := "🍞",
    "kitap" := "📖",
    "yol" := "🛣\U{FE0F}"
  ]

  const DefaultEmoji: string := "✨"

  /** `EMOJI_MAP[key] || '✨'`. */
  function Emoji(key: string): (r: string)
    ensures r != ""
  {
    if key in EmojiMap && EmojiMap[key] != "" then EmojiMap[key] else DefaultEmoji
  }

  function Keys(table: SymbolTable): (r: seq<string>)
    ensures |r| == |table|
    ensures forall i :: 0 <= i < |table| ==> r[i] == table[i].0
  {
    seq(|table|, i requires 0 <= i < |table| => table[i].0)
  }

  // ---------------------------------------------------------------------
  // Loading

  /** The table `loadSymbolData` returns: the cached one, else the file's, else `{}`. */
  function LoadedTable(cached: Option<SymbolTable>, file: SymbolFile): SymbolTable {
    if cached.Some? then cached.value
    else if file.Parsed? then file.table
    else []
  }

  /** The module-level `cachedSymbols` and `loadSymbolData`. */
  class SymbolLoader {
    var cached: Option<SymbolTable>

    constructor()
      ensures cached == None
    {
      cached := None;
    }

    /**
     * `loadSymbolData`: the first successful read is cached and returned by
     * every later call; a missing or unreadable file yields `{}` and is not
     * cached, so a later call reads the file again.
     */
    method Load(file: SymbolFile) returns (t: SymbolTable)
      modifies this
      ensures t == LoadedTable(old(cached), file)
      ensures old(cached).Some? ==> cached == old(cached)
      ensures old(cached).None? && file.Parsed? ==> cached == Some(file.table)
      ensures old(cached).None? && !file.Parsed? ==> cached == None
    {
      if cached.Some? {
        return cached.value;
      }
      if file.Parsed? {
        cached := Some(file.table);
        return file.table;
      }
      return [];
    }

    /** `extractDreamContext`: load, then build the reference text. */
    method ExtractDreamContext(file: SymbolFile, dreamText: string) returns (r: string)
      modifies this
      ensures r == ContextText(LoadedTable(old(cached), file), dreamText)
      ensures cached == (if old(cached).Some? then old(cached) else if file.Parsed? then Some(file.table) else None)
    {
      var symbols := Load(file);
      r := BuildContext(symbols, dreamText);
    }

    /** `extractSymbols`: load, then list the mentioned keys. */
    method ExtractSymbolKeys(file: SymbolFile, dreamText: string) returns (r: seq<string>)
      modifies this
      ensures r == ExtractSymbols(LoadedTable(old(cached), file), dreamText)
      ensures cached == (if old(cached).Some? then old(cached) else if file.Parsed? then Some(file.table) else None)
    {
      var symbols := Load(file);
      r := ExtractSymbols(symbols, dreamText);
    }

    /** `getAllSymbols`: load, then list every entry. */
    method ListAllSymbols(file: SymbolFile) returns (r: seq<SymbolListing>)
      modifies this
      ensures r == AllSymbols(LoadedTable(old(cached), file))
      ensures cached == (if old(cached).Some? then old(cached) else if file.Parsed? then Some(file.table) else None)
    {
      var symbols := Load(file);
      r := AllSymbols(symbols);
    }
  }

  // ---------------------------------------------------------------------
  // Matching

  /** The entries whose key occurs in `lowerText`, in table order. */
  function Matched(table: SymbolTable, lowerText: string): (m: SymbolTable)
    ensures forall e :: e in m <==> e in table && Contains(lowerText, e.0)
  {
    Filter(table, (e: (string, SymbolDetail)) => Contains(lowerText, e.0))
  }

  /** Keys of a subsequence form a subsequence of the keys. */
  lemma {:induction false} KeysSubsequence(a: SymbolTable, b: SymbolTable)
    requires Subsequence(a, b)
    ensures Subsequence(Keys(a), Keys(b))
    decreases |b|
  {
    if a != [] && b != [] {
      assert Keys(a)[..|a| - 1] == Keys(a[..|a| - 1]);
      assert Keys(b)[..|b| - 1] == Keys(b[..|b| - 1]);
      if a[|a| - 1] == b[|b| - 1] {
        KeysSubsequence(a[..|a| - 1], b[..|b| - 1]);
      } else {
        KeysSubsequence(a, b[..|b| - 1]);
        if Keys(a)[|a| - 1] == Keys(b)[|b| - 1] {
          SubsequenceDropLeft(Keys(a), Keys(b[..|b| - 1]));
        }
      }
    }
  }

  /** `extractSymbols`: the keys that occur in the lower-cased dream text. */
  function ExtractSymbols(table: SymbolTable, dreamText: string): (r: seq<string>)
    ensures forall k :: k in r <==> k in Keys(table) && Contains(Lower(dreamText), k)
    ensures Subsequence(r, Keys(table))
  {
    var m := Matched(table, Lower(dreamText));
    FilterSubsequence(table, (e: (string, SymbolDetail)) => Contains(Lower(dreamText), e.0));
    KeysSubsequence(m, table);
    forall k
      ensures k in Keys(m) <==> k in Keys(table) && Contains(Lower(dreamText), k)
    {
      if k in Keys(table) {
        var i :| 0 <= i < |table| && Keys(table)[i] == k;
        assert table[i] in table;
      }
      if k in Keys(m) {
        var i :| 0 <= i < |m| && Keys(m)[i] == k;
        assert m[i] in m;
      }
    }
    Keys(m)
  }

  // ---------------------------------------------------------------------
  // Reference text

  const ContextHeader: string := "📚 SEMBOL SÖZLÜĞÜNDEN REFERANSLAR (Kullanıcının rüyasında tespit edilenler):\n"
  const BlockSeparator: string := "\n\n"

  /** One reference block: the upper-cased key, its emoji and the three readings. */
  function Block(key: string, detail: SymbolDetail): string {
    "- " + Upper(key) + " (" + Emoji(key) + "):\n"
    + "  * Genel: " + detail.genel + "\n"
    + "  * Pozitif: " + detail.pozitif + "\n"
    + "  * Negatif: " + detail.negatif
  }

  function Blocks(m: SymbolTable): (r: seq<string>)
    ensures |r| == |m|
  {
    seq(|m|, i requires 0 <= i < |m| => Block(m[i].0, m[i].1))
  }

  /** The text `extractDreamContext` builds from a loaded table. */
  function ContextText(table: SymbolTable, dreamText: string): string {
    var m := Matched(table, Lower(dreamText));
    if m == [] then "" else ContextHeader + Join(Blocks(m), BlockSeparator)
  }

  /** The `forEach` of `extractDreamContext`, pushing one block per mentioned key. */
  method BuildContext(table: SymbolTable, dreamText: string) returns (r: string)
    ensures r == ContextText(table, dreamText)
  {
    var lowerText := Lower(dreamText);
    var foundContexts: seq<string> := [];
    var i := 0;
    while i < |table|
      invariant 0 <= i <= |table|
      invariant foundContexts == Blocks(Matched(table[..i], lowerText))
    {
      var symbolKey := table[i].0;
      BlocksStep(table, i, lowerText);
      if Contains(lowerText, symbolKey) {
        foundContexts := foundContexts + [Block(symbolKey, table[i].1)];
      }
      i := i + 1;
    }
    assert table[..|table|] == table;
    ghost var m := Matched(table, lowerText);
    assert foundContexts == Blocks(m);
    if |foundContexts| == 0 {
      assert m == [];
      return "";
    }
    r := ContextHeader + Join(foundContexts, BlockSeparator);
  }

  /** One more entry of the table adds its block exactly when its key is mentioned. */
  lemma BlocksStep(table: SymbolTable, i: int, lowerText: string)
    requires 0 <= i < |table|
    ensures Blocks(Matched(table[..i + 1], lowerText)) ==
      Blocks(Matched(table[..i], lowerText))
      + (if Contains(lowerText, table[i].0) then [Block(table[i].0, table[i].1)] else [])
  {
    MatchedStep(table, i, lowerText);
    if Contains(lowerText, table[i].0) {
      BlocksAppend(Matched(table[..i], lowerText), table[i]);
    } else {
      assert Matched(table[..i], lowerText) + [] == Matched(table[..i], lowerText);
    }
  }

  lemma MatchedStep(table: SymbolTable, i: int, lowerText: string)
    requires 0 <= i < |table|
    ensures Matched(table[..i + 1], lowerText) ==
      Matched(table[..i], lowerText) + (if Contains(lowerText, table[i].0) then [table[i]] else [])
  {
    FilterStep(table, i, (e: (string, SymbolDetail)) => Contains(lowerText, e.0));
  }

  lemma BlocksAppend(m: SymbolTable, e: (string, SymbolDetail))
    ensures Blocks(m + [e]) == Blocks(m) + [Block(e.0, e.1)]
  {
  }

  /** The reference text is empty exactly when no key is mentioned. */
  lemma ContextEmptyIff(table: SymbolTable, dreamText: string)
    ensures ContextText(table, dreamText) == "" <==> ExtractSymbols(table, dreamText) == []
  {
  }

  /** A non-empty reference text starts with the header and holds the block of every mentioned entry. */
  lemma ContextListsMatches(table: SymbolTable, dreamText: string, key: string, detail: SymbolDetail)
    requires (key, detail) in table && Contains(Lower(dreamText), key)
    ensures StartsWith(ContextText(table, dreamText), ContextHeader)
    ensures Contains(ContextText(table, dreamText), Block(key, detail))
  {
    var m := Matched(table, Lower(dreamText));
    var i :| 0 <= i < |m| && m[i] == (key, detail);
    JoinContains(Blocks(m), BlockSeparator, i);
    ContainsInRight(ContextHeader, Join(Blocks(m), BlockSeparator), Block(key, detail));
    assert (ContextHeader + Join(Blocks(m), BlockSeparator))[..|ContextHeader|] == ContextHeader;
  }

  /** A block names its key in upper case and carries all three readings. */
  lemma BlockShape(key: string, detail: SymbolDetail)
    ensures StartsWith(Block(key, detail), "- " + Upper(key) + " (")
    ensures Contains(Block(key, detail), detail.genel)
    ensures Contains(Block(key, detail), detail.pozitif)
    ensures Contains(Block(key, detail), detail.negatif)
  {
    BlockPieces("- ", Upper(key), " (", Emoji(key), "):\n", "  * Genel: ", detail.genel,
      "\n", "  * Pozitif: ", detail.pozitif, "\n", "  * Negatif: ", detail.negatif);
  }

  /** The shape of a block, with its fixed pieces left abstract. */
  lemma BlockPieces(l1: string, u: string, l2: string, e: string, l3: string, l4: string, g: string,
                    l5: string, l6: string, p: string, l7: string, l8: string, n: string)
    ensures var w := l1 + u + l2 + e + l3 + l4 + g + l5 + l6 + p + l7 + l8 + n;
      StartsWith(w, l1 + u + l2) && Contains(w, g) && Contains(w, p) && Contains(w, n)
  {
    var a := l1 + u + l2;
    var wg := a + e + l3 + l4 + g;
    var wp := wg + l5 + l6 + p;
    var wn := wp + l7 + l8 + n;
    StartsTail(a, e + l3 + l4 + g + l5 + l6 + p + l7 + l8 + n);
    assert wn == a + (e + l3 + l4 + g + l5 + l6 + p + l7 + l8 + n);
    ContainsEnd(a + e + l3 + l4, g);
    ContainsInLeft(wg, l5, g);
    ContainsInLeft(wg + l5, l6, g);
    ContainsInLeft(wg + l5 + l6, p, g);
    ContainsEnd(wg + l5 + l6, p);
    ContainsInLeft(wp, l7, g);
    ContainsInLeft(wp, l7, p);
    ContainsInLeft(wp + l7, l8, g);
    ContainsInLeft(wp + l7, l8, p);
    ContainsInLeft(wp + l7 + l8, n, g);
    ContainsInLeft(wp + l7 + l8, n, p);
    ContainsEnd(wp + l7 + l8, n);
  }

  lemma StartsTail(a: string, b: string)
    ensures StartsWith(a + b, a)
  {
    assert (a + b)[..|a|] == a;
  }

  lemma ContainsEnd(a: string, b: string)
    ensures Contains(a + b, b)
  {
    assert (a + b)[|a|..|a| + |b|] == b;
    ContainsAt(a + b, b, |a|);
  }

  // ---------------------------------------------------------------------
  // Listing

  datatype SymbolListing = SymbolListing(symbol: string, meaning: string, emoji: string)

  /** `getAllSymbols`: one listing per entry, in table order. */
  function AllSymbols(table: SymbolTable): (r: seq<SymbolListing>)
    ensures |r| == |table|
    ensures forall i :: 0 <= i < |r| ==> r[i].symbol == table[i].0 && r[i].meaning == table[i].1.genel
    ensures forall i :: 0 <= i < |r| ==> r[i].emoji != ""
  {
    seq(|table|, i requires 0 <= i < |table| => SymbolListing(table[i].0, table[i].1.genel, Emoji(table[i].0)))
  }

  /** Every symbol `extractSymbols` reports appears in the full listing. */
  lemma ExtractedAreListed(table: SymbolTable, dreamText: string, k: string)
    requires k in ExtractSymbols(table, dreamText)
    ensures exists i :: 0 <= i < |table| && AllSymbols(table)[i].symbol == k
  {
    var i :| 0 <= i < |table| && Keys(table)[i] == k;
    assert AllSymbols(table)[i].symbol == k;
  }
}
