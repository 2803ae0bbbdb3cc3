/**
 * The statistics screen's `loadStats`: the dream count, the rounded mean
 * energy, the five most frequent symbol names and the dreams of each of
 * the last seven days. The fetched dreams and the clock are parameters.
 */
module StatsScreen {
  import opened Wrappers
  import opened Sorting

  /** A fetched dream as the statistics read it; `date` is `None` when `new Date(date)` is invalid. */
  datatype StatsDream = StatsDream(energy: Option<int>, symbols: Option<seq<string>>, date: Option<int>)

  datatype SymbolCount = SymbolCount(name: string, count: int)

  datatype Stats = Stats(totalDreams: int, avgEnergy: int, topSymbols: seq<SymbolCount>, weeklyData: seq<int>)

  const DayMs := 1000 * 60 * 60 * 24

  /** `d.energy || 0`. */
  function EnergyOf(d: StatsDream): int {
    if d.energy.Some? then d.energy.value else 0
  }

  /** `dreams.reduce((sum, d) => sum + (d.energy || 0), 0)`. */
  function EnergySum(dreams: seq<StatsDream>): int {
    if dreams == [] then 0 else EnergySum(dreams[..|dreams| - 1]) + EnergyOf(dreams[|dreams| - 1])
  }

  /** `Math.round(a / b)`: the nearest integer, halves rounded up. */
  function RoundDiv(a: int, b: int): (r: int)
    requires b > 0
    ensures b * (2 * r - 1) <= 2 * a < b * (2 * r + 1)
  {
    (2 * a + b) / (2 * b)
  }

  /** `total > 0 ? Math.round(totalEnergy / total) : 0`. */
  function AvgEnergy(dreams: seq<StatsDream>): (r: int)
    ensures dreams == [] ==> r == 0
    ensures dreams != [] ==> |dreams| * (2 * r - 1) <= 2 * EnergySum(dreams) < |dreams| * (2 * r + 1)
  {
    if |dreams| > 0 then RoundDiv(EnergySum(dreams), |dreams|) else 0
  }

  predicate EnergiesInRange(dreams: seq<StatsDream>) {
    forall i :: 0 <= i < |dreams| ==> 0 <= EnergyOf(dreams[i]) <= 100
  }

  lemma {:induction false} EnergySumBounds(dreams: seq<StatsDream>)
    requires EnergiesInRange(dreams)
    ensures 0 <= EnergySum(dreams) <= 100 * |dreams|
  {
    if dreams != [] {
      EnergySumBounds(dreams[..|dreams| - 1]);
    }
  }

  /** With every energy in [0, 100] the mean is in [0, 100]. */
  lemma AvgEnergyBounds(dreams: seq<StatsDream>)
    requires EnergiesInRange(dreams)
    ensures 0 <= AvgEnergy(dreams) <= 100
  {
    EnergySumBounds(dreams);
  }

  // ---------------------------------------------------------------------
  // Symbol counts.

  /** The names of all symbol occurrences, dream by dream; a dream without symbols adds none. */
  function AllNames(dreams: seq<StatsDream>): seq<string> {
    if dreams == [] then []
    else
      var last := dreams[|dreams| - 1];
      AllNames(dreams[..|dreams| - 1]) + (if last.symbols.Some? then last.symbols.value else [])
  }

  /** Each name once, in the order of its first occurrence. */
  function Distinct(xs: seq<string>): (r: seq<string>)
    ensures forall x :: x in r <==> x in xs
    ensures forall i, j :: 0 <= i < j < |r| ==> r[i] != r[j]
  {
    if xs == [] then []
    else
      var d := Distinct(xs[..|xs| - 1]);
      var last := xs[|xs| - 1];
      assert xs == xs[..|xs| - 1] + [last];
      if last in xs[..|xs| - 1] then d else d + [last]
  }

  /** `counts` holds, for every name of `names` and no other, its number of occurrences. */
  ghost predicate Tallies(counts: map<string, int>, names: seq<string>) {
    (forall n :: n in counts <==> n in names) &&
    (forall n :: n in counts ==> counts[n] == multiset(names)[n])
  }

  /** `symbolCounts[name] = (symbolCounts[name] || 0) + 1` keeps the tally. */
  lemma TallyStep(counts: map<string, int>, names: seq<string>, name: string)
    requires Tallies(counts, names)
    ensures Tallies(counts[name := (if name in counts then counts[name] else 0) + 1], names + [name])
  {
    assert multiset(names + [name]) == multiset(names) + multiset{name};
  }

  lemma AllNamesStep(dreams: seq<StatsDream>, i: int)
    requires 0 <= i < |dreams|
    ensures AllNames(dreams[..i + 1])
      == AllNames(dreams[..i]) + (if dreams[i].symbols.Some? then dreams[i].symbols.value else [])
  {
    assert dreams[..i + 1][..i] == dreams[..i];
  }

  lemma DistinctStep(xs: seq<string>, x: string)
    ensures Distinct(xs + [x]) == if x in xs then Distinct(xs) else Distinct(xs) + [x]
  {
    assert (xs + [x])[..|xs|] == xs;
  }

  /** One more occurrence keeps both the tally and the key order. */
  lemma CountStep(counts: map<string, int>, order: seq<string>, seen: seq<string>, name: string)
    requires Tallies(counts, seen) && order == Distinct(seen)
    ensures Tallies(counts[name := (if name in counts then counts[name] else 0) + 1], seen + [name])
    ensures (if name in counts then order else order + [name]) == Distinct(seen + [name])
  {
    TallyStep(counts, seen, name);
    DistinctStep(seen, name);
  }

  /** The inner `symbolCounts` loop over the symbols of one dream; `seen` are the names counted before. */
  method CountNames(counts0: map<string, int>, order0: seq<string>, names: seq<string>, ghost seen: seq<string>)
    returns (counts: map<string, int>, order: seq<string>)
    requires Tallies(counts0, seen) && order0 == Distinct(seen)
    ensures Tallies(counts, seen + names) && order == Distinct(seen + names)
  {
    counts, order := counts0, order0;
    var j := 0;
    ghost var counted := seen;
    assert names[..0] == [];
    while j < |names|
      invariant 0 <= j <= |names|
      invariant counted == seen + names[..j]
      invariant Tallies(counts, counted)
      invariant order == Distinct(counted)
    {
      var name := names[j];
      CountStep(counts, order, counted, name);
      if name !in counts {
        order := order + [name];
      }
      counts := counts[name := (if name in counts then counts[name] else 0) + 1];
      NextPrefix(seen, names, j);
      counted := counted + [name];
      j := j + 1;
    }
    assert names[..j] == names;
  }

  lemma NextPrefix(seen: seq<string>, names: seq<string>, j: int)
    requires 0 <= j < |names|
    ensures seen + names[..j + 1] == (seen + names[..j]) + [names[j]]
  {
    assert names[..j + 1] == names[..j] + [names[j]];
  }

  /**
   * The `symbolCounts` loops: every occurrence of a name adds one to its
   * count. `order` is the order in which the names became keys, the order
   * in which `Object.entries` lists them.
   */
  method CountSymbols(dreams: seq<StatsDream>) returns (counts: map<string, int>, order: seq<string>)
    ensures Tallies(counts, AllNames(dreams))
    ensures order == Distinct(AllNames(dreams))
  {
    counts := map[];
    order := [];
    var i := 0;
    while i < |dreams|
      invariant 0 <= i <= |dreams|
      invariant Tallies(counts, AllNames(dreams[..i]))
      invariant order == Distinct(AllNames(dreams[..i]))
    {
      AllNamesStep(dreams, i);
      if dreams[i].symbols.Some? {
        counts, order := CountNames(counts, order, dreams[i].symbols.value, AllNames(dreams[..i]));
      } else {
        assert AllNames(dreams[..i]) + [] == AllNames(dreams[..i]);
      }
      i := i + 1;
    }
    assert dreams[..i] == dreams;
  }

  function CountOf(e: SymbolCount): int {
    e.count
  }

  /** `Object.entries(symbolCounts).map(([name, count]) => ({ name, count }))`. */
  function Entries(counts: map<string, int>, order: seq<string>): (es: seq<SymbolCount>)
    requires forall n :: n in order ==> n in counts
    ensures |es| == |order|
    ensures forall i :: 0 <= i < |es| ==> es[i] == SymbolCount(order[i], counts[order[i]])
  {
    seq(|order|, i requires 0 <= i < |order| => SymbolCount(order[i], counts[order[i]]))
  }

  /** `.sort((a, b) => b[1] - a[1]).slice(0, 5)`. */
  function TopSymbols(entries: seq<SymbolCount>): (r: seq<SymbolCount>)
    ensures |r| <= 5
    ensures SortedDesc(r, CountOf)
    ensures forall e :: e in r ==> e in entries
  {
    SortDescSorted(entries, CountOf);
    PrefixSorted(SortDesc(entries, CountOf), 5, CountOf);
    SortDescSameElements(entries, CountOf);
    Prefix(SortDesc(entries, CountOf), 5)
  }

  lemma PrefixKeeps(xs: seq<SymbolCount>, n: nat)
    ensures forall k :: 0 <= k < |xs| && k < n ==> xs[k] in Prefix(xs, n)
  {
    var p := Prefix(xs, n);
    forall k | 0 <= k < |xs| && k < n
      ensures xs[k] in p
    {
      assert p[k] == xs[k];
    }
  }

  /** An entry left out of the top five has no larger count than any entry in it. */
  lemma TopSymbolsAreTop(entries: seq<SymbolCount>)
    ensures forall e, t :: e in entries && e !in TopSymbols(entries) && t in TopSymbols(entries) ==>
      t.count >= e.count
  {
    var sorted := SortDesc(entries, CountOf);
    var top := TopSymbols(entries);
    SortDescSorted(entries, CountOf);
    SortDescSameElements(entries, CountOf);
    PrefixKeeps(sorted, 5);
    forall e, t | e in entries && e !in top && t in top
      ensures t.count >= e.count
    {
      var k :| 0 <= k < |sorted| && sorted[k] == e;
      var j :| 0 <= j < |top| && top[j] == t;
      assert k >= 5;
      assert sorted[j] == t;
    }
  }

  /** Every listed symbol occurred at least once, with its count being its number of occurrences. */
  lemma TopSymbolsCounted(counts: map<string, int>, order: seq<string>, names: seq<string>)
    requires Tallies(counts, names) && (forall n :: n in order ==> n in counts)
    ensures forall e :: e in TopSymbols(Entries(counts, order)) ==>
      e.count == multiset(names)[e.name] && e.count >= 1
  {
    var es := Entries(counts, order);
    forall e | e in TopSymbols(es)
      ensures e.count == multiset(names)[e.name] && e.count >= 1
    {
      assert e in es;
      var i :| 0 <= i < |es| && es[i] == e;
      assert e.name in names;
    }
  }

  // ---------------------------------------------------------------------
  // The week.

  /** `Math.floor((today - dreamDate) / (1000 * 60 * 60 * 24))`. */
  function DiffDays(todayMs: int, dateMs: int): int {
    (todayMs - dateMs) / DayMs
  }

  /** The dreams of the day `d` days before today; an invalid date belongs to no day. */
  function DayCount(dreams: seq<StatsDream>, todayMs: int, d: int): (n: nat)
    ensures n <= |dreams|
  {
    if dreams == [] then 0
    else
      var last := dreams[|dreams| - 1];
      DayCount(dreams[..|dreams| - 1], todayMs, d) + (if last.date.Some? && DiffDays(todayMs, last.date.value) == d then 1 else 0)
  }

  predicate InWindow(d: StatsDream, todayMs: int) {
    d.date.Some? && 0 <= DiffDays(todayMs, d.date.value) < 7
  }

  /** The dreams of the last seven days, today included. */
  function WindowCount(dreams: seq<StatsDream>, todayMs: int): (n: nat)
    ensures n <= |dreams|
  {
    if dreams == [] then 0
    else WindowCount(dreams[..|dreams| - 1], todayMs) + (if InWindow(dreams[|dreams| - 1], todayMs) then 1 else 0)
  }

  function Sum(xs: seq<int>): int {
    if xs == [] then 0 else xs[0] + Sum(xs[1..])
  }

  /** The day counts from six days ago to today, as the slots of the chart. */
  function WeekCounts(dreams: seq<StatsDream>, todayMs: int): seq<int> {
    [DayCount(dreams, todayMs, 6), DayCount(dreams, todayMs, 5), DayCount(dreams, todayMs, 4),
     DayCount(dreams, todayMs, 3), DayCount(dreams, todayMs, 2), DayCount(dreams, todayMs, 1),
     DayCount(dreams, todayMs, 0)]
  }

  lemma SumOfWeek(w: seq<int>)
    requires |w| == 7
    ensures Sum(w) == w[0] + w[1] + w[2] + w[3] + w[4] + w[5] + w[6]
  {
    assert Sum(w[6..]) == w[6] by { assert w[6..][1..] == []; }
    assert Sum(w[5..]) == w[5] + Sum(w[6..]) by { assert w[5..][1..] == w[6..]; }
    assert Sum(w[4..]) == w[4] + Sum(w[5..]) by { assert w[4..][1..] == w[5..]; }
    assert Sum(w[3..]) == w[3] + Sum(w[4..]) by { assert w[3..][1..] == w[4..]; }
    assert Sum(w[2..]) == w[2] + Sum(w[3..]) by { assert w[2..][1..] == w[3..]; }
    assert Sum(w[1..]) == w[1] + Sum(w[2..]) by { assert w[1..][1..] == w[2..]; }
  }

  /** Every dream of the window is in exactly one slot, so the slots add up to the window's dreams. */
  lemma {:induction false} WeekCountsSum(dreams: seq<StatsDream>, todayMs: int)
    ensures Sum(WeekCounts(dreams, todayMs)) == WindowCount(dreams, todayMs)
  {
    SumOfWeek(WeekCounts(dreams, todayMs));
    if dreams != [] {
      WeekCountsSum(dreams[..|dreams| - 1], todayMs);
      SumOfWeek(WeekCounts(dreams[..|dreams| - 1], todayMs));
    }
  }

  lemma DayCountStep(dreams: seq<StatsDream>, i: int, todayMs: int, d: int)
    requires 0 <= i < |dreams|
    ensures DayCount(dreams[..i + 1], todayMs, d) == DayCount(dreams[..i], todayMs, d)
      + (if dreams[i].date.Some? && DiffDays(todayMs, dreams[i].date.value) == d then 1 else 0)
  {
    assert dreams[..i + 1][..i] == dreams[..i];
  }

  /** One more dream adds one to its day's slot when it falls in the window, and changes nothing otherwise. */
  lemma WeekCountsStep(dreams: seq<StatsDream>, i: int, todayMs: int)
    requires 0 <= i < |dreams|
    ensures var w := WeekCounts(dreams[..i], todayMs);
      WeekCounts(dreams[..i + 1], todayMs) ==
        if InWindow(dreams[i], todayMs) then
          var slot := 6 - DiffDays(todayMs, dreams[i].date.value);
          w[slot := w[slot] + 1]
        else w
  {
    DayCountStep(dreams, i, todayMs, 0);
    DayCountStep(dreams, i, todayMs, 1);
    DayCountStep(dreams, i, todayMs, 2);
    DayCountStep(dreams, i, todayMs, 3);
    DayCountStep(dreams, i, todayMs, 4);
    DayCountStep(dreams, i, todayMs, 5);
    DayCountStep(dreams, i, todayMs, 6);
  }

  /** The `weekly` loop: `weekly[6 - diffDays]++` for every dream of the last seven days. */
  method Weekly(dreams: seq<StatsDream>, todayMs: int) returns (weekly: seq<int>)
    ensures weekly == WeekCounts(dreams, todayMs)
  {
    var slots := new int[7](_ => 0);
    var i := 0;
    assert dreams[..0] == [];
    while i < |dreams|
      invariant 0 <= i <= |dreams|
      invariant slots[..] == WeekCounts(dreams[..i], todayMs)
    {
      WeekCountsStep(dreams, i, todayMs);
      if dreams[i].date.Some? {
        var diffDays := DiffDays(todayMs, dreams[i].date.value);
        if diffDays >= 0 && diffDays < 7 {
          slots[6 - diffDays] := slots[6 - diffDays] + 1;
        }
      }
      i := i + 1;
    }
    assert dreams[..i] == dreams;
    weekly := slots[..];
  }

  // ---------------------------------------------------------------------
  // loadStats.

  /**
   * `loadStats` on what the fetch gave: `None` when the answer is not an
   * array (or the fetch threw), in which case the shown statistics stay.
   */
  method LoadStats(current: Stats, fetched: Option<seq<StatsDream>>, todayMs: int) returns (next: Stats)
    ensures fetched.None? ==> next == current
    ensures fetched.Some? ==> next.totalDreams == |fetched.value| && next.avgEnergy == AvgEnergy(fetched.value)
    ensures fetched.Some? ==> next.weeklyData == WeekCounts(fetched.value, todayMs)
    ensures fetched.Some? ==>
      exists counts, order ::
        && Tallies(counts, AllNames(fetched.value))
        && order == Distinct(AllNames(fetched.value))
        && (forall n :: n in order ==> n in counts)
        && next.topSymbols == TopSymbols(Entries(counts, order))
  {
    if fetched.None? {
      return current;
    }
    var dreams := fetched.value;
    var total := |dreams|;
    var avg := AvgEnergy(dreams);
    var counts, order := CountSymbols(dreams);
    var topSymbols := TopSymbols(Entries(counts, order));
    var weekly := Weekly(dreams, todayMs);
    next := Stats(total, avg, topSymbols, weekly);
  }
}
