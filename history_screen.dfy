/**
 * The history screen's list: the dreams shown under the chosen tab, search
 * text and energy filter, newest first, and the favourite flip applied to
 * the shown list and, for a guest, to the list kept on the device.
 */
module HistoryScreen {
  import opened Wrappers
  import opened Text
  import opened Sequences
  import opened Sorting
  import opened DeviceStorage
  import opened DreamService

  /**
   * A dream as the screen reads it. `date` is the time stamp `new Date(date)`
   * stands for; `energy` and the texts may be missing.
   */
  datatype ListedDream = ListedDream(
    id: string, dreamText: Option<string>, interpretation: Option<string>,
    energy: Option<int>, date: int, isFavorite: bool)

  datatype Tab = AllDreams | Favorites

  datatype EnergyFilter = AnyEnergy | HighEnergy | LowEnergy

  /** `d.energy || 0`. */
  function EnergyOf(d: ListedDream): int {
    if d.energy.Some? then d.energy.value else 0
  }

  function DateOf(d: ListedDream): int {
    d.date
  }

  /** `d.dreamText.toLowerCase().includes(q) || d.interpretation?.toLowerCase().includes(q)`, with the text present. */
  predicate MatchesQuery(d: ListedDream, q: string)
    requires d.dreamText.Some?
  {
    Contains(Lower(d.dreamText.value), q) || (d.interpretation.Some? && Contains(Lower(d.interpretation.value), q))
  }

  /** Whether the search stage's predicate throws: `toLowerCase` of a missing `dreamText`. */
  predicate SearchThrows(xs: seq<ListedDream>) {
    exists i :: 0 <= i < |xs| && xs[i].dreamText.None?
  }

  predicate TabKeeps(tab: Tab, d: ListedDream) {
    tab == Favorites ==> d.isFavorite
  }

  predicate SearchKeeps(query: string, d: ListedDream) {
    Trim(query) != "" ==> d.dreamText.Some? && MatchesQuery(d, Lower(query))
  }

  predicate EnergyKeeps(filter: EnergyFilter, d: ListedDream) {
    (filter == HighEnergy ==> EnergyOf(d) >= 70) && (filter == LowEnergy ==> EnergyOf(d) < 40)
  }

  /** The stages together, as one condition on a dream. */
  predicate Selected(tab: Tab, query: string, filter: EnergyFilter, d: ListedDream) {
    TabKeeps(tab, d) && SearchKeeps(query, d) && EnergyKeeps(filter, d)
  }

  /** The favourites tab, the first stage. */
  function TabStage(dreams: seq<ListedDream>, tab: Tab): seq<ListedDream> {
    if tab == Favorites then Filter(dreams, (d: ListedDream) => d.isFavorite) else dreams
  }

  /**
   * The search stage: only when the trimmed query is not empty, and with the
   * untrimmed query lower-cased; a dream without `dreamText` makes it throw.
   */
  function SearchStage(xs: seq<ListedDream>, query: string): (r: Result<seq<ListedDream>>)
    ensures r.Failure? <==> Trim(query) != "" && SearchThrows(xs)
  {
    if Trim(query) == "" then Success(xs)
    else if SearchThrows(xs) then Failure("TypeError: Cannot read properties of undefined (reading 'toLowerCase')")
    else
      var q := Lower(query);
      Success(Filter(xs, (d: ListedDream) => d.dreamText.Some? && MatchesQuery(d, q)))
  }

  /** The two energy stages, `'high'` then `'low'`. */
  function EnergyStage(xs: seq<ListedDream>, filter: EnergyFilter): seq<ListedDream> {
    var high := if filter == HighEnergy then Filter(xs, (d: ListedDream) => EnergyOf(d) >= 70) else xs;
    if filter == LowEnergy then Filter(high, (d: ListedDream) => EnergyOf(d) < 40) else high
  }

  /** `getFilteredDreams`: the stages in order, then the stable sort by date, newest first. */
  function FilteredDreams(dreams: seq<ListedDream>, tab: Tab, query: string, filter: EnergyFilter)
    : (r: Result<seq<ListedDream>>)
    ensures r.Failure? <==> Trim(query) != "" && SearchThrows(TabStage(dreams, tab))
    ensures r.Success? ==> SortedDesc(r.value, DateOf)
  {
    var searched :- SearchStage(TabStage(dreams, tab), query);
    var kept := EnergyStage(searched, filter);
    SortDescSorted(kept, DateOf);
    Success(SortDesc(kept, DateOf))
  }

  function TabCond(tab: Tab): ListedDream -> bool {
    (d: ListedDream) => TabKeeps(tab, d)
  }

  function SearchCond(query: string): ListedDream -> bool {
    (d: ListedDream) => SearchKeeps(query, d)
  }

  function EnergyCond(filter: EnergyFilter): ListedDream -> bool {
    (d: ListedDream) => EnergyKeeps(filter, d)
  }

  function TabSearchCond(tab: Tab, query: string): ListedDream -> bool {
    (d: ListedDream) => TabKeeps(tab, d) && SearchKeeps(query, d)
  }

  function SelectedCond(tab: Tab, query: string, filter: EnergyFilter): ListedDream -> bool {
    (d: ListedDream) => Selected(tab, query, filter, d)
  }

  lemma TabStageIsFilter(dreams: seq<ListedDream>, tab: Tab)
    ensures TabStage(dreams, tab) == Filter(dreams, TabCond(tab))
  {
    StageFilter(dreams, tab == Favorites, (d: ListedDream) => d.isFavorite, TabCond(tab));
  }

  lemma SearchStageIsFilter(xs: seq<ListedDream>, query: string)
    requires SearchStage(xs, query).Success?
    ensures SearchStage(xs, query).value == Filter(xs, SearchCond(query))
  {
    if Trim(query) != "" {
      var q := Lower(query);
      FilterAgree(xs, (d: ListedDream) => d.dreamText.Some? && MatchesQuery(d, q), SearchCond(query));
    } else {
      FilterAll(xs, SearchCond(query));
    }
  }

  lemma EnergyStageIsFilter(xs: seq<ListedDream>, filter: EnergyFilter)
    ensures EnergyStage(xs, filter) == Filter(xs, EnergyCond(filter))
  {
    var highKeep := (d: ListedDream) => filter == HighEnergy ==> EnergyOf(d) >= 70;
    var lowKeep := (d: ListedDream) => filter == LowEnergy ==> EnergyOf(d) < 40;
    var high := if filter == HighEnergy then Filter(xs, (d: ListedDream) => EnergyOf(d) >= 70) else xs;
    StageFilter(xs, filter == HighEnergy, (d: ListedDream) => EnergyOf(d) >= 70, highKeep);
    StageFilter(high, filter == LowEnergy, (d: ListedDream) => EnergyOf(d) < 40, lowKeep);
    FilterTwice(xs, highKeep, lowKeep, EnergyCond(filter));
  }

  /** Before sorting, the stages select exactly the dreams meeting all their conditions, in order. */
  lemma StagesAreOneFilter(dreams: seq<ListedDream>, tab: Tab, query: string, filter: EnergyFilter)
    requires SearchStage(TabStage(dreams, tab), query).Success?
    ensures EnergyStage(SearchStage(TabStage(dreams, tab), query).value, filter)
      == Filter(dreams, SelectedCond(tab, query, filter))
  {
    var f1 := TabStage(dreams, tab);
    TabStageIsFilter(dreams, tab);
    var f2 := SearchStage(f1, query).value;
    SearchStageIsFilter(f1, query);
    FilterTwice(dreams, TabCond(tab), SearchCond(query), TabSearchCond(tab, query));
    EnergyStageIsFilter(f2, filter);
    FilterTwice(dreams, TabSearchCond(tab, query), EnergyCond(filter), SelectedCond(tab, query, filter));
  }

  /**
   * The shown list holds exactly the selected dreams, each as often as in
   * the fetched list, and nothing else.
   */
  lemma FilteredDreamsSelect(dreams: seq<ListedDream>, tab: Tab, query: string, filter: EnergyFilter)
    requires FilteredDreams(dreams, tab, query, filter).Success?
    ensures multiset(FilteredDreams(dreams, tab, query, filter).value)
      == multiset(Filter(dreams, SelectedCond(tab, query, filter)))
    ensures forall d :: (d in FilteredDreams(dreams, tab, query, filter).value
      <==> d in dreams && Selected(tab, query, filter, d))
  {
    StagesAreOneFilter(dreams, tab, query, filter);
    var r := FilteredDreams(dreams, tab, query, filter).value;
    var chosen := Filter(dreams, SelectedCond(tab, query, filter));
    assert multiset(r) == multiset(chosen);
    forall d
      ensures d in r <==> d in chosen
    {
      assert d in r <==> d in multiset(r);
      assert d in chosen <==> d in multiset(chosen);
    }
  }

  /** With no tab, search or energy filter, every fetched dream is shown, newest first. */
  lemma NoFilterShowsAll(dreams: seq<ListedDream>, query: string)
    requires Trim(query) == ""
    ensures FilteredDreams(dreams, AllDreams, query, AnyEnergy) == Success(SortDesc(dreams, DateOf))
  {
  }

  // ---------------------------------------------------------------------
  // The favourite flip.

  /** `dreams.map(d => d.id === id ? { ...d, isFavorite: !currentFavorite } : d)`. */
  function Flipped(dreams: seq<ListedDream>, id: string, currentFavorite: bool): (r: seq<ListedDream>)
    ensures |r| == |dreams|
    ensures forall i :: 0 <= i < |r| && dreams[i].id != id ==> r[i] == dreams[i]
    ensures forall i :: 0 <= i < |r| && dreams[i].id == id ==> r[i].isFavorite == !currentFavorite
  {
    seq(|dreams|, i requires 0 <= i < |dreams| =>
      if dreams[i].id == id then dreams[i].(isFavorite := !currentFavorite) else dreams[i])
  }

  /** A flip touches the favourite flag only: every other field of every dream is kept. */
  lemma FlippedKeepsFields(dreams: seq<ListedDream>, id: string, currentFavorite: bool)
    ensures forall i :: 0 <= i < |dreams| ==>
      Flipped(dreams, id, currentFavorite)[i].(isFavorite := dreams[i].isFavorite) == dreams[i]
  {
  }

  /** Flipping back from the new value restores a list whose dreams with that id all had the old value. */
  lemma FlipBack(dreams: seq<ListedDream>, id: string, currentFavorite: bool)
    requires forall i :: 0 <= i < |dreams| && dreams[i].id == id ==> dreams[i].isFavorite == currentFavorite
    ensures Flipped(Flipped(dreams, id, currentFavorite), id, !currentFavorite) == dreams
  {
    var back := Flipped(Flipped(dreams, id, currentFavorite), id, !currentFavorite);
    assert forall i :: 0 <= i < |dreams| ==> back[i] == dreams[i];
  }

  /** Marking a dream as favourite puts it under the favourites tab and keeps the other favourites as they were. */
  lemma FlipToFavorite(dreams: seq<ListedDream>, id: string)
    ensures forall i :: 0 <= i < |dreams| && dreams[i].id == id ==>
      dreams[i].(isFavorite := true) in TabStage(Flipped(dreams, id, false), Favorites)
    ensures forall d: ListedDream :: d.id != id ==>
      (d in TabStage(Flipped(dreams, id, false), Favorites) <==> d in TabStage(dreams, Favorites))
  {
    var r := Flipped(dreams, id, false);
    forall i | 0 <= i < |dreams| && dreams[i].id == id
      ensures dreams[i].(isFavorite := true) in TabStage(r, Favorites)
    {
      assert r[i] == dreams[i].(isFavorite := true);
    }
    forall d: ListedDream | d.id != id
      ensures d in TabStage(r, Favorites) <==> d in TabStage(dreams, Favorites)
    {
      if d in r {
        var i :| 0 <= i < |r| && r[i] == d;
        assert dreams[i] == d;
      }
      if d in dreams {
        var i :| 0 <= i < |dreams| && dreams[i] == d;
        assert r[i] == d;
      }
    }
  }

  /** The device list's version of the flip; `isFavorite` is a field the screen adds to the stored record. */
  function FlippedStored(dreams: seq<ClientDream>, id: string, currentFavorite: bool): (r: seq<ClientDream>)
    ensures |r| == |dreams|
    ensures forall i :: 0 <= i < |r| && dreams[i].id != id ==> r[i] == dreams[i]
    ensures forall i :: 0 <= i < |r| && dreams[i].id == id ==>
      r[i] == dreams[i].(isFavorite := Some(!currentFavorite))
  {
    seq(|dreams|, i requires 0 <= i < |dreams| =>
      if dreams[i].id == id then dreams[i].(isFavorite := Some(!currentFavorite)) else dreams[i])
  }

  /**
   * `toggleFavorite`: without a user nothing happens; otherwise the shown
   * list is flipped at once and, for a guest, the device list is flipped
   * and written back. A registered user's flip is not sent anywhere.
   */
  method ToggleFavorite(store: DreamStore, userId: Option<string>, shown: seq<ListedDream>, id: string, currentFavorite: bool)
    returns (newShown: seq<ListedDream>)
    modifies store
    ensures userId.None? ==> newShown == shown && store.local == old(store.local)
    ensures userId.Some? ==> newShown == Flipped(shown, id, currentFavorite)
    ensures userId.Some? && IsGuest(userId.value) ==>
      store.local == Stored(FlippedStored(old(store.GetLocalDreams()), id, currentFavorite))
    ensures userId.Some? && !IsGuest(userId.value) ==> store.local == old(store.local)
    ensures store.userCaches == old(store.userCaches)
  {
    if userId.None? {
      return shown;
    }
    newShown := Flipped(shown, id, currentFavorite);
    if IsGuest(userId.value) {
      var localDreams := store.GetLocalDreams();
      var newLocal := FlippedStored(localDreams, id, currentFavorite);
      store.SaveLocalDreams(newLocal);
    }
  }
}
