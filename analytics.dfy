/**
 * The client's `AnalyticsService`: an in-memory event log that every
 * tracking call appends to, with a per-name tally. The clock is a parameter;
 * sending events anywhere is not implemented by the service.
 */
module Analytics {
  import opened Wrappers
  import opened JsValue

  datatype AnalyticsEvent = AnalyticsEvent(name: string, params: Option<map<string, Value>>, timestamp: string)

  /** The four kinds of share `logShare` accepts. */
  datatype ShareType = General | Whatsapp | Instagram | Pdf

  function ShareTypeText(t: ShareType): string {
    match t
    case General => "general"
    case Whatsapp => "whatsapp"
    case Instagram => "instagram"
    case Pdf => "pdf"
  }

  /** `getEnergyCategory`: below 40 is low, below 70 medium, the rest high. */
  function EnergyCategory(energy: int): (c: string)
    ensures c == "low" <==> energy < 40
    ensures c == "medium" <==> 40 <= energy < 70
    ensures c == "high" <==> 70 <= energy
  {
    if energy < 40 then "low"
    else if energy < 70 then "medium"
    else "high"
  }

  /** `Math.round(ms / 60000)`: the nearest whole minute, halves rounding up. */
  function RoundMinutes(ms: int): (m: int)
    ensures 60000 * m - 30000 <= ms < 60000 * m + 30000
  {
    (ms + 30000) / 60000
  }

  /** How many events carry `name`. */
  function Count(events: seq<AnalyticsEvent>, name: string): (r: nat)
    ensures r <= |events|
  {
    if events == [] then 0
    else Count(events[..|events| - 1], name) + (if events[|events| - 1].name == name then 1 else 0)
  }

  /** The distinct event names, in the order they first occur. */
  function Names(events: seq<AnalyticsEvent>): (ns: seq<string>)
    ensures forall n :: n in ns <==> exists i :: 0 <= i < |events| && events[i].name == n
  {
    if events == [] then []
    else
      var init := events[..|events| - 1];
      var last := events[|events| - 1];
      var ns := Names(init);
      assert forall i :: 0 <= i < |init| ==> init[i] == events[i];
      if last.name in ns then ns else ns + [last.name]
  }

  predicate Distinct(ns: seq<string>) {
    forall i, j :: 0 <= i < j < |ns| ==> ns[i] != ns[j]
  }

  /** The `reduce` of `getStats`: `acc[e.name] = (acc[e.name] || 0) + 1` over the log, left to right. */
  function Tally(events: seq<AnalyticsEvent>): map<string, nat> {
    if events == [] then map[]
    else
      var acc := Tally(events[..|events| - 1]);
      var name := events[|events| - 1].name;
      acc[name := (if name in acc then acc[name] else 0) + 1]
  }

  /** Adding the counts of the distinct names. */
  function SumCounts(ns: seq<string>, events: seq<AnalyticsEvent>): nat {
    if ns == [] then 0 else SumCounts(ns[..|ns| - 1], events) + Count(events, ns[|ns| - 1])
  }

  datatype Stats = Stats(totalEvents: nat, sessionDuration: int, eventsByType: map<string, nat>)

  class AnalyticsService {
    var events: seq<AnalyticsEvent>
    /** `sessionStart`, in milliseconds. */
    var sessionStart: int

    constructor(nowMs: int)
      ensures events == [] && sessionStart == nowMs
    {
      events := [];
      sessionStart := nowMs;
    }

    /** `logEvent`: exactly one event is appended. */
    method LogEvent(eventName: string, params: Option<map<string, Value>>, nowIso: string)
      modifies this
      ensures events == old(events) + [AnalyticsEvent(eventName, params, nowIso)]
      ensures sessionStart == old(sessionStart)
    {
      var event := AnalyticsEvent(eventName, params, nowIso);
      events := events + [event];
    }

    method LogScreenView(screenName: string, nowIso: string)
      modifies this
      ensures events == old(events) + [AnalyticsEvent("screen_view",
        Some(map["screen_name" := Str(screenName), "screen_class" := Str(screenName)]), nowIso)]
      ensures sessionStart == old(sessionStart)
    {
      LogEvent("screen_view", Some(map["screen_name" := Str(screenName), "screen_class" := Str(screenName)]), nowIso);
    }

    method LogDreamCreated(dreamLength: int, energy: int, nowIso: string)
      modifies this
      ensures events == old(events) + [AnalyticsEvent("dream_created", Some(map[
        "dream_length" := Number(dreamLength), "energy_level" := Number(energy),
        "energy_category" := Str(EnergyCategory(energy))]), nowIso)]
      ensures sessionStart == old(sessionStart)
    {
      LogEvent("dream_created", Some(map[
        "dream_length" := Number(dreamLength), "energy_level" := Number(energy),
        "energy_category" := Str(EnergyCategory(energy))]), nowIso);
    }

    method LogDreamSaved(dreamId: string, energy: int, nowIso: string)
      modifies this
      ensures events == old(events) + [AnalyticsEvent("dream_saved",
        Some(map["dream_id" := Str(dreamId), "energy_level" := Number(energy)]), nowIso)]
      ensures sessionStart == old(sessionStart)
    {
      LogEvent("dream_saved", Some(map["dream_id" := Str(dreamId), "energy_level" := Number(energy)]), nowIso);
    }

    method LogDreamDeleted(dreamId: string, nowIso: string)
      modifies this
      ensures events == old(events) + [AnalyticsEvent("dream_deleted", Some(map["dream_id" := Str(dreamId)]), nowIso)]
      ensures sessionStart == old(sessionStart)
    {
      LogEvent("dream_deleted", Some(map["dream_id" := Str(dreamId)]), nowIso);
    }

    method LogFavoriteToggled(dreamId: string, isFavorite: bool, nowIso: string)
      modifies this
      ensures events == old(events) + [AnalyticsEvent("favorite_toggled",
        Some(map["dream_id" := Str(dreamId), "is_favorite" := Bool(isFavorite)]), nowIso)]
      ensures sessionStart == old(sessionStart)
    {
      LogEvent("favorite_toggled", Some(map["dream_id" := Str(dreamId), "is_favorite" := Bool(isFavorite)]), nowIso);
    }

    method LogShare(shareType: ShareType, success: bool, nowIso: string)
      modifies this
      ensures events == old(events) + [AnalyticsEvent("dream_shared",
        Some(map["share_type" := Str(ShareTypeText(shareType)), "success" := Bool(success)]), nowIso)]
      ensures sessionStart == old(sessionStart)
    {
      LogEvent("dream_shared", Some(map["share_type" := Str(ShareTypeText(shareType)), "success" := Bool(success)]), nowIso);
    }

    method LogProfileView(userId: string, nowIso: string)
      modifies this
      ensures events == old(events) + [AnalyticsEvent("profile_viewed", Some(map["user_id" := Str(userId)]), nowIso)]
      ensures sessionStart == old(sessionStart)
    {
      LogEvent("profile_viewed", Some(map["user_id" := Str(userId)]), nowIso);
    }

    method LogSearch(query: string, resultsCount: int, nowIso: string)
      modifies this
      ensures events == old(events) + [AnalyticsEvent("search_performed",
        Some(map["query_length" := Number(|query|), "results_count" := Number(resultsCount)]), nowIso)]
      ensures sessionStart == old(sessionStart)
    {
      LogEvent("search_performed", Some(map["query_length" := Number(|query|), "results_count" := Number(resultsCount)]), nowIso);
    }

    method LogFilterUsed(filterType: string, filterValue: string, nowIso: string)
      modifies this
      ensures events == old(events) + [AnalyticsEvent("filter_used",
        Some(map["filter_type" := Str(filterType), "filter_value" := Str(filterValue)]), nowIso)]
      ensures sessionStart == old(sessionStart)
    {
      LogEvent("filter_used", Some(map["filter_type" := Str(filterType), "filter_value" := Str(filterValue)]), nowIso);
    }

    /** `getSessionDuration`. */
    function SessionDuration(nowMs: int): int
      reads this
    {
      nowMs - sessionStart
    }

    /** `logSessionEnd`: `events_count` is the size of the log before this event joins it. */
    method LogSessionEnd(nowMs: int, nowIso: string)
      modifies this
      ensures events == old(events) + [AnalyticsEvent("session_end", Some(map[
        "duration_ms" := Number(nowMs - old(sessionStart)),
        "duration_min" := Number(RoundMinutes(nowMs - old(sessionStart))),
        "events_count" := Number(|old(events)|)]), nowIso)]
      ensures sessionStart == old(sessionStart)
    {
      var duration := SessionDuration(nowMs);
      LogEvent("session_end", Some(map[
        "duration_ms" := Number(duration),
        "duration_min" := Number(RoundMinutes(duration)),
        "events_count" := Number(|events|)]), nowIso);
    }

    /** `getStats`: the size of the log, the session length and the per-name tally. */
    function GetStats(nowMs: int): (s: Stats)
      reads this
      ensures s.totalEvents == |events|
      ensures s.sessionDuration == nowMs - sessionStart
      ensures forall n :: n in s.eventsByType <==> n in Names(events)
      ensures forall n :: n in s.eventsByType ==> s.eventsByType[n] == Count(events, n)
    {
      TallyCounts(events);
      Stats(|events|, SessionDuration(nowMs), Tally(events))
    }

    /** `clearEvents`: the log is empty afterwards. */
    method ClearEvents()
      modifies this
      ensures events == [] && sessionStart == old(sessionStart)
    {
      events := [];
    }
  }

  /** The tally holds one entry per distinct name, with that name's count. */
  lemma {:induction false} TallyCounts(events: seq<AnalyticsEvent>)
    ensures forall n :: n in Tally(events) <==> n in Names(events)
    ensures forall n :: n in Tally(events) ==> Tally(events)[n] == Count(events, n)
  {
    if events != [] {
      var init := events[..|events| - 1];
      TallyCounts(init);
      if events[|events| - 1].name !in Names(init) {
        CountAbsent(init, events[|events| - 1].name);
      }
    }
  }

  /** The distinct names really are distinct. */
  lemma {:induction false} NamesDistinct(events: seq<AnalyticsEvent>)
    ensures Distinct(Names(events))
  {
    if events != [] {
      NamesDistinct(events[..|events| - 1]);
    }
  }

  /** One more event adds one to the count of exactly its own name among distinct names. */
  lemma {:induction false} SumCountsStep(ns: seq<string>, events: seq<AnalyticsEvent>, e: AnalyticsEvent)
    requires Distinct(ns)
    ensures SumCounts(ns, events + [e]) == SumCounts(ns, events) + (if e.name in ns then 1 else 0)
  {
    assert (events + [e])[..|events|] == events;
    if ns != [] {
      var init := ns[..|ns| - 1];
      assert Distinct(init);
      SumCountsStep(init, events, e);
      assert e.name in ns <==> e.name in init || e.name == ns[|ns| - 1];
    }
  }

  /** A name that never occurs counts zero. */
  lemma {:induction false} CountAbsent(events: seq<AnalyticsEvent>, name: string)
    requires name !in Names(events)
    ensures Count(events, name) == 0
  {
    if events != [] {
      CountAbsent(events[..|events| - 1], name);
    }
  }

  /** The per-name counts of `getStats` add up to `totalEvents`. */
  lemma {:induction false} CountsSumToTotal(events: seq<AnalyticsEvent>)
    ensures SumCounts(Names(events), events) == |events|
  {
    if events != [] {
      var init := events[..|events| - 1];
      var e := events[|events| - 1];
      assert events == init + [e];
      CountsSumToTotal(init);
      NamesDistinct(init);
      SumCountsStep(Names(init), init, e);
      if e.name !in Names(init) {
        CountAbsent(init, e.name);
        var ns := Names(init);
        assert Names(events) == ns + [e.name];
        assert (ns + [e.name])[..|ns|] == ns;
        assert Count(events, e.name) == 1;
      }
    }
  }
}
