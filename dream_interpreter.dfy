/**
 * The interpretation pipeline of the backend: the prompt context built from
 * the user's recent dreams and the symbol dictionary, the provider cascade
 * (Gemini, then Groq, then the canned demo reply), and the file-backed
 * list of saved dreams with append and owner-checked delete.
 */
module DreamInterpreter {
  import opened Wrappers
  import opened Text
  import opened Sequences
  import opened Sorting
  import opened JsValue
  import opened AiConfig
  import opened AiProvider
  import opened DreamSymbols
  import opened DemoData
  import Sentiment

  datatype Dream = Dream(
    id: string, userId: string, dreamText: string, interpretation: string,
    energy: int, symbols: seq<string>, sentiment: string, date: string, isFavorite: bool)

  /** The fields of a dream to save. */
  datatype DreamData = DreamData(userId: string, dreamText: string, interpretation: string, energy: int, symbols: seq<string>)

  /** The dreams file: absent, unreadable or not JSON, or the stored list. */
  datatype DreamFile = Missing | Corrupt | Stored(dreams: seq<Dream>)

  /** `allDreams.filter(d => d.userId === userId)`. */
  function OwnedBy(dreams: seq<Dream>, userId: Value): (r: seq<Dream>)
    ensures forall d :: d in r <==> d in dreams && Str(d.userId) == userId
    ensures Subsequence(r, dreams)
  {
    FilterSubsequence(dreams, (d: Dream) => Str(d.userId) == userId);
    Filter(dreams, (d: Dream) => Str(d.userId) == userId)
  }

  /** The first position holding the dream `dreamId` owned by `userId`. */
  function FindDream(dreams: seq<Dream>, dreamId: string, userId: string): (r: Option<nat>)
    ensures r.Some? ==> r.value < |dreams| && dreams[r.value].id == dreamId && dreams[r.value].userId == userId
    ensures r.Some? ==> forall j :: 0 <= j < r.value ==> !(dreams[j].id == dreamId && dreams[j].userId == userId)
    ensures r.None? ==> forall j :: 0 <= j < |dreams| ==> !(dreams[j].id == dreamId && dreams[j].userId == userId)
  {
    if dreams == [] then None
    else if dreams[0].id == dreamId && dreams[0].userId == userId then Some(0)
    else
      match FindDream(dreams[1..], dreamId, userId)
      case None => None
      case Some(k) => Some(k + 1)
  }

  /** The record `saveDream` appends: the data, a fresh id and date, the text's sentiment, not a favourite. */
  function NewDream(data: DreamData, id: string, date: string): Dream {
    Dream(id, data.userId, data.dreamText, data.interpretation, data.energy, data.symbols,
      Sentiment.LabelName(Sentiment.SentimentOf(data.dreamText)), date, false)
  }

  /** The id `dream-<milliseconds>-<random base-36 part>`. */
  function DreamId(nowMs: int, randomPart: string): string {
    "dream-" + IntToText(nowMs) + "-" + randomPart
  }

  /** The `data/dreams.json` file of the backend. */
  class DreamStore {
    var file: DreamFile

    constructor(initial: DreamFile)
      ensures file == initial
    {
      file := initial;
    }

    /** `getDreamHistory`: the user's dreams in stored order, `[]` when the file is missing or unreadable. */
    function History(userId: Value): (r: seq<Dream>)
      reads this
      ensures file.Stored? ==> forall d :: d in r <==> d in file.dreams && Str(d.userId) == userId
      ensures file.Stored? ==> Subsequence(r, file.dreams)
      ensures !file.Stored? ==> r == []
    {
      if file.Stored? then OwnedBy(file.dreams, userId) else []
    }

    /**
     * `saveDream`: a missing file starts an empty list, an unreadable one
     * makes the call throw; otherwise exactly one new record is appended.
     */
    method SaveDream(data: DreamData, nowMs: int, randomPart: string, date: string) returns (r: Result<Dream>)
      modifies this
      ensures old(file).Corrupt? ==> r.Failure? && file == old(file)
      ensures !old(file).Corrupt? ==> r == Success(NewDream(data, DreamId(nowMs, randomPart), date))
      ensures old(file).Missing? ==> file == Stored([NewDream(data, DreamId(nowMs, randomPart), date)])
      ensures old(file).Stored? ==> file == Stored(old(file).dreams + [NewDream(data, DreamId(nowMs, randomPart), date)])
    {
      var allDreams: seq<Dream> := [];
      if file.Corrupt? {
        return Failure("SyntaxError: Unexpected token in JSON");
      }
      if file.Stored? {
        allDreams := file.dreams;
      }
      var newDream := NewDream(data, DreamId(nowMs, randomPart), date);
      allDreams := allDreams + [newDream];
      file := Stored(allDreams);
      r := Success(newDream);
    }

    /**
     * `deleteDream`: removes the first dream with this id and owner. With no
     * file, an unreadable file or no such dream it throws and writes nothing.
     */
    method DeleteDream(dreamId: string, userId: string) returns (r: Result<()>)
      modifies this
      ensures old(file).Missing? ==> r == Failure("Rüya bulunamadı") && file == old(file)
      ensures old(file).Corrupt? ==> r.Failure? && file == old(file)
      ensures old(file).Stored? && FindDream(old(file).dreams, dreamId, userId).None? ==>
        r == Failure("Rüya bulunamadı veya yetkiniz yok") && file == old(file)
      ensures old(file).Stored? && FindDream(old(file).dreams, dreamId, userId).Some? ==>
        r == Success(()) && file == Stored(RemoveAt(old(file).dreams, FindDream(old(file).dreams, dreamId, userId).value))
    {
      if file.Missing? {
        return Failure("Rüya bulunamadı");
      }
      if file.Corrupt? {
        return Failure("SyntaxError: Unexpected token in JSON");
      }
      var allDreams := file.dreams;
      var dreamIndex := 0;
      while dreamIndex < |allDreams| && !(allDreams[dreamIndex].id == dreamId && allDreams[dreamIndex].userId == userId)
        invariant 0 <= dreamIndex <= |allDreams|
        invariant forall j :: 0 <= j < dreamIndex ==> !(allDreams[j].id == dreamId && allDreams[j].userId == userId)
      {
        dreamIndex := dreamIndex + 1;
      }
      if dreamIndex == |allDreams| {
        return Failure("Rüya bulunamadı veya yetkiniz yok");
      }
      allDreams := RemoveAt(allDreams, dreamIndex);
      file := Stored(allDreams);
      r := Success(());
    }
  }

  /** Deleting keeps every other dream, in order, and removes one copy of the matched one. */
  lemma DeleteKeepsOthers(dreams: seq<Dream>, dreamId: string, userId: string)
    requires FindDream(dreams, dreamId, userId).Some?
    ensures var k := FindDream(dreams, dreamId, userId).value;
      var rest := RemoveAt(dreams, k);
      dreams == rest[..k] + [dreams[k]] + rest[k..] &&
      multiset(rest) + multiset{dreams[k]} == multiset(dreams)
  {
    var k := FindDream(dreams, dreamId, userId).value;
    var rest := RemoveAt(dreams, k);
    assert dreams == dreams[..k] + [dreams[k]] + dreams[k + 1..];
    assert rest[..k] == dreams[..k];
    assert rest[k..] == dreams[k + 1..];
  }

  // ---------------------------------------------------------------------
  // History context

  const HistoryHeader: string :=
    "KULLANICI RÜYA GEÇMİŞİ (SON 5 RÜYA):\n" +
    "Bu bilgileri kullanıcının psikolojik durumunu ve rüya desenlerini anlamak için kullan:\n\n"

  /** The at most five newest dreams: a stable sort by date, newest first, then `slice(0, 5)`. */
  function RecentDreams(history: seq<Dream>, dateMs: string -> int): (r: seq<Dream>)
    ensures |r| == if |history| < 5 then |history| else 5
    ensures SortedDesc(r, (d: Dream) => dateMs(d.date))
    ensures forall d :: d in r ==> d in history
  {
    var key := (d: Dream) => dateMs(d.date);
    var sorted := SortDesc(history, key);
    SortDescSorted(history, key);
    PrefixSorted(sorted, 5, key);
    SortDescSameElements(history, key);
    Prefix(sorted, 5)
  }

  /** No dream left out of the five is newer than one put in. */
  lemma RecentAreNewest(history: seq<Dream>, dateMs: string -> int, i: int, j: int)
    requires 0 <= i < |RecentDreams(history, dateMs)| <= j < |history|
    ensures dateMs(RecentDreams(history, dateMs)[i].date) >= dateMs(SortDesc(history, (d: Dream) => dateMs(d.date))[j].date)
  {
    var key := (d: Dream) => dateMs(d.date);
    SortDescSorted(history, key);
  }

  /** The heading of the summary numbered `i + 1`. */
  function SummaryHead(i: nat): string {
    "RÜYA #" + IntToText(i + 1) + " ("
  }

  function SummaryBody(d: Dream, localeDate: string -> string): string {
    localeDate(d.date) + "):\n"
    + "      \"Açıklama: " + Take(d.dreamText, 150) + "...\"\n"
    + "      \"Semboller: " + Join(d.symbols, ", ") + "\"\n"
    + "      \"Duygu Durumu: Enerji " + IntToText(d.energy) + "/100"
  }

  /** One numbered summary, `i` counting from 0. */
  function DreamSummary(d: Dream, i: nat, localeDate: string -> string): (r: string)
    ensures StartsWith(r, SummaryHead(i))
  {
    var head := SummaryHead(i);
    assert (head + SummaryBody(d, localeDate))[..|head|] == head;
    head + SummaryBody(d, localeDate)
  }

  function Summaries(recent: seq<Dream>, localeDate: string -> string): (r: seq<string>)
    ensures |r| == |recent|
    ensures forall i :: 0 <= i < |r| ==> r[i] == DreamSummary(recent[i], i, localeDate)
  {
    seq(|recent|, i requires 0 <= i < |recent| => DreamSummary(recent[i], i, localeDate))
  }

  /** `getRecentDreamsContext` on the user's history. */
  function RecentDreamsContext(history: seq<Dream>, dateMs: string -> int, localeDate: string -> string): (r: string)
    ensures history != [] ==> StartsWith(r, HistoryHeader)
  {
    if history == [] then ""
    else
      var body := Join(Summaries(RecentDreams(history, dateMs), localeDate), "\n\n");
      assert (HistoryHeader + body)[..|HistoryHeader|] == HistoryHeader;
      HistoryHeader + body
  }

  /** The history context is empty exactly when the user has no dreams. */
  lemma RecentContextEmptyIff(history: seq<Dream>, dateMs: string -> int, localeDate: string -> string)
    ensures RecentDreamsContext(history, dateMs, localeDate) == "" <==> history == []
  {
  }

  /** Each of the chosen dreams appears under its number, counted from 1. */
  lemma RecentContextNumbered(history: seq<Dream>, dateMs: string -> int, localeDate: string -> string, i: int)
    requires 0 <= i < |RecentDreams(history, dateMs)|
    ensures Contains(RecentDreamsContext(history, dateMs, localeDate), DreamSummary(RecentDreams(history, dateMs)[i], i, localeDate))
  {
    var parts := Summaries(RecentDreams(history, dateMs), localeDate);
    JoinContains(parts, "\n\n", i);
    ContainsInRight(HistoryHeader, Join(parts, "\n\n"), parts[i]);
  }

  /** The history context, then the symbol context after a blank line; either alone when the other is empty. */
  function CombineContext(history: string, symbolContext: string): (r: string)
    ensures symbolContext == "" ==> r == history
    ensures history == "" ==> r == symbolContext
    ensures StartsWith(r, history) && EndsWith(r, symbolContext)
  {
    if symbolContext == "" then
      assert history[..|history|] == history;
      assert history[|history|..] == symbolContext;
      history
    else if history == "" then
      assert symbolContext[..0] == history;
      assert symbolContext[|symbolContext| - |symbolContext|..] == symbolContext;
      symbolContext
    else
      EndsWithAppend(history + "\n\n", symbolContext);
      assert (history + "\n\n" + symbolContext)[..|history|] == history;
      history + "\n\n" + symbolContext
  }

  // ---------------------------------------------------------------------
  // Provider cascade

  /** The demo reply in the shape of a provider reply: symbols become `{name, meaning}` objects. */
  function DemoAsReply(demo: DemoReply): (r: Reply)
    ensures r.interpretation == Str(demo.interpretation) && r.energy == Number(demo.energy)
    ensures r.symbols.Arr? && |r.symbols.items| == |demo.symbols|
    ensures forall i :: 0 <= i < |demo.symbols| ==>
      r.symbols.items[i] == Obj(map["name" := Str(demo.symbols[i].name), "meaning" := Str(demo.symbols[i].meaning)])
  {
    Reply(Str(demo.interpretation), Number(demo.energy),
      Arr(seq(|demo.symbols|, i requires 0 <= i < |demo.symbols| =>
        Obj(map["name" := Str(demo.symbols[i].name), "meaning" := Str(demo.symbols[i].meaning)]))))
  }

  /**
   * The outside world the interpreter consults, as pure functions, and the
   * two configuration tables it reads: the personas (the shipped one is
   * `AiConfig.Personas`) and the canned replies (`DemoData.Shipped`).
   */
  datatype Services = Services(
    keys: ApiKeys,
    generate: (string, string) -> Option<string>,
    chat: string -> Option<string>,
    parse: string -> Option<Value>,
    dateMs: string -> int,
    localeDate: string -> string,
    personas: map<string, Persona>,
    demo: DemoSet)

  /** What the Gemini step yields: the factory's error when there is no key, else the call's outcome. */
  function GeminiStep(svc: Services, dreamText: string, context: string, persona: Option<Value>, userName: Option<Value>): (r: Result<Reply>)
    ensures svc.keys.gemini == "" ==> r.Failure?
    ensures svc.keys.gemini != "" ==> r == GeminiCall(svc, dreamText, context, persona, userName)
  {
    var provider := CreateProvider(Some(GeminiPro), svc.keys);
    if provider.Success? then GeminiCall(svc, dreamText, context, persona, userName)
    else Failure(provider.error)
  }

  /** One call of the configured Gemini model. */
  function GeminiCall(svc: Services, dreamText: string, context: string, persona: Option<Value>, userName: Option<Value>): Result<Reply> {
    GeminiOutcome(svc.personas, GeminiModelName, svc.generate, svc.parse, dreamText, context, persona, userName)
  }

  /** What the Groq step yields: the factory's error when there is no key, else the call's outcome. */
  function GroqStep(svc: Services, dreamText: string, context: string): (r: Result<Reply>)
    ensures svc.keys.groq == "" ==> r.Failure?
    ensures svc.keys.groq != "" ==> r == GroqOutcome(svc.chat, svc.parse, dreamText, context)
  {
    var provider := CreateProvider(Some(GroqLlama3), svc.keys);
    if provider.Success? then GroqOutcome(svc.chat, svc.parse, dreamText, context)
    else Failure(provider.error)
  }

  /** Gemini, then Groq, then the demo reply: the first step that does not throw wins. */
  function Cascade(svc: Services, dreamText: string, context: string, persona: Option<Value>, userName: Option<Value>): Reply {
    var first := GeminiStep(svc, dreamText, context, persona, userName);
    if first.Success? then first.value
    else
      var second := GroqStep(svc, dreamText, context);
      if second.Success? then second.value
      else DemoAsReply(GetDemoInterpretation(svc.demo, dreamText))
  }

  /** A Gemini reply is used whenever Gemini is configured and its call succeeds. */
  lemma CascadePrefersGemini(svc: Services, dreamText: string, context: string, persona: Option<Value>, userName: Option<Value>)
    requires svc.keys.gemini != ""
    requires GeminiCall(svc, dreamText, context, persona, userName).Success?
    ensures Cascade(svc, dreamText, context, persona, userName) == GeminiCall(svc, dreamText, context, persona, userName).value
  {
  }

  /** Without a Gemini key, or when Gemini throws, a successful Groq reply is used. */
  lemma CascadeFallsToGroq(svc: Services, dreamText: string, context: string, persona: Option<Value>, userName: Option<Value>)
    requires svc.keys.gemini == "" || GeminiCall(svc, dreamText, context, persona, userName).Failure?
    requires svc.keys.groq != "" && GroqOutcome(svc.chat, svc.parse, dreamText, context).Success?
    ensures Cascade(svc, dreamText, context, persona, userName) == GroqOutcome(svc.chat, svc.parse, dreamText, context).value
  {
  }

  /**
   * When no provider answers, the reply is the demo one: a list of
   * `{name, meaning}` objects, and for a well-shaped table one symbol and
   * an energy on the 0..100 scale.
   */
  lemma CascadeFallsToDemo(svc: Services, dreamText: string, context: string, persona: Option<Value>, userName: Option<Value>)
    requires svc.keys.gemini == "" || GeminiCall(svc, dreamText, context, persona, userName).Failure?
    requires svc.keys.groq == "" || GroqOutcome(svc.chat, svc.parse, dreamText, context).Failure?
    ensures var r := Cascade(svc, dreamText, context, persona, userName);
      r == DemoAsReply(GetDemoInterpretation(svc.demo, dreamText)) &&
      r.energy.Number? && r.symbols.Arr? &&
      (forall v :: v in r.symbols.items ==> v.Obj? && "name" in v.fields && "meaning" in v.fields) &&
      (Shaped(svc.demo) ==> |r.symbols.items| == 1 && 0 <= r.energy.n <= 100)
  {
    var demo := GetDemoInterpretation(svc.demo, dreamText);
    var r := DemoAsReply(demo);
    forall v | v in r.symbols.items
      ensures v.Obj? && "name" in v.fields && "meaning" in v.fields
    {
      var i :| 0 <= i < |r.symbols.items| && r.symbols.items[i] == v;
      assert v == Obj(map["name" := Str(demo.symbols[i].name), "meaning" := Str(demo.symbols[i].meaning)]);
    }
  }

  /** The context handed to the providers: the user's history (when a user id is given), then the symbol references. */
  function InterpretContext(history: seq<Dream>, userId: Option<Value>, dateMs: string -> int,
    localeDate: string -> string, symbolContext: string): (r: string)
    ensures !Present(userId) ==> r == symbolContext
    ensures StartsWith(r, if Present(userId) then RecentDreamsContext(history, dateMs, localeDate) else "")
    ensures EndsWith(r, symbolContext)
  {
    CombineContext(if Present(userId) then RecentDreamsContext(history, dateMs, localeDate) else "", symbolContext)
  }

  /** The reply `interpretDream` settles on, given the user's history and the symbol table it loads. */
  function Interpretation(svc: Services, history: seq<Dream>, table: SymbolTable, dreamText: string,
    userId: Option<Value>, persona: Option<Value>, userName: Option<Value>): Reply
  {
    var context := InterpretContext(history, userId, svc.dateMs, svc.localeDate, ContextText(table, dreamText));
    Cascade(svc, dreamText, context, persona, userName)
  }

  /** The new cache of the symbol loader after one load. */
  function CacheAfterLoad(cached: Option<SymbolTable>, file: SymbolFile): Option<SymbolTable> {
    if cached.Some? then cached else if file.Parsed? then Some(file.table) else None
  }

  /**
   * `interpretDream`: build the context, then run the cascade. It never
   * throws; the only state it touches is the symbol dictionary's cache.
   */
  method InterpretDream(
    store: DreamStore, loader: SymbolLoader, symbolFile: SymbolFile, svc: Services,
    dreamText: string, userId: Option<Value>, persona: Option<Value>, userName: Option<Value>)
    returns (r: Reply)
    modifies loader
    ensures r == Interpretation(svc, store.History(userId.GetOr(Null)), LoadedTable(old(loader.cached), symbolFile),
      dreamText, userId, persona, userName)
    ensures loader.cached == CacheAfterLoad(old(loader.cached), symbolFile)
  {
    var context := "";
    if Present(userId) {
      context := RecentDreamsContext(store.History(userId.value), svc.dateMs, svc.localeDate);
    }
    var symbolContext := loader.ExtractDreamContext(symbolFile, dreamText);
    context := CombineContext(context, symbolContext);

    var gemini := GeminiStep(svc, dreamText, context, persona, userName);
    if gemini.Success? {
      return gemini.value;
    }
    var groq := GroqStep(svc, dreamText, context);
    if groq.Success? {
      return groq.value;
    }
    var demoResponse := GetDemoInterpretation(svc.demo, dreamText);
    r := DemoAsReply(demoResponse);
  }
}
