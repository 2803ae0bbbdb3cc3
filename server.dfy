/**
 * The Express backend: input validation, the interpretation endpoint with
 * its response cache and hit/miss counters, the two keyword heuristics, and
 * the validation and ordering of the Firestore-backed dream endpoints.
 * The rate limiters are an admission flag decided outside the model, and
 * Firestore is a function from a document to its new id.
 */
module Server {
  import opened Wrappers
  import opened Text
  import opened Sequences
  import opened Sorting
  import opened JsValue
  import opened AiProvider
  import opened DreamSymbols
  import opened DreamInterpreter

  // ---------------------------------------------------------------------
  // Responses and admission

  /** A status code and a JSON body. */
  datatype Http = Http(status: nat, body: Value)

  function ErrorBody(message: string): Value {
    Obj(map["error" := Str(message)])
  }

  /** The window and limit of the interpretation limiter; the dream endpoints allow 50 per window. */
  const WindowMs: nat := 15 * 60 * 1000
  const InterpretMax: nat := 20
  const DreamsMax: nat := 50

  const InterpretLimited: string := "Çok fazla istek gönderdiniz. Lütfen 15 dakika sonra tekrar deneyin."
  const DreamsLimited: string := "Çok fazla istek gönderdiniz. Lütfen biraz bekleyin."

  // ---------------------------------------------------------------------
  // Validation

  datatype Validation = Valid | Invalid(error: string)

  const TextRequired: string := "Rüya metni gerekli"
  const TextBlank: string := "Rüya metni boş olamaz"
  const TextShort: string := "Rüya metni en az 10 karakter olmalı"
  const TextLong: string := "Rüya metni en fazla 5000 karakter olabilir"

  /** `validateDreamText`: a string whose trimmed length lies in [10, 5000]. */
  function ValidateDreamText(text: Option<Value>): (v: Validation)
    ensures v.Invalid? ==> v.error in {TextRequired, TextBlank, TextShort, TextLong}
    ensures v == Invalid(TextRequired) <==> !Present(text) || !text.value.Str?
  {
    if !Present(text) || !text.value.Str? then Invalid(TextRequired)
    else
      var trimmed := Trim(text.value.s);
      if |trimmed| == 0 then Invalid(TextBlank)
      else if |trimmed| < 10 then Invalid(TextShort)
      else if |trimmed| > 5000 then Invalid(TextLong)
      else Valid
  }

  /** A text is accepted exactly when it is a string with 10 to 5000 characters once trimmed. */
  lemma ValidIff(text: Option<Value>)
    ensures ValidateDreamText(text).Valid? <==> text.Some? && text.value.Str? && 10 <= |Trim(text.value.s)| <= 5000
  {
  }

  /** A non-empty string of white space only is blank rather than missing. */
  lemma BlankIsNotMissing(s: string)
    requires s != "" && AllSpace(s)
    ensures ValidateDreamText(Some(Str(s))) == Invalid(TextBlank)
  {
    TrimPrependSpaces(s, []);
    assert s + [] == s;
  }

  // ---------------------------------------------------------------------
  // Cache key

  /** `(v || '')` inside a string concatenation. */
  function Part(v: Option<Value>): string {
    if Present(v) then ToText(v.value) else ""
  }

  /** The text digested for the key: lower-cased, then trimmed. */
  function KeyText(text: string, userId: Option<Value>, persona: Option<Value>): string {
    Trim(Lower(text + Part(userId) + Part(persona)))
  }

  /** `getCacheKey(sanitizedText + (userId || '') + (persona || ''))`, MD5 being `md5`. */
  function CacheKey(md5: string -> string, text: string, userId: Option<Value>, persona: Option<Value>): (k: string)
    ensures k == md5(KeyText(text, userId, persona))
  {
    md5(Trim(Lower(text + Part(userId) + Part(persona))))
  }

  /** The key only sees the concatenation: requests whose parts concatenate equally up to case share an entry. */
  lemma CacheKeyOfConcatenation(md5: string -> string,
    t1: string, u1: Option<Value>, p1: Option<Value>, t2: string, u2: Option<Value>, p2: Option<Value>)
    requires Lower(t1 + Part(u1) + Part(p1)) == Lower(t2 + Part(u2) + Part(p2))
    ensures CacheKey(md5, t1, u1, p1) == CacheKey(md5, t2, u2, p2)
  {
  }

  /** Without separators, a different split between user id and persona gives the same key. */
  lemma CacheKeySplitCollides(md5: string -> string, text: string)
    ensures CacheKey(md5, text, Some(Str("ab")), Some(Str("c"))) == CacheKey(md5, text, Some(Str("a")), Some(Str("bc")))
  {
    assert Part(Some(Str("ab"))) == "ab" && Part(Some(Str("c"))) == "c";
    assert Part(Some(Str("a"))) == "a" && Part(Some(Str("bc"))) == "bc";
    assert text + "ab" + "c" == text + ['a', 'b', 'c'];
    assert text + "a" + "bc" == text + ['a', 'b', 'c'];
  }

  // ---------------------------------------------------------------------
  // Response shaping

  /** A bare string symbol becomes `{name, meaning: ''}`; anything else passes unchanged. */
  function CoerceSymbol(v: Value): (r: Value)
    ensures v.Str? ==> r == Obj(map["name" := v, "meaning" := Str("")])
    ensures !v.Str? ==> r == v
  {
    if v.Str? then Obj(map["name" := v, "meaning" := Str("")]) else v
  }

  function CoerceSymbols(items: seq<Value>): (r: seq<Value>)
    ensures |r| == |items|
    ensures forall i :: 0 <= i < |r| ==> r[i] == CoerceSymbol(items[i])
    ensures forall i :: 0 <= i < |r| ==> !r[i].Str?
  {
    seq(|items|, i requires 0 <= i < |items| => CoerceSymbol(items[i]))
  }

  /** The response object of `/api/interpret`; `symbols.map` throws when the symbols are not an array. */
  function ResponseOf(reply: Reply): (r: Result<Value>)
    ensures r.Success? <==> reply.symbols.Arr?
    ensures r.Success? ==> r.value.Obj? && "interpretation" in r.value.fields && "energy" in r.value.fields
    ensures r.Success? ==> r.value.Obj? && "symbols" in r.value.fields && r.value.fields["symbols"] == Arr(CoerceSymbols(reply.symbols.items))
  {
    if reply.symbols.Arr? then
      Success(Obj(map["interpretation" := reply.interpretation, "energy" := reply.energy,
        "symbols" := Arr(CoerceSymbols(reply.symbols.items))]))
    else Failure("TypeError: result.symbols.map is not a function")
  }

  /** When no provider answers, the endpoint still has a response: the demo reply always has a symbol array. */
  lemma DemoResponds(svc: Services, dreamText: string)
    ensures ResponseOf(DemoAsReply(DemoData.GetDemoInterpretation(svc.demo, dreamText))).Success?
  {
  }

  /** The request passed the limiter and carries a valid dream text. */
  predicate Accepted(admitted: bool, body: map<string, Value>) {
    admitted && ValidateDreamText(Field(body, "dreamText")).Valid?
  }

  /** The sanitised text of an accepted request. */
  function RequestText(body: map<string, Value>): string
    requires ValidateDreamText(Field(body, "dreamText")).Valid?
  {
    Trim(Field(body, "dreamText").value.s)
  }

  /** The cache key of an accepted request. */
  function RequestKey(md5: string -> string, body: map<string, Value>): string
    requires ValidateDreamText(Field(body, "dreamText")).Valid?
  {
    CacheKey(md5, RequestText(body), Field(body, "userId"), Field(body, "persona"))
  }

  const InterpretFailed: string := "Yorumlama sırasında hata oluştu"

  /** A cached response counts as a hit only when it is truthy. */
  predicate Hit(cache: map<string, Value>, key: string) {
    key in cache && Truthy(cache[key])
  }

  /** The backend process: its response cache and the two counters. */
  class Backend {
    var cache: map<string, Value>
    var cacheHits: nat
    var cacheMisses: nat

    /** Every cached response is a response object. */
    predicate Valid()
      reads this
    {
      forall k :: k in cache ==> cache[k].Obj? && "symbols" in cache[k].fields
    }

    constructor()
      ensures Valid()
      ensures cache == map[] && cacheHits == 0 && cacheMisses == 0
    {
      cache := map[];
      cacheHits := 0;
      cacheMisses := 0;
    }

    /** The response a miss settles on: the interpreted reply, shaped for the client. */
    static function MissOutcome(svc: Services, store: DreamStore, cached: Option<SymbolTable>, symbolFile: SymbolFile,
      text: string, userId: Option<Value>, persona: Option<Value>, userName: Option<Value>): Result<Value>
      reads store
    {
      ResponseOf(Interpretation(svc, store.History(userId.GetOr(Null)), LoadedTable(cached, symbolFile), text, userId, persona, userName))
    }

    /** Shape a fresh reply for the client and, when that succeeds, store it under the key. */
    method StoreReply(key: string, reply: Reply) returns (res: Http)
      requires Valid()
      modifies this
      ensures Valid()
      ensures cacheHits == old(cacheHits) && cacheMisses == old(cacheMisses)
      ensures ResponseOf(reply).Success? ==>
        res == Http(200, ResponseOf(reply).value) && cache == old(cache)[key := ResponseOf(reply).value]
      ensures ResponseOf(reply).Failure? ==> res == Http(500, ErrorBody(InterpretFailed)) && cache == old(cache)
    {
      var response := ResponseOf(reply);
      if response.Failure? {
        return Http(500, ErrorBody(InterpretFailed));
      }
      cache := cache[key := response.value];
      res := Http(200, response.value);
    }

    /** After a counted miss: interpret, and store a successful response under the key. */
    method Miss(key: string, text: string, userId: Option<Value>, persona: Option<Value>, userName: Option<Value>,
      store: DreamStore, loader: SymbolLoader, symbolFile: SymbolFile, svc: Services)
      returns (res: Http, ghost reply: Reply)
      requires Valid()
      modifies this, loader
      ensures Valid()
      ensures cacheHits == old(cacheHits) && cacheMisses == old(cacheMisses)
      ensures loader.cached == CacheAfterLoad(old(loader.cached), symbolFile)
      ensures reply == Interpretation(svc, store.History(userId.GetOr(Null)), LoadedTable(old(loader.cached), symbolFile),
        text, userId, persona, userName)
      ensures ResponseOf(reply).Success? ==>
        res == Http(200, ResponseOf(reply).value) && cache == old(cache)[key := ResponseOf(reply).value]
      ensures ResponseOf(reply).Failure? ==> res == Http(500, ErrorBody(InterpretFailed)) && cache == old(cache)
    {
      var result := InterpretDream(store, loader, symbolFile, svc, text, userId, persona, userName);
      reply := result;
      res := StoreReply(key, result);
    }

    /** A valid request: answer from the cache on a hit, otherwise take the miss path. */
    method Serve(key: string, text: string, userId: Option<Value>, persona: Option<Value>, userName: Option<Value>,
      store: DreamStore, loader: SymbolLoader, symbolFile: SymbolFile, svc: Services)
      returns (res: Http)
      requires Valid()
      modifies this, loader
      ensures Valid()
      ensures Hit(old(cache), key) ==>
        res == Http(200, old(cache)[key]) && cache == old(cache) &&
        cacheHits == old(cacheHits) + 1 && cacheMisses == old(cacheMisses) && loader.cached == old(loader.cached)
      ensures !Hit(old(cache), key) ==>
        cacheHits == old(cacheHits) && cacheMisses == old(cacheMisses) + 1 &&
        loader.cached == CacheAfterLoad(old(loader.cached), symbolFile)
      ensures !Hit(old(cache), key) ==>
        var out := MissOutcome(svc, store, old(loader.cached), symbolFile, text, userId, persona, userName);
        (out.Success? ==> res == Http(200, out.value) && cache == old(cache)[key := out.value]) &&
        (out.Failure? ==> res == Http(500, ErrorBody(InterpretFailed)) && cache == old(cache))
    {
      if Hit(cache, key) {
        cacheHits := cacheHits + 1;
        return Http(200, cache[key]);
      }
      cacheMisses := cacheMisses + 1;
      ghost var reply;
      res, reply := Miss(key, text, userId, persona, userName, store, loader, symbolFile, svc);
      assert ResponseOf(reply) == MissOutcome(svc, store, old(loader.cached), symbolFile, text, userId, persona, userName);
    }

    /**
     * `POST /api/interpret`. A rejected or invalid request changes nothing;
     * a hit answers from the cache and calls nothing; a miss interprets the
     * trimmed text and stores the response under the key before sending it.
     */
    method Interpret(admitted: bool, body: map<string, Value>, md5: string -> string,
      store: DreamStore, loader: SymbolLoader, symbolFile: SymbolFile, svc: Services)
      returns (res: Http)
      requires Valid()
      modifies this, loader
      ensures Valid()
      ensures !admitted ==> res == Http(429, ErrorBody(InterpretLimited))
      ensures admitted && ValidateDreamText(Field(body, "dreamText")).Invalid? ==>
        res == Http(400, ErrorBody(ValidateDreamText(Field(body, "dreamText")).error))
      ensures !Accepted(admitted, body) ==>
        cache == old(cache) && cacheHits == old(cacheHits) && cacheMisses == old(cacheMisses) && loader.cached == old(loader.cached)
      ensures Accepted(admitted, body) && Hit(old(cache), RequestKey(md5, body)) ==>
        res == Http(200, old(cache)[RequestKey(md5, body)]) && cache == old(cache) &&
        cacheHits == old(cacheHits) + 1 && cacheMisses == old(cacheMisses) && loader.cached == old(loader.cached)
      ensures Accepted(admitted, body) && !Hit(old(cache), RequestKey(md5, body)) ==>
        cacheHits == old(cacheHits) && cacheMisses == old(cacheMisses) + 1 &&
        loader.cached == CacheAfterLoad(old(loader.cached), symbolFile)
      ensures Accepted(admitted, body) && !Hit(old(cache), RequestKey(md5, body)) ==>
        var out := MissOutcome(svc, store, old(loader.cached), symbolFile, RequestText(body),
          Field(body, "userId"), Field(body, "persona"), Field(body, "userName"));
        (out.Success? ==> res == Http(200, out.value) && cache == old(cache)[RequestKey(md5, body) := out.value]) &&
        (out.Failure? ==> res == Http(500, ErrorBody(InterpretFailed)) && cache == old(cache))
    {
      if !admitted {
        return Http(429, ErrorBody(InterpretLimited));
      }
      var dreamText := Field(body, "dreamText");
      var userId := Field(body, "userId");
      var persona := Field(body, "persona");
      var userName := Field(body, "userName");

      var validation := ValidateDreamText(dreamText);
      if validation.Invalid? {
        return Http(400, ErrorBody(validation.error));
      }
      var sanitizedText := Trim(dreamText.value.s);
      var cacheKey := CacheKey(md5, sanitizedText, userId, persona);
      res := Serve(cacheKey, sanitizedText, userId, persona, userName, store, loader, symbolFile, svc);
    }
  }

  // ---------------------------------------------------------------------
  // Keyword heuristics

  /** One entry of `analyzeSymbols`. */
  datatype FoundSymbol = FoundSymbol(name: string, meaning: string)

  /** `s.charAt(0).toUpperCase() + s.slice(1)`. */
  function Capitalize(s: string): (r: string)
    ensures |r| == |s|
    ensures s != [] ==> r[0] == UpperChar(s[0]) && r[1..] == s[1..]
  {
    if s == [] then [] else [UpperChar(s[0])] + s[1..]
  }

  /** The entries pushed for the matched table entries, in table order. */
  function FoundSymbols(m: SymbolTable): (r: seq<FoundSymbol>)
    ensures |r| == |m|
    ensures forall i :: 0 <= i < |m| ==> r[i] == FoundSymbol(Capitalize(m[i].0), m[i].1.genel)
  {
    seq(|m|, i requires 0 <= i < |m| => FoundSymbol(Capitalize(m[i].0), m[i].1.genel))
  }

  lemma FoundSymbolsAppend(m: SymbolTable, e: (string, SymbolDetail))
    ensures FoundSymbols(m + [e]) == FoundSymbols(m) + [FoundSymbol(Capitalize(e.0), e.1.genel)]
  {
  }

  /** `analyzeSymbols`: one entry per key occurring in the lower-cased text. */
  method AnalyzeSymbols(table: SymbolTable, dreamText: string) returns (foundSymbols: seq<FoundSymbol>)
    ensures foundSymbols == FoundSymbols(Matched(table, Lower(dreamText)))
  {
    foundSymbols := [];
    var lowerText := Lower(dreamText);
    var i := 0;
    while i < |table|
      invariant 0 <= i <= |table|
      invariant foundSymbols == FoundSymbols(Matched(table[..i], lowerText))
    {
      MatchedStep(table, i, lowerText);
      var symbol := table[i].0;
      var meanings := table[i].1;
      if Contains(lowerText, symbol) {
        FoundSymbolsAppend(Matched(table[..i], lowerText), table[i]);
        foundSymbols := foundSymbols + [FoundSymbol(Capitalize(symbol), meanings.genel)];
      }
      i := i + 1;
    }
    assert table[..|table|] == table;
  }

  /** The names `analyzeSymbols` reports are the keys `extractSymbols` finds, capitalised, in the same order. */
  lemma AnalyzedAreExtracted(table: SymbolTable, dreamText: string)
    ensures |FoundSymbols(Matched(table, Lower(dreamText)))| == |ExtractSymbols(table, dreamText)|
    ensures forall i :: 0 <= i < |ExtractSymbols(table, dreamText)| ==>
      FoundSymbols(Matched(table, Lower(dreamText)))[i].name == Capitalize(ExtractSymbols(table, dreamText)[i])
  {
  }

  /** Each reported entry carries the general reading of a table entry whose key occurs in the text. */
  lemma FoundSymbolMeaning(table: SymbolTable, dreamText: string, i: int)
    requires 0 <= i < |FoundSymbols(Matched(table, Lower(dreamText)))|
    ensures exists e :: (e in table && Contains(Lower(dreamText), e.0) &&
      FoundSymbols(Matched(table, Lower(dreamText)))[i] == FoundSymbol(Capitalize(e.0), e.1.genel))
  {
    var m := Matched(table, Lower(dreamText));
    assert m[i] in m;
  }

  const EnergyPositive: seq<string> := ["mutlu", "güzel", "huzur", "sevinç", "başarı", "özgürlük", "sevgi"]
  const EnergyNegative: seq<string> := ["korku", "üzgün", "kaygı", "kayıp", "düşmek", "kaos", "ölüm"]

  /** How many of `words` occur in `text`. */
  function CountPresent(words: seq<string>, text: string): (r: nat)
    ensures r <= |words|
  {
    if words == [] then 0
    else CountPresent(words[..|words| - 1], text) + (if Contains(text, words[|words| - 1]) then 1 else 0)
  }

  /**
   * The energy score: 50, plus 5 per listed positive word present, minus 5
   * per listed negative word present. With seven words on each side it is a
   * multiple of 5 in [15, 85], so the clamp never bites.
   */
  function Energy(dreamText: string): (e: int)
    ensures e % 5 == 0
    ensures 15 <= e <= 85
  {
    50 + 5 * CountPresent(EnergyPositive, Lower(dreamText)) - 5 * CountPresent(EnergyNegative, Lower(dreamText))
  }

  /** A text with none of the words scores exactly the neutral 50. */
  lemma {:induction false} EnergyNeutral(dreamText: string)
    requires forall w :: w in EnergyPositive + EnergyNegative ==> !Contains(Lower(dreamText), w)
    ensures Energy(dreamText) == 50
  {
    NoneCounted(EnergyPositive, Lower(dreamText));
    NoneCounted(EnergyNegative, Lower(dreamText));
  }

  lemma {:induction false} NoneCounted(words: seq<string>, text: string)
    requires forall w :: w in words ==> !Contains(text, w)
    ensures CountPresent(words, text) == 0
  {
    if words != [] {
      NoneCounted(words[..|words| - 1], text);
    }
  }

  method CountWords(words: seq<string>, lowerText: string) returns (count: nat)
    ensures count == CountPresent(words, lowerText)
  {
    count := 0;
    var i := 0;
    while i < |words|
      invariant 0 <= i <= |words|
      invariant count == CountPresent(words[..i], lowerText)
    {
      assert words[..i + 1][..i] == words[..i];
      if Contains(lowerText, words[i]) {
        count := count + 1;
      }
      i := i + 1;
    }
    assert words[..|words|] == words;
  }

  /** `calculateEnergy`: the score above, clamped to [0, 100]. */
  method CalculateEnergy(dreamText: string) returns (energy: int)
    ensures energy == Energy(dreamText)
    ensures energy % 5 == 0 && 15 <= energy <= 85
  {
    var lowerText := Lower(dreamText);
    var score := 50;
    var positives := CountWords(EnergyPositive, lowerText);
    score := score + 5 * positives;
    var negatives := CountWords(EnergyNegative, lowerText);
    score := score - 5 * negatives;
    energy := if score > 100 then 100 else if score < 0 then 0 else score;
  }

  // ---------------------------------------------------------------------
  // Dream endpoints

  const FirebaseDown: string := "Firebase bağlantısı yok - Rüya kaydetme devre dışı"
  const UserIdRequired: string := "userId gerekli"
  const InterpretationRequired: string := "Yorum gerekli"
  const BadEnergy: string := "Geçersiz enerji değeri"
  const SaveFailed: string := "Rüya kaydedilemedi"
  const ListFailed: string := "Rüyalar yüklenemedi"

  /** `typeof energy !== 'number' || energy < 0 || energy > 100`; `NaN` is a number that fails neither comparison. */
  predicate BadEnergyValue(energy: Option<Value>) {
    energy.None? || !(energy.value.Number? || energy.value.NaN?) || (energy.value.Number? && (energy.value.n < 0 || energy.value.n > 100))
  }

  /** The document `POST /api/dreams` adds to the `dreams` collection, one field per component. */
  datatype StoredDream = StoredDream(
    userId: Value, dreamText: string, interpretation: string, energy: Value,
    symbols: Value, date: Value, createdAt: Value, isFavorite: bool)

  /** The document built from an accepted body: texts trimmed, symbols defaulting to `[]`, not a favourite. */
  function StoredDoc(body: map<string, Value>, nowIso: string, serverTime: Value): StoredDream
    requires Field(body, "userId").Some? && Field(body, "energy").Some?
    requires Field(body, "dreamText").Some? && Field(body, "dreamText").value.Str?
    requires Field(body, "interpretation").Some? && Field(body, "interpretation").value.Str?
  {
    var symbols := Field(body, "symbols");
    StoredDream(
      Field(body, "userId").value,
      Trim(Field(body, "dreamText").value.s),
      Trim(Field(body, "interpretation").value.s),
      Field(body, "energy").value,
      if symbols.Some? && symbols.value.Arr? then symbols.value else Arr([]),
      Or(Field(body, "date"), Str(nowIso)),
      serverTime,
      false)
  }

  /**
   * `POST /api/dreams`: the checks in order, then one `add` to Firestore,
   * `add` returning the new document's id or failing.
   */
  function SaveDreamRequest(admitted: bool, firebaseReady: bool, body: map<string, Value>,
    nowIso: string, serverTime: Value, add: StoredDream -> Option<string>): (res: Http)
    ensures res.status == 200 <==>
      admitted && firebaseReady && Present(Field(body, "userId")) &&
      ValidateDreamText(Field(body, "dreamText")).Valid? &&
      Present(Field(body, "interpretation")) && Field(body, "interpretation").value.Str? &&
      !BadEnergyValue(Field(body, "energy")) &&
      add(StoredDoc(body, nowIso, serverTime)).Some?
    ensures res.status == 200 ==> res.body == Obj(map["id" := Str(add(StoredDoc(body, nowIso, serverTime)).value), "message" := Str("Rüya kaydedildi")])
    ensures res.status == 400 <==> (admitted && firebaseReady &&
      (!Present(Field(body, "userId")) || ValidateDreamText(Field(body, "dreamText")).Invalid? ||
       !Present(Field(body, "interpretation")) || !Field(body, "interpretation").value.Str? ||
       BadEnergyValue(Field(body, "energy"))))
  {
    if !admitted then Http(429, ErrorBody(DreamsLimited))
    else if !firebaseReady then Http(503, ErrorBody(FirebaseDown))
    else if !Present(Field(body, "userId")) then Http(400, ErrorBody(UserIdRequired))
    else
      var validation := ValidateDreamText(Field(body, "dreamText"));
      if validation.Invalid? then Http(400, ErrorBody(validation.error))
      else if !Present(Field(body, "interpretation")) || !Field(body, "interpretation").value.Str? then
        Http(400, ErrorBody(InterpretationRequired))
      else if BadEnergyValue(Field(body, "energy")) then Http(400, ErrorBody(BadEnergy))
      else
        match add(StoredDoc(body, nowIso, serverTime))
        case None => Http(500, ErrorBody(SaveFailed))
        case Some(id) => Http(200, Obj(map["id" := Str(id), "message" := Str("Rüya kaydedildi")]))
  }

  /** An accepted dream is stored trimmed, with an energy in [0, 100] or `NaN`, and not as a favourite. */
  lemma StoredDocShape(body: map<string, Value>, nowIso: string, serverTime: Value)
    requires Field(body, "userId").Some? && Field(body, "energy").Some? && !BadEnergyValue(Field(body, "energy"))
    requires Field(body, "dreamText").Some? && Field(body, "dreamText").value.Str?
    requires Field(body, "interpretation").Some? && Field(body, "interpretation").value.Str?
    ensures var doc := StoredDoc(body, nowIso, serverTime);
      !doc.isFavorite && doc.symbols.Arr? && Trimmed(doc.dreamText) && Trimmed(doc.interpretation) &&
      (doc.energy.Number? || doc.energy.NaN?) &&
      (doc.energy.Number? ==> 0 <= doc.energy.n <= 100)
  {
  }

  /** One Firestore document: its id and its data. */
  datatype Doc = Doc(id: string, data: map<string, Value>)

  /** `{ id: doc.id, ...doc.data() }`: a data field named `id` overrides the document id. */
  function Entry(d: Doc): (r: Value)
    ensures r.Obj? && "id" in r.fields
    ensures "id" !in d.data ==> r.fields["id"] == Str(d.id)
    ensures forall k :: k in d.data ==> k in r.fields && r.fields[k] == d.data[k]
  {
    var fields := map["id" := Str(d.id)] + d.data;
    assert forall k :: k in d.data ==> k in fields && fields[k] == d.data[k];
    Obj(fields)
  }

  /** The documents the `where('userId', '==', userId)` query returns. */
  function OwnedDocs(docs: seq<Doc>, userId: Value): (r: seq<Doc>)
    ensures forall d :: d in r <==> d in docs && "userId" in d.data && d.data["userId"] == userId
  {
    Filter(docs, (d: Doc) => "userId" in d.data && d.data["userId"] == userId)
  }

  function Entries(docs: seq<Doc>): (r: seq<Value>)
    ensures |r| == |docs|
    ensures forall i :: 0 <= i < |docs| ==> r[i] == Entry(docs[i])
  {
    seq(|docs|, i requires 0 <= i < |docs| => Entry(docs[i]))
  }

  /** The creation time of an entry, as the opaque date conversion `createdMs` reads it. */
  function CreatedKey(createdMs: Option<Value> -> int): Value -> int {
    (e: Value) => createdMs(if e.Obj? then Field(e.fields, "createdAt") else None)
  }

  /** The listed dreams: the owner's entries, newest first, at most 50. */
  function RecentEntries(docs: seq<Doc>, userId: Value, createdMs: Option<Value> -> int): (r: seq<Value>)
    ensures |r| <= 50
    ensures |OwnedDocs(docs, userId)| <= 50 ==> |r| == |OwnedDocs(docs, userId)|
    ensures SortedDesc(r, CreatedKey(createdMs))
    ensures forall e :: e in r ==> exists d :: d in docs && "userId" in d.data && d.data["userId"] == userId && e == Entry(d)
  {
    var owned := OwnedDocs(docs, userId);
    var entries := Entries(owned);
    var sorted := SortDesc(entries, CreatedKey(createdMs));
    SortDescSorted(entries, CreatedKey(createdMs));
    SortDescSameElements(entries, CreatedKey(createdMs));
    PrefixSorted(sorted, 50, CreatedKey(createdMs));
    var r := Prefix(sorted, 50);
    forall e | e in r
      ensures exists d :: d in docs && "userId" in d.data && d.data["userId"] == userId && e == Entry(d)
    {
      var i :| 0 <= i < |r| && r[i] == e;
      assert sorted[i] in entries;
      var j :| 0 <= j < |entries| && entries[j] == e;
      assert owned[j] in owned;
    }
    r
  }

  /** `GET /api/dreams`: without Firebase an empty list, without a user id a 400, else the recent entries. */
  function ListDreamsRequest(admitted: bool, firebaseReady: bool, query: map<string, Value>,
    docs: Option<seq<Doc>>, createdMs: Option<Value> -> int): (res: Http)
    ensures admitted && !firebaseReady ==> res == Http(200, Arr([]))
    ensures admitted && firebaseReady && !Present(Field(query, "userId")) ==> res == Http(400, ErrorBody(UserIdRequired))
    ensures res.status == 200 && res.body.Arr? ==> |res.body.items| <= 50
  {
    if !admitted then Http(429, ErrorBody(DreamsLimited))
    else if !firebaseReady then Http(200, Arr([]))
    else if !Present(Field(query, "userId")) then Http(400, ErrorBody(UserIdRequired))
    else
      match docs
      case None => Http(500, ErrorBody(ListFailed))
      case Some(ds) => Http(200, Arr(RecentEntries(ds, Field(query, "userId").value, createdMs)))
  }
}
