/**
 * The AI providers of the backend: the factory that picks a provider from the
 * requested model name and the configured API keys, the list of available
 * models, and the Gemini provider's request/response pipeline (persona
 * lookup, prompt layout, the three ordered JSON parse strategies with a
 * degraded fallback, section enrichment, symbol coercion and energy
 * clamping). The Groq provider's normalisation is modelled as well; the
 * remote calls and `JSON.parse` are oracles passed in as parameters.
 */
module AiProvider {
  import opened Wrappers
  import opened Text
  import opened JsValue
  import opened AiConfig

  // ---------------------------------------------------------------------
  // Provider factory

  /** The four API keys read from the environment; `""` stands for an unset key. */
  datatype ApiKeys = ApiKeys(openai: string, claude: string, gemini: string, groq: string)

  datatype Provider =
    | OpenAIProvider(apiKey: string, model: string)
    | ClaudeProvider(apiKey: string)
    | GeminiProvider(apiKey: string, modelName: string)
    | GroqProvider(apiKey: string, model: string)

  const GeminiModelName: string := "gemini-2.5-flash"
  const GroqModelName: string := "llama-3.3-70b-versatile"

  /** The `AIModel` union of model names. */
  datatype AIModel = Gpt4o | Gpt4Turbo | Gpt35Turbo | Claude3Opus | GeminiPro | GeminiFlash | GroqLlama3

  function ModelName(m: AIModel): string {
    match m
    case Gpt4o => "gpt-4o"
    case Gpt4Turbo => "gpt-4-turbo"
    case Gpt35Turbo => "gpt-3.5-turbo"
    case Claude3Opus => "claude-3-opus"
    case GeminiPro => "gemini-pro"
    case GeminiFlash => "gemini-flash"
    case GroqLlama3 => "groq-llama-3"
  }

  datatype KeyKind = OpenAIKey | ClaudeKey | GeminiKey | GroqKey

  /** The credential each model needs. */
  function KeyFor(m: AIModel): KeyKind {
    match m
    case Gpt4o => OpenAIKey
    case Gpt4Turbo => OpenAIKey
    case Gpt35Turbo => OpenAIKey
    case Claude3Opus => ClaudeKey
    case GeminiPro => GeminiKey
    case GeminiFlash => GeminiKey
    case GroqLlama3 => GroqKey
  }

  function KeyValue(kind: KeyKind, keys: ApiKeys): string {
    match kind
    case OpenAIKey => keys.openai
    case ClaudeKey => keys.claude
    case GeminiKey => keys.gemini
    case GroqKey => keys.groq
  }

  /**
   * `AIFactory.createProvider`. `None` is a name outside the `AIModel`
   * union, which takes the `default` branch. A named model needs its own
   * key and fails without it; the default falls back to Gemini, then OpenAI.
   */
  function CreateProvider(model: Option<AIModel>, keys: ApiKeys): (r: Result<Provider>)
    ensures model.Some? ==> (r.Success? <==> KeyValue(KeyFor(model.value), keys) != "")
    ensures model.Some? && r.Success? ==> r.value.apiKey == KeyValue(KeyFor(model.value), keys)
    ensures model.None? ==> (r.Success? <==> keys.gemini != "" || keys.openai != "")
    ensures model.None? && keys.gemini != "" ==> r == Success(GeminiProvider(keys.gemini, GeminiModelName))
    ensures (model == Some(GeminiPro) || model == Some(GeminiFlash)) && r.Success? ==>
      r.value == GeminiProvider(keys.gemini, GeminiModelName)
  {
    match model
    case Some(Gpt4o) =>
      if keys.openai == "" then Failure("OpenAI API key eksik") else Success(OpenAIProvider(keys.openai, "gpt-4o"))
    case Some(Gpt4Turbo) =>
      if keys.openai == "" then Failure("OpenAI API key eksik") else Success(OpenAIProvider(keys.openai, "gpt-4-turbo"))
    case Some(Gpt35Turbo) =>
      if keys.openai == "" then Failure("OpenAI API key eksik") else Success(OpenAIProvider(keys.openai, "gpt-3.5-turbo"))
    case Some(Claude3Opus) =>
      if keys.claude == "" then Failure("Claude API key eksik") else Success(ClaudeProvider(keys.claude))
    case Some(GeminiPro) =>
      if keys.gemini == "" then Failure("Gemini API key eksik") else Success(GeminiProvider(keys.gemini, GeminiModelName))
    case Some(GeminiFlash) =>
      if keys.gemini == "" then Failure("Gemini API key eksik") else Success(GeminiProvider(keys.gemini, GeminiModelName))
    case Some(GroqLlama3) =>
      if keys.groq == "" then Failure("Groq API key eksik") else Success(GroqProvider(keys.groq, GroqModelName))
    case None =>
      if keys.gemini != "" then Success(GeminiProvider(keys.gemini, GeminiModelName))
      else if keys.openai != "" then Success(OpenAIProvider(keys.openai, "gpt-4o"))
      else Failure("Hiçbir AI provider yapılandırılmamış")
  }

  /** The position of a model in the listing: Gemini, then OpenAI, Claude and Groq. */
  function ListRank(m: AIModel): nat {
    match m
    case GeminiFlash => 0
    case GeminiPro => 1
    case Gpt4o => 2
    case Gpt4Turbo => 3
    case Gpt35Turbo => 4
    case Claude3Opus => 5
    case GroqLlama3 => 6
  }

  /**
   * `AIFactory.getAvailableModels`: exactly the models the factory can build
   * with the configured keys, each once, in listing order.
   */
  method GetAvailableModels(keys: ApiKeys) returns (models: seq<AIModel>)
    ensures forall m :: m in models <==> CreateProvider(Some(m), keys).Success?
    ensures forall i, j :: 0 <= i < j < |models| ==> ListRank(models[i]) < ListRank(models[j])
  {
    models := [];
    if keys.gemini != "" {
      models := models + [GeminiFlash, GeminiPro];
    }
    ghost var g := models;
    if keys.openai != "" {
      models := models + [Gpt4o, Gpt4Turbo, Gpt35Turbo];
    }
    ghost var o := models;
    if keys.claude != "" {
      models := models + [Claude3Opus];
    }
    ghost var c := models;
    if keys.groq != "" {
      models := models + [GroqLlama3];
    }
    ListingMembers(keys, g, o, c, models);
    ListingOrder(keys, g, o, c, models);
  }

  /** The models of one provider, listed when its key is set. */
  function Group(key: string, xs: seq<AIModel>): seq<AIModel> {
    if key != "" then xs else []
  }

  /** The listing built group by group, Gemini first and Groq last. */
  predicate Listing(keys: ApiKeys, g: seq<AIModel>, o: seq<AIModel>, c: seq<AIModel>, models: seq<AIModel>) {
    g == Group(keys.gemini, [GeminiFlash, GeminiPro]) &&
    o == g + Group(keys.openai, [Gpt4o, Gpt4Turbo, Gpt35Turbo]) &&
    c == o + Group(keys.claude, [Claude3Opus]) &&
    models == c + Group(keys.groq, [GroqLlama3])
  }

  lemma ListingMembers(keys: ApiKeys, g: seq<AIModel>, o: seq<AIModel>, c: seq<AIModel>, models: seq<AIModel>)
    requires Listing(keys, g, o, c, models)
    ensures forall m :: m in models <==> CreateProvider(Some(m), keys).Success?
  {
    forall m
      ensures m in models <==> CreateProvider(Some(m), keys).Success?
    {
      assert m in models <==> m in c || (keys.groq != "" && m == GroqLlama3);
      assert m in c <==> m in o || (keys.claude != "" && m == Claude3Opus);
      assert m in o <==> m in g || (keys.openai != "" && (m == Gpt4o || m == Gpt4Turbo || m == Gpt35Turbo));
      assert m in g <==> keys.gemini != "" && (m == GeminiFlash || m == GeminiPro);
    }
  }

  lemma ListingOrder(keys: ApiKeys, g: seq<AIModel>, o: seq<AIModel>, c: seq<AIModel>, models: seq<AIModel>)
    requires Listing(keys, g, o, c, models)
    ensures forall i, j :: 0 <= i < j < |models| ==> ListRank(models[i]) < ListRank(models[j])
  {
    assert forall i :: 0 <= i < |g| ==> ListRank(g[i]) < 2;
    assert forall i, j :: 0 <= i < j < |g| ==> ListRank(g[i]) < ListRank(g[j]);
    assert forall i :: 0 <= i < |o| ==> ListRank(o[i]) < 5;
    assert forall i, j :: 0 <= i < j < |o| ==> ListRank(o[i]) < ListRank(o[j]);
    assert forall i :: 0 <= i < |c| ==> ListRank(c[i]) < 6;
    assert forall i, j :: 0 <= i < j < |c| ==> ListRank(c[i]) < ListRank(c[j]);
  }

  // ---------------------------------------------------------------------
  // Persona lookup

  /** Names every plain object inherits from `Object.prototype`: `obj[name]` is truthy for them. */
  const InheritedNames: set<string> := {
    "constructor", "hasOwnProperty", "isPrototypeOf", "propertyIsEnumerable",
    "toString", "toLocaleString", "valueOf", "__proto__",
    "__defineGetter__", "__defineSetter__", "__lookupGetter__", "__lookupSetter__"
  }

  /** A bracket lookup converts its key with `String(key)`. */
  function PropertyKey(v: Value): string {
    ToText(v)
  }

  datatype PersonaChoice =
    | Configured(key: string, persona: Persona)
    | PrototypeMember(key: string)
    | Unconfigured

  /** The key the lookup settles on: a present persona the table holds, else the active persona. */
  function PersonaKey(personas: map<string, Persona>, persona: Option<Value>): (r: string)
    ensures r == ActivePersona || (Present(persona) && r == PropertyKey(persona.value) && r in personas)
  {
    if Present(persona) && PropertyKey(persona.value) in personas then PropertyKey(persona.value) else ActivePersona
  }

  /**
   * The lookup as written: `persona && personas[persona] ? persona :
   * activePersona`, then `personas[key] || personas.DEEP_ANALYST`. An
   * inherited name the table does not shadow passes the truthiness test and
   * selects a prototype member. The active persona is `DEEP_ANALYST`, so the
   * second fallback repeats the first; a table without it leaves nothing.
   */
  function SelectPersonaAsWritten(personas: map<string, Persona>, persona: Option<Value>): (r: PersonaChoice)
    ensures r.PrototypeMember? <==>
      Present(persona) && PropertyKey(persona.value) !in personas && PropertyKey(persona.value) in InheritedNames
    ensures r.Configured? ==> r.key in personas && r.persona == personas[r.key]
    ensures r.Unconfigured? <==> ActivePersona !in personas && !(Present(persona) && PropertyKey(persona.value) in personas.Keys + InheritedNames)
  {
    if Present(persona) && PropertyKey(persona.value) in personas then
      Configured(PropertyKey(persona.value), personas[PropertyKey(persona.value)])
    else if Present(persona) && PropertyKey(persona.value) in InheritedNames then
      PrototypeMember(PropertyKey(persona.value))
    else if ActivePersona in personas then
      Configured(ActivePersona, personas[ActivePersona])
    else
      Unconfigured
  }

  /** The role and instructions a choice puts in the prompt: a prototype member has neither. */
  function ChoiceText(c: PersonaChoice): Option<Persona> {
    match c
    case Configured(_, p) => Some(p)
    case PrototypeMember(_) => Some(Persona("undefined", "undefined"))
    case Unconfigured => None
  }

  /** The persona name `"toString"` reaches the prompt as the role text `undefined`. */
  lemma PrototypeNameBreaksPrompt(personas: map<string, Persona>)
    requires "toString" !in personas
    ensures SelectPersonaAsWritten(personas, Some(Str("toString"))) == PrototypeMember("toString")
    ensures ChoiceText(SelectPersonaAsWritten(personas, Some(Str("toString")))) == Some(Persona("undefined", "undefined"))
  {
    assert "toString" in InheritedNames;
  }

  /**
   * Persona lookup over the table's own keys only: a known key is used
   * unchanged, anything else resolves to the active persona, which the
   * table may lack.
   */
  function SelectPersona(personas: map<string, Persona>, persona: Option<Value>): (r: Option<Persona>)
    ensures r.Some? <==> PersonaKey(personas, persona) in personas
    ensures r.Some? ==> r.value == personas[PersonaKey(personas, persona)]
    ensures Present(persona) && PropertyKey(persona.value) in personas ==> r == Some(personas[PropertyKey(persona.value)])
    ensures ActivePersona in personas ==> r.Some?
  {
    var key := PersonaKey(personas, persona);
    if key in personas then Some(personas[key]) else None
  }

  /** Off the inherited names the corrected lookup chooses what the written one chooses. */
  lemma SelectPersonaAgrees(personas: map<string, Persona>, persona: Option<Value>)
    requires !(Present(persona) && PropertyKey(persona.value) !in personas && PropertyKey(persona.value) in InheritedNames)
    ensures ChoiceText(SelectPersonaAsWritten(personas, persona)) == SelectPersona(personas, persona)
    ensures SelectPersonaAsWritten(personas, persona).Configured? ==>
      SelectPersonaAsWritten(personas, persona).key == PersonaKey(personas, persona)
  {
  }

  // ---------------------------------------------------------------------
  // Prompt

  /** The greeting the model is told to open with. */
  function Greeting(name: string): string {
    "\"Sevgili " + name + ",\""
  }

  const AnonymousName: string := "Rüya Yolcusu"

  function UserClause(userName: Option<Value>): string {
    if Present(userName) then
      "Kullanıcının adı: " + ToText(userName.value) + ". Yorumuna " + Greeting(ToText(userName.value)) + " diye başla."
    else
      "Kullanıcı adı bilinmiyor. " + Greeting(AnonymousName) + " diye başla."
  }

  const ContextHeader: string := "### 🧠 GEÇMİŞ RÜYA BAĞLAMI (Kişiselleştirme İçin):\n"

  function PromptHead(p: Persona, userName: Option<Value>): string {
    "\n" + p.role + "\n\n" + p.instructions + "\n\n### 👤 KULLANICI BİLGİSİ:\n" + UserClause(userName) +
    "\n\n### 🔮 RÜYA METNİ:\n\"\"\""
  }

  function PromptTail(context: string): string {
    "\"\"\"\n\n" + (if context != "" then ContextHeader + context else "") + "\n"
  }

  /** The Gemini prompt: persona, user clause, quoted dream text, then the optional context section. */
  function BuildPrompt(p: Persona, userName: Option<Value>, dreamText: string, context: string): (r: string)
    ensures r == PromptHead(p, userName) + dreamText + PromptTail(context)
    ensures StartsWith(r, "\n" + p.role + "\n\n" + p.instructions + "\n\n")
  {
    var r := PromptHead(p, userName) + dreamText + PromptTail(context);
    assert r[..|"\n" + p.role + "\n\n" + p.instructions + "\n\n"|] == "\n" + p.role + "\n\n" + p.instructions + "\n\n";
    r
  }

  /** The user clause greets the named user, or the anonymous traveller when no name is given. */
  lemma UserClauseGreeting(userName: Option<Value>)
    ensures Present(userName) ==> Contains(UserClause(userName), Greeting(ToText(userName.value)))
    ensures !Present(userName) ==> Contains(UserClause(userName), Greeting(AnonymousName))
  {
    if Present(userName) {
      var n := ToText(userName.value);
      ContainsMiddle("Kullanıcının adı: " + n + ". Yorumuna ", Greeting(n), " diye başla.");
    } else {
      ContainsMiddle("Kullanıcı adı bilinmiyor. ", Greeting(AnonymousName), " diye başla.");
    }
  }

  /** The prompt ends with the context section when there is context, and with an empty line otherwise. */
  lemma PromptContextSection(p: Persona, userName: Option<Value>, dreamText: string, context: string)
    ensures context == "" ==> EndsWith(BuildPrompt(p, userName, dreamText, context), "\"\"\"\n\n\n")
    ensures context != "" ==> EndsWith(BuildPrompt(p, userName, dreamText, context), ContextHeader + context + "\n")
  {
    var t := PromptTail(context);
    EndsWithAppend(PromptHead(p, userName) + dreamText, t);
    if context == "" {
      assert t == "\"\"\"\n\n\n";
    } else {
      assert t == "\"\"\"\n\n" + (ContextHeader + context + "\n");
      EndsWithAppend("\"\"\"\n\n", ContextHeader + context + "\n");
      EndsWithTrans(BuildPrompt(p, userName, dreamText, context), t, ContextHeader + context + "\n");
    }
  }

  /** Different dream texts give different prompts: the prompt carries the text unaltered. */
  lemma PromptDeterminesDreamText(p: Persona, userName: Option<Value>, d1: string, d2: string, context: string)
    requires BuildPrompt(p, userName, d1, context) == BuildPrompt(p, userName, d2, context)
    ensures d1 == d2
  {
    var h := PromptHead(p, userName);
    var t := PromptTail(context);
    var r := BuildPrompt(p, userName, d1, context);
    assert |d1| == |d2|;
    assert d1 == r[|h|..|h| + |d1|];
    assert d2 == r[|h|..|h| + |d2|];
  }

  // ---------------------------------------------------------------------
  // Reply repair

  /** `s.replace(/<marker>\n?/g, '')`: every occurrence, scanned left to right, with one following newline. */
  function RemoveMarker(s: string, marker: string): (r: string)
    requires marker != ""
    ensures |r| <= |s|
    decreases |s|
  {
    if s == [] then []
    else if StartsWith(s, marker) then
      var rest := s[|marker|..];
      RemoveMarker(if rest != [] && rest[0] == '\n' then rest[1..] else rest, marker)
    else [s[0]] + RemoveMarker(s[1..], marker)
  }

  const JsonFence: string := "```json"
  const Fence: string := "```"

  /** Text without the marker is left alone. */
  lemma {:induction false} RemoveMarkerAbsent(s: string, marker: string)
    requires marker != "" && !Contains(s, marker)
    ensures RemoveMarker(s, marker) == s
    decreases |s|
  {
    if s != [] {
      RemoveMarkerAbsent(s[1..], marker);
    }
  }

  lemma FencePrefixes()
    ensures Fence[..1] == "`" && Fence[..2] == "``" && Fence[..3] == Fence
  {
  }

  /** A text that does not start with `k` backticks does not start with them once fences are removed. */
  lemma {:induction false} RemoveFenceHead(t: string, n: nat)
    requires n <= 2 && !StartsWith(t, Fence[..n + 1])
    ensures !StartsWith(RemoveMarker(t, Fence), Fence[..n + 1])
    decreases n
  {
    FencePrefixes();
    if t != [] {
      assert !StartsWith(t, Fence) by {
        if |t| >= 3 {
          assert t[..n + 1] == t[..3][..n + 1];
        }
      }
      assert RemoveMarker(t, Fence) == [t[0]] + RemoveMarker(t[1..], Fence);
      if n > 0 && t[0] == '`' {
        if |t| >= n + 1 {
          assert t[..n + 1] == [t[0]] + t[1..][..n];
        }
        assert Fence[..n + 1] == "`" + Fence[..n];
        RemoveFenceHead(t[1..], n - 1);
        var r := RemoveMarker(t, Fence);
        if |r| >= n + 1 {
          assert r[..n + 1] == [r[0]] + r[1..][..n];
        }
      }
    }
  }

  /** After the second pass no three-backtick fence is left anywhere. */
  lemma {:induction false} RemoveFenceComplete(s: string)
    ensures !Contains(RemoveMarker(s, Fence), Fence)
    decreases |s|
  {
    FencePrefixes();
    if s == [] {
    } else if StartsWith(s, Fence) {
      var rest := s[|Fence|..];
      RemoveFenceComplete(if rest != [] && rest[0] == '\n' then rest[1..] else rest);
    } else {
      var r := RemoveMarker(s, Fence);
      RemoveFenceComplete(s[1..]);
      assert r == [s[0]] + RemoveMarker(s[1..], Fence);
      assert r[1..] == RemoveMarker(s[1..], Fence);
      if s[0] == '`' {
        if |s| >= 3 {
          assert s[..3] == [s[0]] + s[1..][..2];
        }
        RemoveFenceHead(s[1..], 1);
        if |r| >= 3 {
          assert r[..3] == [r[0]] + r[1..][..2];
        }
      }
    }
  }

  /** Strategy 2: drop every ```` ```json ```` and ```` ``` ```` marker (each with one newline), then trim. */
  function StripFences(s: string): (r: string)
    ensures Trimmed(r)
    ensures !Contains(r, Fence)
  {
    var once := RemoveMarker(RemoveMarker(s, JsonFence), Fence);
    RemoveFenceComplete(RemoveMarker(s, JsonFence));
    TrimContained(once, Fence);
    Trim(once)
  }

  /** Text without backticks is only trimmed. */
  lemma StripFencesPlain(s: string)
    requires '`' !in s
    ensures StripFences(s) == Trim(s)
  {
    ContainsChar(s, '`');
    NoBacktickNoFence(s, JsonFence);
    RemoveMarkerAbsent(s, JsonFence);
    NoBacktickNoFence(s, Fence);
    RemoveMarkerAbsent(s, Fence);
  }

  lemma NoBacktickNoFence(s: string, m: string)
    requires '`' !in s && m != [] && m[0] == '`'
    ensures !Contains(s, m)
  {
    forall i | 0 <= i && i + |m| <= |s|
      ensures !OccursAt(s, m, i)
    {
      assert s[i..i + |m|][0] == s[i];
    }
    ContainsIff(s, m);
  }

  /** A reply wrapped in a ```` ```json ```` fence is unwrapped to its trimmed body. */
  lemma StripFencesUnwraps(body: string)
    requires '`' !in body
    ensures StripFences(JsonFence + "\n" + body + "\n" + Fence) == Trim(body)
  {
    var s := JsonFence + "\n" + body + "\n" + Fence;
    var tail := body + "\n" + Fence;
    assert s[|JsonFence|..] == "\n" + tail;
    assert ("\n" + tail)[1..] == tail;
    assert StartsWith(s, JsonFence);
    forall i | 0 <= i && i + |JsonFence| <= |tail|
      ensures !OccursAt(tail, JsonFence, i)
    {
      assert tail[i..i + |JsonFence|][0] == tail[i] == body[i];
    }
    ContainsIff(tail, JsonFence);
    RemoveMarkerAbsent(tail, JsonFence);
    assert RemoveMarker(s, JsonFence) == tail;
    RemoveMarkerBeforeFence(body + "\n");
    TrimAppendSpaces(body, "\n");
  }

  lemma {:induction false} RemoveMarkerBeforeFence(b: string)
    requires '`' !in b
    ensures RemoveMarker(b + Fence, Fence) == b
    decreases |b|
  {
    if b == [] {
      assert b + Fence == Fence;
      assert Fence[|Fence|..] == [];
    } else {
      assert (b + Fence)[1..] == b[1..] + Fence;
      assert !StartsWith(b + Fence, Fence) by {
        assert (b + Fence)[0] == b[0];
        assert b[0] in b;
      }
      RemoveMarkerBeforeFence(b[1..]);
    }
  }

  /** Index of the last `"` in `s`, or -1. */
  function LastQuote(s: string): (q: int)
    ensures -1 <= q < |s|
    ensures q >= 0 ==> s[q] == '"' && '"' !in s[q + 1..]
    ensures q == -1 ==> '"' !in s
  {
    if s == [] then -1
    else if s[|s| - 1] == '"' then |s| - 1
    else
      var q := LastQuote(s[..|s| - 1]);
      assert s[q + 1..] == s[..|s| - 1][q + 1..] + [s[|s| - 1]];
      q
  }

  /**
   * The two lookarounds of `/(?<=:\s*"[^"]*)\n(?=[^"]*")/g` at a newline of
   * `s`: the last quote before it follows a colon and white space, and some
   * quote comes after it. Both are evaluated on the text before any rewrite.
   */
  predicate InsideStringValue(s: string, i: int)
    requires 0 <= i < |s|
  {
    var q := LastQuote(s[..i]);
    && q >= 0
    && TrimEnd(s[..q]) != []
    && TrimEnd(s[..q])[|TrimEnd(s[..q])| - 1] == ':'
    && '"' in s[i + 1..]
  }

  function RepairFrom(s: string, i: nat): string
    requires i <= |s|
    decreases |s| - i
  {
    if i == |s| then ""
    else (if s[i] == '\n' && InsideStringValue(s, i) then "\\n" else [s[i]]) + RepairFrom(s, i + 1)
  }

  /** Strategy 3: escape raw newlines that sit inside a string value. */
  function RepairNewlines(s: string): string {
    RepairFrom(s, 0)
  }

  lemma {:induction false} RepairFromPlain(s: string, i: nat)
    requires i <= |s| && '\n' !in s
    ensures RepairFrom(s, i) == s[i..]
    decreases |s| - i
  {
    if i < |s| {
      RepairFromPlain(s, i + 1);
      assert s[i..] == [s[i]] + s[i + 1..];
    }
  }

  /** The repair rewrites newlines only: text without them is unchanged. */
  lemma RepairNewlinesPlain(s: string)
    requires '\n' !in s
    ensures RepairNewlines(s) == s
  {
    RepairFromPlain(s, 0);
  }

  // ---------------------------------------------------------------------
  // Reply normalisation

  const DefaultInterpretation: string := "Yorum oluşturulamadı"
  const DegradedPrefix: string := "Rüya yorumu alındı ancak teknik bir format hatası oluştu. İşte ham metin: "
  const DegradedAwareness: string := "Teknik bir aksaklık oldu ancak içsel yolculuğunuz devam ediyor."

  const Bar: string := "━━━━━━━━━━━━━━━━━━━━━━"
  const InnerHeader: string := "✨ İçsel Yolculuğun"
  const PracticeHeader: string := "🌟 Bugünkü Rehberliğin"

  /** A titled section appended to the interpretation. */
  function Section(header: string, body: string): string {
    "\n\n" + Bar + "\n" + header + "\n" + Bar + "\n\n" + body
  }

  /** The closing awareness line, in quotes. */
  function AwarenessLine(message: string): string {
    "\n\n💫 \"" + message + "\""
  }

  /** What the reply becomes when no strategy parses it. */
  function DegradedValue(text: string): Value {
    Obj(map[
      "interpretation" := Str(DegradedPrefix + Take(text, 500) + "..."),
      "energy" := Number(50),
      "symbols" := Arr([]),
      "awareness_message" := Str(DegradedAwareness)
    ])
  }

  /** Field `k` of a parsed value that is not `null`. */
  function Prop(v: Value, k: string): Option<Value> {
    if v.Obj? then Field(v.fields, k) else None
  }

  /**
   * The reply tried as is, then fence-stripped, then fence-stripped with
   * its newlines repaired; the first that parses wins.
   */
  function ParsedReply(parse: string -> Option<Value>, text: string): Value {
    if parse(text).Some? then parse(text).value
    else if parse(StripFences(text)).Some? then parse(StripFences(text)).value
    else if parse(RepairNewlines(StripFences(text))).Some? then parse(RepairNewlines(StripFences(text))).value
    else DegradedValue(text)
  }

  /** The interpretation with each present section appended, in the fixed order. */
  function Enriched(parsed: Value): Value
  {
    var base := Or(Prop(parsed, "interpretation"), Str(DefaultInterpretation));
    var inner := Prop(parsed, "inner_journey");
    var practice := Prop(parsed, "spiritual_practice");
    var awareness := Prop(parsed, "awareness_message");
    var s1 := if Present(inner) then Str(ToText(base) + Section(InnerHeader, ToText(inner.value))) else base;
    var s2 := if Present(practice) then Str(ToText(s1) + Section(PracticeHeader, ToText(practice.value))) else s1;
    if Present(awareness) then Str(ToText(s2) + AwarenessLine(ToText(awareness.value))) else s2
  }

  /** `{name, meaning}` for one reply symbol; reading a field of `null` throws. */
  function NormalizeSymbol(s: Value): (r: Result<Value>)
    ensures r.Failure? <==> s.Null?
    ensures r.Success? ==> r.value.Obj? && r.value.fields.Keys == {"name", "meaning"}
    ensures s.Str? ==> r == Success(Obj(map["name" := s, "meaning" := Str("")]))
  {
    match s
    case Null => Failure("TypeError: Cannot read properties of null (reading 'name')")
    case Str(_) => Success(Obj(map["name" := s, "meaning" := Str("")]))
    case _ => Success(Obj(map["name" := Or(Prop(s, "name"), s), "meaning" := Or(Prop(s, "meaning"), Str(""))]))
  }

  /** `Array.isArray(v) ? v.map(normalize) : []`. */
  function NormalizeSymbols(v: Value): (r: Result<seq<Value>>)
    ensures r.Failure? <==> v.Arr? && Null in v.items
    ensures r.Success? && v.Arr? ==> |r.value| == |v.items|
    ensures r.Success? && !v.Arr? ==> r.value == []
    ensures r.Success? && v.Arr? ==> forall i :: 0 <= i < |v.items| ==> Success(r.value[i]) == NormalizeSymbol(v.items[i])
  {
    if v.Arr? then NormalizeAll(v.items) else Success([])
  }

  function NormalizeAll(items: seq<Value>): (r: Result<seq<Value>>)
    ensures r.Failure? <==> Null in items
    ensures r.Success? ==> |r.value| == |items|
    ensures r.Success? ==> forall i :: 0 <= i < |items| ==> Success(r.value[i]) == NormalizeSymbol(items[i])
  {
    if items == [] then Success([])
    else
      var head := NormalizeSymbol(items[0]);
      var tail := NormalizeAll(items[1..]);
      assert items == [items[0]] + items[1..];
      if head.Failure? then Failure(head.error)
      else if tail.Failure? then Failure(tail.error)
      else Success([head.value] + tail.value)
  }

  /** `Math.max(0, Math.min(100, parsed.energy || 50))`. */
  function ReplyEnergy(parsed: Value): (r: Value)
    ensures r.Number? ==> 0 <= r.n <= 100
    ensures !Present(Prop(parsed, "energy")) ==> r == Number(50)
  {
    Clamp(Or(Prop(parsed, "energy"), Number(50)))
  }

  /** The fields every provider returns. */
  datatype Reply = Reply(interpretation: Value, energy: Value, symbols: Value)

  /** The normalised Gemini reply, or the exception it raises. */
  function Normalized(parsed: Value): Result<Reply> {
    if parsed.Null? then Failure("TypeError: Cannot read properties of null (reading 'interpretation')")
    else
      var syms := NormalizeSymbols(Prop(parsed, "symbols").GetOr(Null));
      if syms.Failure? then Failure(syms.error)
      else Success(Reply(Enriched(parsed), ReplyEnergy(parsed), Arr(syms.value)))
  }

  /** The nested `try`/`catch` chain of parse attempts. */
  method ParseReply(parse: string -> Option<Value>, text: string) returns (parsed: Value)
    ensures parsed == ParsedReply(parse, text)
  {
    var first := parse(text);
    if first.Some? {
      parsed := first.value;
    } else {
      var cleanText := StripFences(text);
      var second := parse(cleanText);
      if second.Some? {
        parsed := second.value;
      } else {
        var dirty := StripFences(text);
        dirty := RepairNewlines(dirty);
        var third := parse(dirty);
        if third.Some? {
          parsed := third.value;
        } else {
          parsed := DegradedValue(text);
        }
      }
    }
  }

  /** Builds the reply from the parsed value, appending the sections one by one. */
  method BuildReply(parsed: Value) returns (r: Result<Reply>)
    ensures r == Normalized(parsed)
  {
    if parsed.Null? {
      return Failure("TypeError: Cannot read properties of null (reading 'interpretation')");
    }
    var full := Or(Prop(parsed, "interpretation"), Str(DefaultInterpretation));
    var inner := Prop(parsed, "inner_journey");
    var practice := Prop(parsed, "spiritual_practice");
    var awareness := Prop(parsed, "awareness_message");
    if Present(inner) {
      full := Str(ToText(full) + Section(InnerHeader, ToText(inner.value)));
    }
    if Present(practice) {
      full := Str(ToText(full) + Section(PracticeHeader, ToText(practice.value)));
    }
    if Present(awareness) {
      full := Str(ToText(full) + AwarenessLine(ToText(awareness.value)));
    }
    assert full == Enriched(parsed);

    var symbols := NormalizeSymbols(Prop(parsed, "symbols").GetOr(Null));
    if symbols.Failure? {
      return Failure(symbols.error);
    }
    r := Success(Reply(full, ReplyEnergy(parsed), Arr(symbols.value)));
  }

  /** Reading `role` of the missing persona throws. */
  const NoPersonaError: string := "TypeError: Cannot read properties of undefined (reading 'role')"

  /**
   * The reply or exception of one Gemini call: a failed request throws, a
   * returned text goes through the parse strategies and the normalisation.
   * The persona is chosen by the corrected own-key lookup `SelectPersona`.
   */
  function GeminiOutcome(
    personas: map<string, Persona>,
    modelName: string,
    generate: (string, string) -> Option<string>,
    parse: string -> Option<Value>,
    dreamText: string, context: string, persona: Option<Value>, userName: Option<Value>): (r: Result<Reply>)
    ensures SelectPersona(personas, persona).None? ==> r == Failure(NoPersonaError)
    ensures SelectPersona(personas, persona).Some? ==>
      var prompt := BuildPrompt(SelectPersona(personas, persona).value, userName, dreamText, context);
      (generate(modelName, prompt).None? ==> r == Failure("Gemini request failed"))
      && (generate(modelName, prompt).Some? ==> r == Normalized(ParsedReply(parse, generate(modelName, prompt).value)))
    ensures r.Success? && r.value.energy.Number? ==> 0 <= r.value.energy.n <= 100
  {
    match SelectPersona(personas, persona)
    case None => Failure(NoPersonaError)
    case Some(p) =>
      match generate(modelName, BuildPrompt(p, userName, dreamText, context))
      case None => Failure("Gemini request failed")
      case Some(text) => Normalized(ParsedReply(parse, text))
  }

  /**
   * `GeminiProvider.interpret`: ask the model, parse the reply through the
   * ordered strategies, and build the enriched interpretation.
   */
  method GeminiInterpret(
    personas: map<string, Persona>,
    modelName: string,
    generate: (string, string) -> Option<string>,
    parse: string -> Option<Value>,
    dreamText: string, context: string, persona: Option<Value>, userName: Option<Value>)
    returns (r: Result<Reply>)
    ensures r == GeminiOutcome(personas, modelName, generate, parse, dreamText, context, persona, userName)
  {
    var selected := SelectPersona(personas, persona);
    if selected.None? {
      return Failure(NoPersonaError);
    }
    var prompt := BuildPrompt(selected.value, userName, dreamText, context);
    var reply := generate(modelName, prompt);
    if reply.None? {
      return Failure("Gemini request failed");
    }
    var parsed := ParseReply(parse, reply.value);
    r := BuildReply(parsed);
  }

  /** Parse strategies stop at the first success: a reply that parses directly is used as is. */
  lemma DirectParseWins(parse: string -> Option<Value>, text: string)
    requires parse(text).Some?
    ensures ParsedReply(parse, text) == parse(text).value
  {
  }

  /** When all three strategies fail the degraded text, a neutral energy, no symbols and the awareness line come back. */
  lemma DegradedReply(parse: string -> Option<Value>, text: string)
    requires parse(text).None? && parse(StripFences(text)).None?
    requires parse(RepairNewlines(StripFences(text))).None?
    ensures Normalized(ParsedReply(parse, text)) == Success(Reply(
      Str(DegradedPrefix + Take(text, 500) + "..." + AwarenessLine(DegradedAwareness)),
      Number(50), Arr([])))
  {
    var d := DegradedValue(text);
    assert ParsedReply(parse, text) == d;
    DegradedEnriched(text);
    DegradedRest(text);
  }

  lemma DegradedEnriched(text: string)
    ensures Enriched(DegradedValue(text)) == Str(DegradedPrefix + Take(text, 500) + "..." + AwarenessLine(DegradedAwareness))
  {
    var d := DegradedValue(text);
    assert Prop(d, "inner_journey") == None;
    assert Prop(d, "spiritual_practice") == None;
    assert Prop(d, "awareness_message") == Some(Str(DegradedAwareness));
    assert Prop(d, "interpretation") == Some(Str(DegradedPrefix + Take(text, 500) + "..."));
  }

  lemma DegradedRest(text: string)
    ensures ReplyEnergy(DegradedValue(text)) == Number(50)
    ensures NormalizeSymbols(Prop(DegradedValue(text), "symbols").GetOr(Null)) == Success([])
  {
    var d := DegradedValue(text);
    assert Prop(d, "energy") == Some(Number(50));
    assert Prop(d, "symbols") == Some(Arr([]));
    assert Clamp(Number(50)) == Number(50);
  }

  /** Without sections the interpretation is `interpretation || 'Yorum oluşturulamadı'` untouched. */
  lemma EnrichedWithoutSections(parsed: Value)
    requires !Present(Prop(parsed, "inner_journey")) && !Present(Prop(parsed, "spiritual_practice"))
    requires !Present(Prop(parsed, "awareness_message"))
    ensures Enriched(parsed) == Or(Prop(parsed, "interpretation"), Str(DefaultInterpretation))
  {
  }

  /** All three sections present: base text, inner journey, practice, awareness line, in that order. */
  lemma EnrichedAllSections(parsed: Value, base: string, inner: string, practice: string, awareness: string)
    requires parsed.Obj?
    requires parsed.fields == map[
      "interpretation" := Str(base), "inner_journey" := Str(inner),
      "spiritual_practice" := Str(practice), "awareness_message" := Str(awareness)]
    requires inner != "" && practice != "" && awareness != ""
    ensures Enriched(parsed) == Str(
      (if base == "" then DefaultInterpretation else base)
      + Section(InnerHeader, inner) + Section(PracticeHeader, practice) + AwarenessLine(awareness))
  {
  }

  /** A zero, missing or otherwise falsy energy becomes 50; an energy in range is kept. */
  lemma EnergyDefaults(parsed: Value, e: int)
    ensures Prop(parsed, "energy") == Some(Number(0)) ==> ReplyEnergy(parsed) == Number(50)
    ensures Prop(parsed, "energy") == Some(Number(e)) && 0 < e <= 100 ==> ReplyEnergy(parsed) == Number(e)
    ensures Prop(parsed, "energy") == Some(Number(e)) && e > 100 ==> ReplyEnergy(parsed) == Number(100)
    ensures Prop(parsed, "energy") == Some(Number(e)) && e < 0 ==> ReplyEnergy(parsed) == Number(0)
  {
  }

  /** Every symbol of a successful Gemini reply is an object with `name` and `meaning`. */
  lemma NormalizedSymbolsAreObjects(parsed: Value)
    requires Normalized(parsed).Success?
    ensures var s := Normalized(parsed).value.symbols;
      s.Arr? && forall i :: 0 <= i < |s.items| ==> s.items[i].Obj? && s.items[i].fields.Keys == {"name", "meaning"}
  {
    var v := Prop(parsed, "symbols").GetOr(Null);
    var syms := NormalizeSymbols(v);
    if v.Arr? {
      forall i | 0 <= i < |syms.value|
        ensures syms.value[i].Obj? && syms.value[i].fields.Keys == {"name", "meaning"}
      {
        assert Success(syms.value[i]) == NormalizeSymbol(v.items[i]);
      }
    }
  }

  // ---------------------------------------------------------------------
  // Groq provider

  /** An empty or missing message content is read as `'{}'`. */
  function GroqContent(content: string): string {
    if content == "" then "{}" else content
  }

  /** `GroqProvider.interpret` after the chat call: no clamping and no symbol coercion. */
  function GroqReply(parse: string -> Option<Value>, content: string): (r: Result<Reply>)
    ensures r.Failure? <==> parse(GroqContent(content)).None? || parse(GroqContent(content)).value.Null?
    ensures r.Success? ==> r.value.energy == Or(Prop(parse(GroqContent(content)).value, "energy"), Number(50))
    ensures r.Success? ==> r.value.symbols == Or(Prop(parse(GroqContent(content)).value, "symbols"), Arr([]))
  {
    var raw := GroqContent(content);
    match parse(raw)
    case None => Failure("SyntaxError: Unexpected token in JSON")
    case Some(result) =>
      if result.Null? then Failure("TypeError: Cannot read properties of null (reading 'interpretation')")
      else
        var base := Or(Prop(result, "interpretation"), Str(DefaultInterpretation));
        var awareness := Prop(result, "awareness");
        var full := if Present(awareness) then Str(ToText(base) + "\n\n💫 " + ToText(awareness.value)) else base;
        Success(Reply(full, Or(Prop(result, "energy"), Number(50)), Or(Prop(result, "symbols"), Arr([]))))
  }

  /** The user message of the Groq chat request. */
  function GroqUserMessage(dreamText: string, context: string): string {
    "Bu rüyayı tüm derinliğiyle yorumla: " + dreamText + "\n\n" + context
  }

  /** `GroqProvider.interpret`: one chat call with the user message, then `GroqReply`. */
  function GroqOutcome(chat: string -> Option<string>, parse: string -> Option<Value>, dreamText: string, context: string): (r: Result<Reply>)
    ensures chat(GroqUserMessage(dreamText, context)).None? ==> r == Failure("Groq request failed")
    ensures chat(GroqUserMessage(dreamText, context)).Some? ==> r == GroqReply(parse, chat(GroqUserMessage(dreamText, context)).value)
  {
    match chat(GroqUserMessage(dreamText, context))
    case None => Failure("Groq request failed")
    case Some(content) => GroqReply(parse, content)
  }

  /** The Groq path passes an out-of-range energy through unclamped. */
  lemma GroqDoesNotClamp(parse: string -> Option<Value>, content: string)
    requires content != "" && parse(content) == Some(Obj(map["energy" := Number(150)]))
    ensures GroqReply(parse, content) == Success(Reply(Str(DefaultInterpretation), Number(150), Arr([])))
  {
  }
}
