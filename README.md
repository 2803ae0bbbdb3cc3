# Dream interpreter: a verified model of the interpretation pipeline and the client stores

This project models the core of an AI dream-interpretation app. It has two sides.

**Backend.**
- The `/api/interpret` endpoint validates a dream text. It answers from an MD5-keyed cache on a hit. On a miss it builds a context and runs the provider cascade:
  - The context is the user's five newest dreams plus references from the symbol dictionary.
  - The providers run in order: Gemini, then Groq, then a canned demo reply that cannot fail.
  - The response is stored in the cache before it is sent.
- The Gemini provider has more steps of its own:
  - It picks a persona from the configuration table and lays out a fixed prompt.
  - It parses the model's reply with three ordered strategies: direct, fence-stripped, and newline-repaired. If all three fail, it returns a degraded reply.
  - It enriches the interpretation with framed sections, coerces symbols into `{name, meaning}` objects, and clamps the energy to [0, 100].
- Smaller parts:
  - the symbol-dictionary lookups;
  - the ratio-threshold sentiment labels;
  - the transcription clean-up and audio-file checks;
  - the file-backed dream list;
  - the `/api/dreams` save and list handlers.

**Client.**
- Stores:
  - the offline queue and its sync;
  - the guest and registered dream store with its per-user cache;
  - the analytics event log.
- Pure derivations:
  - the result screen's section parser, which is the inverse of the Gemini enrichment;
  - the history filter and sort, and the favourite flip;
  - the statistics aggregation;
  - the profile avatar, initials and name handling;
  - the onboarding quiz's score machine.

**How it is modelled.**
- One module per source file. Helper modules:
  - `Wrappers` for `Option` and `Result`.
  - `Text` for trim, case, containment, split and join.
  - `JsValue` for the untyped values `JSON.parse` yields, with JavaScript truthiness, `String(v)`, `Number(v)` and property access that throws on `null`.
  - `Sorting`: a stable descending sort, as `Array.prototype.sort` with a `b - a` comparator gives.
  - `Sequences`: filter, subsequence and splice.
  - `DeviceStorage`: the device key-value store.
- Everything the code cannot compute itself becomes a parameter. This covers:
  - the SDK calls, `JSON.parse`, MD5, date parsing and formatting;
  - the clocks, `Math.random` and network answers;
  - the rate limiter's verdict;
  - the Firestore answers.
- The persona table and the demo table are parameters too (`Services.personas`, `Services.demo`). The shipped tables are `AiConfig.Personas` and `DemoData.Shipped`, and separate lemmas state their facts.
- Stateful parts are classes whose methods have `modifies` clauses:
  - the cache and its counters (`Server.Backend`);
  - the dream file (`DreamInterpreter.DreamStore`);
  - the symbol cache (`DreamSymbols.SymbolLoader`);
  - the device stores (`OfflineService.OfflineQueue`, `DreamService.DreamStore`);
  - the event log (`Analytics.AnalyticsService`);
  - the quiz screen (`OnboardingQuiz.Quiz`).
- Loops in the source are methods with loop invariants, proved against a specification function.

## Model

| member | source | states |
|---|---|---|
| AiConfig.PersonaKeys | backend/src/config/ai_config.ts:3-122 | the persona table has exactly the keys DEEP_ANALYST, ANALYST, MYSTIC and GUIDE, so all three quiz outcomes name a persona, and the active persona is among them |
| AiConfig.ParamsFixed | backend/src/config/ai_config.ts:6-9 | the generation limits are topK 40 and maxOutputTokens 8192 |
| AiProvider.CreateProvider | backend/src/services/AIProvider.ts:276-323 | a named model succeeds exactly when its own key is set, and the provider carries that key; both Gemini names build a `gemini-2.5-flash` Gemini provider; a model outside the union succeeds exactly when the Gemini or the OpenAI key is set, and prefers Gemini |
| AiProvider.GetAvailableModels | backend/src/services/AIProvider.ts:326-346 | a model is listed exactly when `CreateProvider` can build it with the configured keys; the list follows the fixed order Gemini, OpenAI, Claude, Groq, with no repeats |
| AiProvider.ListingMembers | backend/src/services/AIProvider.ts:329-343 | the four key-guarded pushes list exactly the models whose key is set |
| AiProvider.ListingOrder | backend/src/services/AIProvider.ts:329-343 | the four key-guarded pushes list the models in strictly increasing listing rank |
| AiProvider.PersonaKey | backend/src/services/AIProvider.ts:168 | the key the lookup settles on is the active persona, or a present persona name that the table holds |
| AiProvider.SelectPersonaAsWritten | backend/src/services/AIProvider.ts:167-170 | the lookup as written. It picks a prototype member exactly when the name is inherited, like `toString`, and not in the table. It finds nothing exactly when the table lacks the active persona and the name is neither a table key nor inherited. A configured choice is the table's entry |
| AiProvider.PrototypeNameBreaksPrompt | backend/src/services/AIProvider.ts:168-170 | the persona name `toString` selects an inherited function, whose role and instructions print as `undefined` in the prompt |
| AiProvider.SelectPersona | backend/src/services/AIProvider.ts:167-170 | corrected lookup. A known key is used unchanged. Anything else, absent or unknown, resolves to the active persona. With the active persona in the table the lookup never fails |
| AiProvider.SelectPersonaAgrees | backend/src/services/AIProvider.ts:167-170 | away from inherited names, the corrected lookup chooses exactly what the written one chooses, under the same key |
| AiProvider.BuildPrompt | backend/src/services/AIProvider.ts:186-198 | the prompt is the persona role, the instructions, the user clause, the dream text quoted in `"""`, then the context section, in that order |
| AiProvider.UserClauseGreeting | backend/src/services/AIProvider.ts:192 | the user clause greets `Sevgili <name>,`, or `Sevgili Rüya Yolcusu,` when no name is given |
| AiProvider.PromptContextSection | backend/src/services/AIProvider.ts:197-198 | the prompt ends with the context header and the context when there is context, and with an empty line otherwise |
| AiProvider.PromptDeterminesDreamText | backend/src/services/AIProvider.ts:195 | equal prompts have equal dream texts: the text is carried unaltered |
| AiProvider.RemoveMarker | backend/src/services/AIProvider.ts:213 | the global replace of a marker with an optional newline never lengthens the text |
| AiProvider.RemoveMarkerAbsent | backend/src/services/AIProvider.ts:213 | text without the marker is left unchanged |
| AiProvider.RemoveFenceHead | backend/src/services/AIProvider.ts:213 | removing the three-backtick markers cannot create a run of one to three leading backticks that was not there |
| AiProvider.RemoveFenceComplete | backend/src/services/AIProvider.ts:213 | after the second replace, no three-backtick fence is left anywhere |
| AiProvider.StripFences | backend/src/services/AIProvider.ts:213 | strategy 2's text is trimmed and has no fence left (also line 218) |
| AiProvider.StripFencesPlain | backend/src/services/AIProvider.ts:213 | text without backticks is only trimmed |
| AiProvider.StripFencesUnwraps | backend/src/services/AIProvider.ts:213 | a reply wrapped in a ```` ```json ```` fence comes out as its trimmed body |
| AiProvider.RemoveMarkerBeforeFence | backend/src/services/AIProvider.ts:213 | a closing fence after backtick-free text is removed and the text kept |
| AiProvider.LastQuote | backend/src/services/AIProvider.ts:219 | the position of the last `"`, or -1 when there is none, as the newline repair's look-behind needs |
| AiProvider.RepairFromPlain | backend/src/services/AIProvider.ts:219 | the repair scan leaves every newline-free suffix unchanged |
| AiProvider.RepairNewlinesPlain | backend/src/services/AIProvider.ts:219 | the newline repair rewrites newlines only, so it is the identity on text without them |
| AiProvider.NormalizeSymbol | backend/src/services/AIProvider.ts:254-259 | a symbol becomes an object with exactly `name` and `meaning`; a string `s` becomes `{name: s, meaning: ''}`; it fails exactly on `null`, whose `.name` throws |
| AiProvider.NormalizeSymbols | backend/src/services/AIProvider.ts:252-260 | an array keeps its length and is normalized element-wise; a non-array gives `[]`; it fails exactly when the array holds `null` |
| AiProvider.NormalizeAll | backend/src/services/AIProvider.ts:254-259 | the `map` over the symbols: same length, each element normalized, failing exactly on a `null` element |
| AiProvider.ReplyEnergy | backend/src/services/AIProvider.ts:264 | a numeric energy always lies in [0, 100]; a missing energy becomes 50 |
| AiProvider.EnergyDefaults | backend/src/services/AIProvider.ts:264 | zero becomes 50; an energy in (0, 100] is kept; above 100 gives 100; below 0 gives 0 |
| AiProvider.ParseReply | backend/src/services/AIProvider.ts:206-233 | the nested `try`/`catch` chain yields the value of the ordered strategies specified by `ParsedReply` |
| AiProvider.DirectParseWins | backend/src/services/AIProvider.ts:207-209 | the strategies stop at the first success: a reply that parses directly is used as it is |
| AiProvider.DegradedReply | backend/src/services/AIProvider.ts:223-230 | when all three strategies fail, the reply has the canned text with the first 500 characters of the raw text, then the 💫 awareness line; energy 50 and no symbols (also line 247-249) |
| AiProvider.DegradedEnriched | backend/src/services/AIProvider.ts:225-230 | the degraded value enriches to the canned text, the excerpt, `...` and the awareness suffix (also line 236-249) |
| AiProvider.DegradedRest | backend/src/services/AIProvider.ts:227-228 | the degraded value has energy 50 and an empty symbol list (also line 252-264) |
| AiProvider.BuildReply | backend/src/services/AIProvider.ts:235-266 | building the interpretation by successive `+=`, then the symbols and the energy, gives the reply specified by `Normalized` |
| AiProvider.EnrichedWithoutSections | backend/src/services/AIProvider.ts:236 | without sections, the interpretation is `interpretation \|\| 'Yorum oluşturulamadı'` untouched |
| AiProvider.EnrichedAllSections | backend/src/services/AIProvider.ts:236-249 | with all three sections present, the text is the base text, the inner-journey section, the practice section and the awareness line, in this fixed order |
| AiProvider.NormalizedSymbolsAreObjects | backend/src/services/AIProvider.ts:251-260 | every symbol of a successful Gemini reply is an object with exactly `name` and `meaning` |
| AiProvider.GeminiInterpret | backend/src/services/AIProvider.ts:162-271 | the Gemini call is specified by `GeminiOutcome`. A table without the persona fails with the `TypeError` of reading `role`. A failed request rethrows. Otherwise the reply is built from the parsed text |
| AiProvider.GeminiOutcome | backend/src/services/AIProvider.ts:162-271 | no persona fails with the `TypeError` of reading `role`; a failed request fails; a returned text is parsed by the strategies and normalised; a successful numeric energy is in [0, 100] |
| AiProvider.GroqReply | backend/src/services/AIProvider.ts:103-115 | the Groq reply falls back to energy 50 and symbols `[]` and does not clamp or coerce them; it fails exactly when the content does not parse, or parses to `null` |
| AiProvider.GroqOutcome | backend/src/services/AIProvider.ts:73-120 | a failed chat call fails; a returned content is handled by `GroqReply` |
| AiProvider.GroqDoesNotClamp | backend/src/services/AIProvider.ts:113 | an energy of 150 from Groq is passed through unclamped |
| DemoData.FirstMatch | backend/src/demoData.ts:52-56 | the first entry whose key occurs in the lower-cased text, and no earlier entry's key occurs; `None` when no key occurs |
| DemoData.GetDemoInterpretation | backend/src/demoData.ts:48-74 | the reply is an entry's reply or the default; with no key in the text it is the default; a well-shaped table gives a reply with one symbol and an energy in [0, 100] |
| DemoData.DemoChoosesFirstMatch | backend/src/demoData.ts:52-56 | with replies told apart by energy, entry `i`'s reply is chosen exactly when its key occurs and no earlier key does |
| DemoData.ShippedKeys | backend/src/demoData.ts:3-73 | the canned keys are deniz, uçmak and yılan, in that order, with energies 75, 92 and 58; the default has energy 65 and the single symbol `Demo Sembol` |
| DemoData.ShippedShaped | backend/src/demoData.ts:3-73 | every shipped reply has exactly one symbol with a meaning, and an energy in [0, 100] |
| DemoData.ShippedDistinct | backend/src/demoData.ts:3-73 | the four shipped energies are pairwise different |
| DemoData.ShippedEnergy | backend/src/demoData.ts:3-73 | from the shipped table, every text gets exactly one symbol and an energy in {75, 92, 58, 65} |
| DemoData.DemoSeaFirst | backend/src/demoData.ts:5-16 | a text containing `deniz` gets the sea reply with energy 75, whatever other keys occur (also line 52-54) |
| DemoData.DemoDefault | backend/src/demoData.ts:59-73 | a text with none of the three keys gets the default reply with energy 65 |
| DreamSymbols.Emoji | backend/src/services/dreamSymbols.ts:56 | `EMOJI_MAP[key] \|\| '✨'` is never empty |
| DreamSymbols.SymbolLoader.Load | backend/src/services/dreamSymbols.ts:28-42 | after the first successful read the table is cached and returned by every later call; a missing or unreadable file gives `{}` and is not cached |
| DreamSymbols.SymbolLoader.ExtractDreamContext | backend/src/services/dreamSymbols.ts:45-68 | loads the table, then returns the reference text `ContextText` of the loaded table |
| DreamSymbols.SymbolLoader.ExtractSymbolKeys | backend/src/services/dreamSymbols.ts:71-75 | loads the table, then returns `ExtractSymbols` of the loaded table |
| DreamSymbols.SymbolLoader.ListAllSymbols | backend/src/services/dreamSymbols.ts:77-84 | loads the table, then returns `AllSymbols` of the loaded table |
| DreamSymbols.Matched | backend/src/services/dreamSymbols.ts:51-53 | exactly the entries whose key occurs in the lower-cased text |
| DreamSymbols.ExtractSymbols | backend/src/services/dreamSymbols.ts:71-75 | exactly the keys contained in the lower-cased text, as a subsequence of the table's key order |
| DreamSymbols.BuildContext | backend/src/services/dreamSymbols.ts:49-67 | the `forEach` that pushes one block per mentioned key computes `ContextText` |
| DreamSymbols.BlocksStep | backend/src/services/dreamSymbols.ts:51-62 | one more table entry adds its block exactly when its key is mentioned |
| DreamSymbols.ContextEmptyIff | backend/src/services/dreamSymbols.ts:53-74 | the reference text is empty exactly when `extractSymbols` finds no key |
| DreamSymbols.ContextListsMatches | backend/src/services/dreamSymbols.ts:64-67 | a non-empty reference text starts with the fixed header and holds the block of every mentioned entry |
| DreamSymbols.BlockShape | backend/src/services/dreamSymbols.ts:55-60 | a block starts with the upper-cased key and carries the general, positive and negative readings |
| DreamSymbols.AllSymbols | backend/src/services/dreamSymbols.ts:77-84 | one listing per entry, in table order and of the same length, with the general reading and a non-empty emoji |
| DreamSymbols.ExtractedAreListed | backend/src/services/dreamSymbols.ts:71-84 | every key `extractSymbols` reports appears in the full listing |
| Sentiment.CountMatches | backend/src/services/sentimentAnalysis.ts:40-55 | the `forEach` over a word list adds up each word's match count, computing `Score` |
| Sentiment.MatchesNeedOccurrence | backend/src/services/sentimentAnalysis.ts:41-42 | a word that does not occur has no match |
| Sentiment.ClassifyIsRatio | backend/src/services/sentimentAnalysis.ts:57-71 | the integer thresholds give the same label as the ratio tests (p−n)/(p+n) > 0.5, > 0.1, < −0.5, < −0.1, on every input |
| Sentiment.ClassifyMirror | backend/src/services/sentimentAnalysis.ts:64-71 | swapping the positive and negative counts maps each label to its mirror |
| Sentiment.ClassifyMonotone | backend/src/services/sentimentAnalysis.ts:64-71 | one more positive match never lowers the label, and one more negative match never raises it |
| Sentiment.ClassifyOneSided | backend/src/services/sentimentAnalysis.ts:62-68 | only positive matches give `very_positive`, only negative ones `very_negative`, and none `neutral` |
| Sentiment.AnalyzeSentiment | backend/src/services/sentimentAnalysis.ts:33-72 | corrected `analyzeSentiment`: the ratio label of the match counts, with word boundaries that treat Turkish letters as letters |
| Sentiment.SentimentAsWritten | backend/src/services/sentimentAnalysis.ts:33-72 | the label the source computes: the ratio label of the match counts with ASCII-only word boundaries |
| Sentiment.AsciiBoundaryNeedsWordBefore | backend/src/services/sentimentAnalysis.ts:41 | with the ASCII-only `\b`, a word starting with a non-ASCII letter matches only right after an ASCII letter, digit or `_` |
| Sentiment.DeathNotCountedAsWritten | backend/src/services/sentimentAnalysis.ts:50 | the text `ölüm` has no match of the negative word `ölüm` as written, and one with letter-aware boundaries (also the word list at line 20) |
| Sentiment.LabelsDistinct | backend/src/services/sentimentAnalysis.ts:146-156 | the five labels have five different names and five different translations |
| Sentiment.TranslateSentimentLabel | backend/src/services/sentimentAnalysis.ts:146-156 | every label has a non-empty Turkish name, and `Nötr` is the name of the neutral label only |
| Whisper.LastIndexOf | backend/src/services/whisperService.ts:64 | the last position of a character, or none when it does not occur |
| Whisper.BaseName | backend/src/services/whisperService.ts:64 | the last path segment has no `/` |
| Whisper.ExtName | backend/src/services/whisperService.ts:64 | `path.extname` is empty or starts with `.`, and has no `/` |
| Whisper.ExtNameOfStem | backend/src/services/whisperService.ts:64 | after a plain stem, the extension is exactly the suffix |
| Whisper.ValidateAudioFormat | backend/src/services/whisperService.ts:62-67 | a file name without an extension is refused; `AcceptsNamedFile` and `HiddenFileRefused` state the accepted and refused shapes |
| Whisper.AcceptsNamedFile | backend/src/services/whisperService.ts:62-67 | a plain file name with one of the seven extensions is accepted, in lower or upper case |
| Whisper.HiddenFileRefused | backend/src/services/whisperService.ts:62-67 | a bare `.wav` is a hidden file with no extension and is refused |
| Whisper.ValidateAudioSize | backend/src/services/whisperService.ts:70-73 | accepted exactly when the size is at most 25·1024·1024 bytes |
| Whisper.CollapseSpaces | backend/src/services/whisperService.ts:79 | every run of white space becomes one plain space: the result has single plain spaces, is empty exactly when the input is, keeps a non-space first and last character, and adds no other character |
| Whisper.CollapseOfCollapsed | backend/src/services/whisperService.ts:79 | collapsing is the identity on text that already has single plain spaces |
| Whisper.DropSpaceBeforePunct | backend/src/services/whisperService.ts:80 | it adds no character and keeps a non-space first and last character; on text without double spaces, no white space is left before `.`, `,`, `!` or `?` |
| Whisper.DropOfDropped | backend/src/services/whisperService.ts:80 | dropping is the identity on text with no space before punctuation |
| Whisper.CapitalizeFirst | backend/src/services/whisperService.ts:81 | only a first character in `[a-zçğıöşü]` changes, to upper case; the rest is kept |
| Whisper.CleanTranscription | backend/src/services/whisperService.ts:76-82 | the cleaned text is trimmed, has single plain spaces, no space before punctuation, and does not start with a letter of `[a-zçğıöşü]` |
| Whisper.CleanIdempotent | backend/src/services/whisperService.ts:76-82 | cleaning twice is cleaning once |
| DreamInterpreter.OwnedBy | backend/src/services/dreamInterpreter.ts:92 | exactly the dreams with a matching `userId`, in stored order |
| DreamInterpreter.DreamStore.History | backend/src/services/dreamInterpreter.ts:79-97 | `getDreamHistory` returns exactly the user's stored dreams, in stored order, and `[]` when the file is missing or unreadable |
| DreamInterpreter.DreamStore.SaveDream | backend/src/services/dreamInterpreter.ts:127-174 | exactly one new dream is appended at the end, with `isFavorite` false; a missing file starts a list of one; an unreadable file throws and nothing is written |
| DreamInterpreter.FindDream | backend/src/services/dreamInterpreter.ts:189-191 | the first position whose dream has both the id and the owner, or none |
| DreamInterpreter.DreamStore.DeleteDream | backend/src/services/dreamInterpreter.ts:177-206 | removes only the first dream matching id and owner; with no file, an unreadable file or no match it throws and writes nothing |
| DreamInterpreter.DeleteKeepsOthers | backend/src/services/dreamInterpreter.ts:198 | the rest of the list keeps its order, and exactly one copy of the matched dream is gone |
| DreamInterpreter.RecentDreams | backend/src/services/dreamInterpreter.ts:106-109 | at most five dreams of the history, newest first |
| DreamInterpreter.RecentDreamsContext | backend/src/services/dreamInterpreter.ts:100-124 | a non-empty history gives a context that starts with the fixed header; `RecentContextEmptyIff` and `RecentContextNumbered` state the rest |
| DreamInterpreter.RecentAreNewest | backend/src/services/dreamInterpreter.ts:106-109 | no dream left out of the five is newer than one kept |
| DreamInterpreter.DreamSummary | backend/src/services/dreamInterpreter.ts:113-116 | each summary starts with `RÜYA #<n>` |
| DreamInterpreter.Summaries | backend/src/services/dreamInterpreter.ts:112-117 | one summary per chosen dream, numbered in order |
| DreamInterpreter.RecentContextEmptyIff | backend/src/services/dreamInterpreter.ts:100-124 | the history context is `''` exactly when the user has no dreams |
| DreamInterpreter.RecentContextNumbered | backend/src/services/dreamInterpreter.ts:112-119 | each chosen dream appears in the context under its number, counted from 1 |
| DreamInterpreter.CombineContext | backend/src/services/dreamInterpreter.ts:41-48 | the symbol context comes after the history context, separated by a blank line, or alone when the history is empty |
| DreamInterpreter.InterpretContext | backend/src/services/dreamInterpreter.ts:28-48 | history is used only when a user id is given; the context starts with the history context and ends with the symbol context |
| DreamInterpreter.DemoAsReply | backend/src/services/dreamInterpreter.ts:68-73 | the demo reply keeps its text and energy, and its symbols become `{name, meaning}` objects, one per symbol |
| DreamInterpreter.GeminiStep | backend/src/services/dreamInterpreter.ts:51-54 | without a Gemini key the step fails (the factory throws); otherwise it is the Gemini call |
| DreamInterpreter.GroqStep | backend/src/services/dreamInterpreter.ts:60-62 | without a Groq key the step fails; otherwise it is the Groq call |
| DreamInterpreter.CascadePrefersGemini | backend/src/services/dreamInterpreter.ts:51-54 | a successful Gemini reply is returned unmodified |
| DreamInterpreter.CascadeFallsToGroq | backend/src/services/dreamInterpreter.ts:55-62 | when Gemini has no key or throws, a successful Groq reply is returned unmodified |
| DreamInterpreter.CascadeFallsToDemo | backend/src/services/dreamInterpreter.ts:63-74 | when both fail, the reply is the demo one: its symbols are `{name, meaning}` objects, and a well-shaped table gives one symbol with an energy in [0, 100] |
| DreamInterpreter.InterpretDream | backend/src/services/dreamInterpreter.ts:21-76 | `interpretDream` never throws: its reply is the cascade on the built context, and the only state it touches is the symbol cache |
| Server.ValidateDreamText | backend/src/server.ts:133-153 | a missing, falsy or non-string value is "gerekli" and nothing else is; an invalid result carries one of the four errors |
| Server.ValidIff | backend/src/server.ts:133-153 | a text is valid exactly when it is a string with 10 to 5000 characters once trimmed |
| Server.BlankIsNotMissing | backend/src/server.ts:140-142 | a non-empty all-white-space string is "boş olamaz", not "gerekli" |
| Server.CacheKey | backend/src/server.ts:115-117 | the key is the MD5 of the lower-cased, trimmed concatenation of text, `userId \|\| ''` and `persona \|\| ''` (also line 169) |
| Server.CacheKeyOfConcatenation | backend/src/server.ts:115-117 | requests whose parts concatenate to the same text up to case share a key (also line 169) |
| Server.CacheKeySplitCollides | backend/src/server.ts:169 | without separators, user `ab` with persona `c` and user `a` with persona `bc` share a key |
| Server.CoerceSymbol | backend/src/server.ts:188 | a string symbol becomes `{name, meaning: ''}`, and anything else passes unchanged |
| Server.CoerceSymbols | backend/src/server.ts:188 | same length, element-wise coercion, and no string is left |
| Server.ResponseOf | backend/src/server.ts:185-189 | the response object exists exactly when the symbols are an array, and then carries the interpretation, the energy and the coerced symbols |
| Server.DemoResponds | backend/src/server.ts:185-189 | the demo reply always yields a response (also `dreamInterpreter.ts` line 69-73) |
| Server.Backend.StoreReply | backend/src/server.ts:185-196 | a shaped response is stored under the key and sent with status 200; a failure to shape it is a 500 and the cache is unchanged |
| Server.Backend.Miss | backend/src/server.ts:178-201 | on a miss, the reply of `interpretDream` is shaped, stored and sent, or is a 500; the counters are unchanged |
| Server.Backend.Serve | backend/src/server.ts:170-201 | a hit returns the cached value, counts one hit and loads and calls nothing; a miss counts one miss, interprets, and stores the response under the key before sending it |
| Server.Backend.Interpret | backend/src/server.ts:156-202 | a rate-limited request is 429 and an invalid one is 400, neither touching the cache or the counters; a valid one goes through the cache flow under the key of the trimmed text |
| Server.Capitalize | backend/src/server.ts:79 | the first character is upper-cased and the rest kept |
| Server.FoundSymbols | backend/src/server.ts:76-83 | one capitalized `{name, meaning: genel}` entry per matched table entry, in table order |
| Server.AnalyzeSymbols | backend/src/server.ts:72-86 | the loop pushes exactly `FoundSymbols` of the entries whose key occurs in the lower-cased text |
| Server.AnalyzedAreExtracted | backend/src/server.ts:72-86 | the names `analyzeSymbols` reports are the keys `extractSymbols` finds, capitalized, in the same order (also `dreamSymbols.ts` line 71-75) |
| Server.FoundSymbolMeaning | backend/src/server.ts:77-81 | each entry carries the general reading of a table entry whose key occurs in the text |
| Server.CountPresent | backend/src/server.ts:96-102 | the number of listed words present is at most the list's length |
| Server.CountWords | backend/src/server.ts:96-102 | the `forEach` loop counts exactly the listed words present |
| Server.CalculateEnergy | backend/src/server.ts:89-105 | 50 plus 5 per positive word present, minus 5 per negative word present, clamped; the result is a multiple of 5 in [15, 85] |
| Server.Energy | backend/src/server.ts:89-105 | with seven words on each side, the score is a multiple of 5 in [15, 85] |
| Server.EnergyNeutral | backend/src/server.ts:94-104 | a text with none of the words scores 50 |
| Server.SaveDreamRequest | backend/src/server.ts:205-247 | 200 exactly when admitted, Firebase is up, and the user id, the text, the interpretation and the numeric energy in [0, 100] all pass and the add succeeds; 400 exactly when one of the checks fails |
| Server.StoredDocShape | backend/src/server.ts:231-240 | a stored dream has a trimmed text and interpretation, an array of symbols, an energy in [0, 100] or `NaN`, and is not a favourite |
| Server.Entry | backend/src/server.ts:267-270 | `{id, ...data}`: every data field is kept, and a data field named `id` overrides the document id |
| Server.OwnedDocs | backend/src/server.ts:262-264 | exactly the documents whose `userId` equals the query's |
| Server.Entries | backend/src/server.ts:266-270 | one entry per document, in order |
| Server.RecentEntries | backend/src/server.ts:266-277 | at most 50 of the owner's entries, sorted by `createdAt` newest first, all of them when there are at most 50 |
| Server.ListDreamsRequest | backend/src/server.ts:250-284 | without Firebase an empty list; without a user id a 400; a listing has at most 50 entries |
| OfflineService.CountOk | frontend/src/services/OfflineService.ts:98-101 | the ok count of the first `n` deliveries is at most `n` |
| OfflineService.OfflineQueue.QueueDream | frontend/src/services/OfflineService.ts:24-45 | exactly one item with `retries` 0 is appended to the queue `getQueue` reads, and the queue count grows by one; the id is the clock reading (also line 48-62) |
| OfflineService.OfflineQueue.GetQueue | frontend/src/services/OfflineService.ts:48-56 | the stored queue, or `[]` when the key is empty or unreadable |
| OfflineService.OfflineQueue.GetQueueCount | frontend/src/services/OfflineService.ts:59-62 | zero exactly when the queue is empty, and zero when nothing readable is stored |
| OfflineService.OfflineQueue.RemoveFromQueue | frontend/src/services/OfflineService.ts:65-73 | the queue is rewritten without the items of that id, the rest in order |
| OfflineService.OfflineQueue.SyncQueue | frontend/src/services/OfflineService.ts:76-121 | offline it returns `{0, 0}` and changes nothing. Online, success plus failed is the size of the starting snapshot, success counts the ok deliveries, and the queue ends as `Synced` of the snapshot |
| OfflineService.OfflineQueue.SyncAll | frontend/src/services/OfflineService.ts:87-117 | the loop over the snapshot keeps the invariant that the stored queue is the snapshot after `i` deliveries |
| OfflineService.OfflineQueue.SyncItem | frontend/src/services/OfflineService.ts:88-116 | one snapshot item's delivery moves the queue from `i` to `i + 1` deliveries |
| OfflineService.OfflineQueue.Deliver | frontend/src/services/OfflineService.ts:98-116 | a delivery that drops its item (an ok answer) removes every stored item of that id; any other outcome leaves the stored queue unchanged, since a retry count is bumped on the snapshot copy only |
| OfflineService.OfflineQueue.CacheDreams | frontend/src/services/OfflineService.ts:134-151 | reading the cache back after `cacheDreams(ds)` gives `ds` |
| OfflineService.OfflineQueue.GetCachedDreams | frontend/src/services/OfflineService.ts:143-151 | the cached list, or `[]` when nothing readable is cached |
| OfflineService.KeptFilterStep | frontend/src/services/OfflineService.ts:98-110 | one more delivery filters the survivors by its id when it drops an item, and changes nothing otherwise |
| OfflineService.KeptIff | frontend/src/services/OfflineService.ts:87-117 | an item survives the first `n` deliveries exactly when none of them dropped an item with its id |
| OfflineService.SyncedSelects | frontend/src/services/OfflineService.ts:87-117 | the synced queue is a subsequence of the snapshot, holding exactly the items of ids no drop shared |
| OfflineService.FailedStaysQueued | frontend/src/services/OfflineService.ts:103-116 | a failed delivery never removes its item: stored items have `retries` 0, so one sync reaches 1, below the maximum of 3; the item stays unless an ok delivery shared its id |
| OfflineService.DeliveredLeaves | frontend/src/services/OfflineService.ts:98-101 | an item whose delivery was ok is gone after the sync, with every other item of its id |
| DreamService.CacheKey | frontend/src/services/dreamService.ts:122 | a per-user cache key is never the guest list's key `@dreams_storage` |
| DreamService.CacheKeyInjective | frontend/src/services/dreamService.ts:122 | different users never share a cache key |
| DreamService.LocalDream | frontend/src/services/dreamService.ts:57-62 | the new dream keeps the draft's fields and gets the id, the creation time and `isLocal` true |
| DreamService.Body | frontend/src/services/dreamService.ts:81-87 | a response yields its JSON exactly when it is an ok answer with a body; a non-ok status is the `HTTP error! status: <n>` failure; an unreachable server rethrows its error (also line 135-139) |
| DreamService.DreamStore.SaveLocalDreams | frontend/src/services/dreamService.ts:96-117 | reading back after `saveLocalDreams(ds)` gives `ds` |
| DreamService.DreamStore.GetLocalDreams | frontend/src/services/dreamService.ts:96-107 | the stored list, or `[]` when nothing readable is stored |
| DreamService.DreamStore.SaveDream | frontend/src/services/dreamService.ts:50-93 | a guest's dream goes in front of the stored list with `isLocal` true, and the older ones follow unchanged; a registered user's save is the post, and local storage is untouched |
| DreamService.DreamStore.GetDreams | frontend/src/services/dreamService.ts:121-159 | a guest reads only the local list. A registered user's fetched list is written to `@dreams_storage_<id>` and returned. On failure the cached value is returned, and without one the error propagates |
| DreamService.DreamStore.DeleteDream | frontend/src/services/dreamService.ts:162-181 | a guest's list loses every dream with that id; a registered user's delete succeeds exactly when the response is ok; local storage only changes for a guest |
| DreamService.GuestDeleteKeepsOthers | frontend/src/services/dreamService.ts:169 | the guest delete keeps the other dreams in their order |
| Analytics.EnergyCategory | frontend/src/services/AnalyticsService.ts:118-122 | below 40 is low, 40 to 69 medium, 70 and above high |
| Analytics.RoundMinutes | frontend/src/services/AnalyticsService.ts:112 | `Math.round(ms / 60000)` is the nearest whole minute |
| Analytics.Count | frontend/src/services/AnalyticsService.ts:139-142 | the count of a name is at most the number of events |
| Analytics.Names | frontend/src/services/AnalyticsService.ts:139-142 | the distinct names are exactly the names that occur |
| Analytics.AnalyticsService.LogEvent | frontend/src/services/AnalyticsService.ts:17-29 | exactly one event with this name and these parameters is appended |
| Analytics.AnalyticsService.LogScreenView | frontend/src/services/AnalyticsService.ts:32-37 | logs one `screen_view` event |
| Analytics.AnalyticsService.LogDreamCreated | frontend/src/services/AnalyticsService.ts:40-46 | logs one `dream_created` event with the energy category |
| Analytics.AnalyticsService.LogDreamSaved | frontend/src/services/AnalyticsService.ts:49-54 | logs one `dream_saved` event |
| Analytics.AnalyticsService.LogDreamDeleted | frontend/src/services/AnalyticsService.ts:57-61 | logs one `dream_deleted` event |
| Analytics.AnalyticsService.LogFavoriteToggled | frontend/src/services/AnalyticsService.ts:64-69 | logs one `favorite_toggled` event |
| Analytics.AnalyticsService.LogShare | frontend/src/services/AnalyticsService.ts:72-77 | logs one `dream_shared` event |
| Analytics.AnalyticsService.LogProfileView | frontend/src/services/AnalyticsService.ts:80-84 | logs one `profile_viewed` event |
| Analytics.AnalyticsService.LogSearch | frontend/src/services/AnalyticsService.ts:87-92 | logs one `search_performed` event with the query length |
| Analytics.AnalyticsService.LogFilterUsed | frontend/src/services/AnalyticsService.ts:95-100 | logs one `filter_used` event |
| Analytics.AnalyticsService.LogSessionEnd | frontend/src/services/AnalyticsService.ts:108-115 | `events_count` is the size of the log before the `session_end` event joins it |
| Analytics.AnalyticsService.GetStats | frontend/src/services/AnalyticsService.ts:135-144 | `totalEvents` is the number of events; `eventsByType` has exactly the occurring names, each with its count |
| Analytics.AnalyticsService.ClearEvents | frontend/src/services/AnalyticsService.ts:147-150 | the log is empty afterwards |
| Analytics.TallyCounts | frontend/src/services/AnalyticsService.ts:139-142 | the `reduce` tally has one entry per distinct name, with that name's count |
| Analytics.NamesDistinct | frontend/src/services/AnalyticsService.ts:139-142 | the tallied names are pairwise distinct |
| Analytics.CountsSumToTotal | frontend/src/services/AnalyticsService.ts:135-144 | the per-name counts add up to `totalEvents` |
| ResultScreen.UntilRule | frontend/src/screens/ResultScreen.tsx:85 | the main text is the prefix before the first `━`, or the whole text |
| ResultScreen.UntilStop | frontend/src/screens/ResultScreen.tsx:78-81 | a section capture is a prefix that stops before the first `━` or `💫` |
| ResultScreen.SectionSearch | frontend/src/screens/ResultScreen.tsx:78-81 | the capture of the leftmost section match has no `━` or `💫`; text without `━` has no match |
| ResultScreen.AwarenessSearch | frontend/src/screens/ResultScreen.tsx:82 | the awareness capture has no `"`; text without `💫` has none |
| ResultScreen.SectionText | frontend/src/screens/ResultScreen.tsx:88-98 | the Turkish header is tried before the English one, and the capture is trimmed; `''` without a `━` |
| ResultScreen.ParseInterpretation | frontend/src/screens/ResultScreen.tsx:69-105 | every field is trimmed; the main text holds no `━`; without `━` the main text is the trimmed text and there are no sections; the awareness has no quote, and is `''` without `💫` |
| ResultScreen.UntilRuleWhole | frontend/src/screens/ResultScreen.tsx:85-86 | without a divider the main text is the whole text |
| ResultScreen.SectionFound | frontend/src/screens/ResultScreen.tsx:78-81 | a section with header `h` is found by the search for `h`, and its capture trims to the trimmed body |
| ResultScreen.SectionSkipSection | frontend/src/screens/ResultScreen.tsx:78-81 | the search for one header passes over a section whose header starts differently |
| ResultScreen.AwarenessQuoted | frontend/src/screens/ResultScreen.tsx:82 | a quoted message after the marker is captured exactly |
| ResultScreen.AwarenessFound | frontend/src/screens/ResultScreen.tsx:82 | the awareness line the enrichment appends is found and its message captured (also `AIProvider.ts` line 248) |
| ResultScreen.EnrichedIsText | backend/src/services/AIProvider.ts:236-249 | the Gemini enrichment of four string fields is the text `EnrichedText` |
| ResultScreen.MainOfEnriched | frontend/src/screens/ResultScreen.tsx:85-86 | with a section present, the main text of an enriched text is the trimmed interpretation (also `AIProvider.ts` line 236-249) |
| ResultScreen.InnerOfEnriched | frontend/src/screens/ResultScreen.tsx:78-79 | the inner journey of an enriched text is recovered trimmed (also line 88-92) |
| ResultScreen.PracticeOfEnriched | frontend/src/screens/ResultScreen.tsx:80-81 | the spiritual practice of an enriched text is recovered trimmed (also line 94-98) |
| ResultScreen.AwarenessOfEnriched | frontend/src/screens/ResultScreen.tsx:82 | the awareness message is recovered exactly when there was one (also line 100-102) |
| ResultScreen.ParseEnrichedRoundTrip | frontend/src/screens/ResultScreen.tsx:69-105 | round trip: for parts free of `━`, `💫` and `"` and at least one section, parsing the enriched text gives back the trimmed interpretation (or its default), both sections and the awareness message (also `AIProvider.ts` line 236-249) |
| ResultScreen.ParseWithoutSections | frontend/src/screens/ResultScreen.tsx:85-86 | without a section, the main text runs to the end and still holds the awareness line, which is also returned as the awareness (also line 100-102) |
| HistoryScreen.SearchStage | frontend/src/screens/HistoryScreen.tsx:152-157 | the search throws exactly when the trimmed query is not empty and a dream lacks `dreamText` |
| HistoryScreen.SearchStageIsFilter | frontend/src/screens/HistoryScreen.tsx:152-157 | the search applies only for a non-blank query, keeping the dreams whose text or interpretation contains the lower-cased, untrimmed query |
| HistoryScreen.TabStageIsFilter | frontend/src/screens/HistoryScreen.tsx:148-150 | the favourites tab keeps only favourites |
| HistoryScreen.EnergyStageIsFilter | frontend/src/screens/HistoryScreen.tsx:159-160 | `high` keeps energy ≥ 70 and `low` energy < 40, with missing energy as 0 |
| HistoryScreen.StagesAreOneFilter | frontend/src/screens/HistoryScreen.tsx:145-160 | the three stages select, in order, exactly the dreams meeting all three conditions |
| HistoryScreen.FilteredDreams | frontend/src/screens/HistoryScreen.tsx:145-163 | the list is sorted by date, newest first; it fails exactly when the search throws |
| HistoryScreen.FilteredDreamsSelect | frontend/src/screens/HistoryScreen.tsx:145-163 | the shown list is a permutation of the selected dreams: nothing is added or altered |
| HistoryScreen.NoFilterShowsAll | frontend/src/screens/HistoryScreen.tsx:145-163 | with no tab, search or filter, every dream is shown, newest first |
| HistoryScreen.Flipped | frontend/src/screens/HistoryScreen.tsx:124 | entries with the id get `isFavorite` set to `!currentFavorite`, and every other entry is unchanged |
| HistoryScreen.FlippedKeepsFields | frontend/src/screens/HistoryScreen.tsx:124 | the flip touches only the favourite flag |
| HistoryScreen.FlipBack | frontend/src/screens/HistoryScreen.tsx:124 | flipping back restores the list |
| HistoryScreen.FlipToFavorite | frontend/src/screens/HistoryScreen.tsx:124 | a dream marked favourite appears under the favourites tab, and the other favourites are unchanged (also line 148-150) |
| HistoryScreen.FlippedStored | frontend/src/screens/HistoryScreen.tsx:132 | the device list's flip changes only the entries with the id |
| HistoryScreen.ToggleFavorite | frontend/src/screens/HistoryScreen.tsx:120-136 | without a user nothing happens; otherwise the shown list is flipped, and for a guest the device list is flipped and written back |
| StatsScreen.RoundDiv | frontend/src/screens/StatsScreen.tsx:72 | `Math.round(a / b)` is the nearest integer, halves up |
| StatsScreen.AvgEnergy | frontend/src/screens/StatsScreen.tsx:70-72 | 0 for no dreams, otherwise the rounded mean of `energy \|\| 0` |
| StatsScreen.AvgEnergyBounds | frontend/src/screens/StatsScreen.tsx:71-72 | with every energy in [0, 100], the average is in [0, 100] |
| StatsScreen.Distinct | frontend/src/screens/StatsScreen.tsx:84 | each name once, exactly the names that occur |
| StatsScreen.TallyStep | frontend/src/screens/StatsScreen.tsx:79 | `symbolCounts[name] = (symbolCounts[name] \|\| 0) + 1` keeps the tally |
| StatsScreen.CountNames | frontend/src/screens/StatsScreen.tsx:78-80 | the inner loop adds one occurrence per symbol name |
| StatsScreen.CountSymbols | frontend/src/screens/StatsScreen.tsx:75-82 | `symbolCounts[name]` is the number of occurrences of that name across all dreams; the model lists the keys in first-occurrence order (see Left out) |
| StatsScreen.Entries | frontend/src/screens/StatsScreen.tsx:84 | one `{name, count}` per key, in key order (also line 87) |
| StatsScreen.TopSymbols | frontend/src/screens/StatsScreen.tsx:84-87 | at most five entries, sorted by count descending, taken from the entries |
| StatsScreen.TopSymbolsAreTop | frontend/src/screens/StatsScreen.tsx:84-87 | no entry left out of the top five has a larger count than one kept |
| StatsScreen.TopSymbolsCounted | frontend/src/screens/StatsScreen.tsx:75-87 | each listed symbol's count is its number of occurrences, at least 1 |
| StatsScreen.DayCount | frontend/src/screens/StatsScreen.tsx:92-98 | a day's count is at most the number of dreams |
| StatsScreen.WindowCount | frontend/src/screens/StatsScreen.tsx:95 | the in-window count is at most the number of dreams |
| StatsScreen.WeekCountsStep | frontend/src/screens/StatsScreen.tsx:92-98 | one more dream adds one to slot `6 − diffDays` when it is in the window, and changes nothing otherwise |
| StatsScreen.WeekCountsSum | frontend/src/screens/StatsScreen.tsx:90-98 | the seven slots add up to the number of dreams in the window |
| StatsScreen.Weekly | frontend/src/screens/StatsScreen.tsx:90-98 | the `weekly` loop computes `WeekCounts` |
| StatsScreen.LoadStats | frontend/src/screens/StatsScreen.tsx:56-105 | a non-array answer leaves the stats unchanged; otherwise total, rounded average, weekly slots and the top symbols of the tally |
| ProfileScreen.CodeUnits | frontend/src/screens/ProfileScreen.tsx:54 | a code point below U+10000 adds its own value; an astral one adds its two UTF-16 surrogates, a sum between 0xD800 + 0xDC00 and 0xDBFF + 0xDFFF |
| ProfileScreen.AvatarText | frontend/src/screens/ProfileScreen.tsx:53 | `name \|\| email \|\| 'DG'`, never empty |
| ProfileScreen.GradientFor | frontend/src/screens/ProfileScreen.tsx:54-67 | the colours are always one of the eight pairs |
| ProfileScreen.AvatarGradient | frontend/src/screens/ProfileScreen.tsx:52-68 | one of the eight pairs, chosen by the code sum of the avatar text |
| ProfileScreen.CodeSumPermutation | frontend/src/screens/ProfileScreen.tsx:54 | the hash does not depend on the order of the characters |
| ProfileScreen.GradientOfAnagram | frontend/src/screens/ProfileScreen.tsx:52-68 | names made of the same characters get the same colours |
| ProfileScreen.Words | frontend/src/screens/ProfileScreen.tsx:75 | the split drops empty parts and no part has a space |
| ProfileScreen.NameInitials | frontend/src/screens/ProfileScreen.tsx:75-79 | one or two characters; a name of fewer than two words gives its first two characters, upper-cased |
| ProfileScreen.Initials | frontend/src/screens/ProfileScreen.tsx:70-85 | one or two characters, `??` included, and `??` without a profile; each branch is stated by the lemmas of the next rows |
| ProfileScreen.InitialsOfFirstAndLast | frontend/src/screens/ProfileScreen.tsx:71-73 | with both name fields set, the upper-cased first letters of each |
| ProfileScreen.InitialsOfWords | frontend/src/screens/ProfileScreen.tsx:74-78 | for a name of two or more words, the upper-cased first letters of the first and last word |
| ProfileScreen.InitialsOfOneWord | frontend/src/screens/ProfileScreen.tsx:74-79 | without both name fields, a one-word name with no space gives its first two characters, upper-cased |
| ProfileScreen.WordsOfJoin | frontend/src/screens/ProfileScreen.tsx:75 | splitting a single-space join of space-free words gives the words back |
| ProfileScreen.InitialsWithoutName | frontend/src/screens/ProfileScreen.tsx:81-84 | without a name, the email's first two characters upper-cased, or `??` |
| ProfileScreen.EditNamesRebuild | frontend/src/screens/ProfileScreen.tsx:217-226 | with only `name` set, first name, a space and last name rebuild the trimmed name when it has a space; without one the trimmed name is the first name |
| ProfileScreen.EditNamesOfName | frontend/src/screens/ProfileScreen.tsx:222-226 | the form holds the first piece of the trimmed name and the rest joined by spaces |
| ProfileScreen.SaveProfile | frontend/src/screens/ProfileScreen.tsx:233-241 | nothing for a blank first name; otherwise the trimmed parts, and a full name of `trim(first) + ' ' + trim(last)` or just the first name |
| ProfileScreen.FullNameTrim | frontend/src/screens/ProfileScreen.tsx:236 | the template with a trailing space, trimmed, is the first name or first, space, last |
| ProfileScreen.EditThenSaveKeepsName | frontend/src/screens/ProfileScreen.tsx:217-241 | opening the editor and saving it unchanged keeps a name whose first space stands alone between two words |
| ProfileScreen.LoadProfileStats | frontend/src/screens/ProfileScreen.tsx:157-178 | a non-array answer leaves the numbers; otherwise the total, the rounded average, and a weekly count that is the number of dreams with a date at most seven days before now, between 0 and the total |
| ProfileScreen.SevenDaysCount | frontend/src/screens/ProfileScreen.tsx:171 | a dream exactly seven days old still counts |
| ProfileScreen.WindowWithinRecent | frontend/src/screens/ProfileScreen.tsx:169-172 | every dream of the statistics chart's window is counted as recent by the profile (also `StatsScreen.tsx` line 95) |
| ProfileScreen.StatsQueryAsWritten | frontend/src/screens/ProfileScreen.tsx:160 | the query `?userId = <id> ` has no `userId` key once parsed |
| ProfileScreen.ProfileStatsRequestRefused | frontend/src/screens/ProfileScreen.tsx:160-162 | the profile's request is answered 400 with no array, so `loadStats` keeps its numbers (also `server.ts` line 256-260) |
| ProfileScreen.StatsQuery | frontend/src/screens/StatsScreen.tsx:61 | the query `?userId=<id>` carries the id under `userId` |
| ProfileScreen.ProfileStatsRequestListed | frontend/src/screens/StatsScreen.tsx:61 | with the query written the statistics screen's way, the owner's dreams come back as an array (also `server.ts` line 256-279) |
| OnboardingQuiz.Bump | frontend/src/screens/OnboardingQuizScreen.tsx:50 | the chosen type gains exactly one point and the others are unchanged |
| OnboardingQuiz.Tally | frontend/src/screens/OnboardingQuizScreen.tsx:47-51 | the scores add up to the number of answers |
| OnboardingQuiz.TallyCounts | frontend/src/screens/OnboardingQuizScreen.tsx:47-51 | each type's score is the number of times it was chosen |
| OnboardingQuiz.ReduceWinner | frontend/src/screens/OnboardingQuizScreen.tsx:62 | the reduce returns one of the keys |
| OnboardingQuiz.ReduceWinnerIsLastMaximum | frontend/src/screens/OnboardingQuizScreen.tsx:62 | the winner has a maximal score, and no later key scores as much: ties go to the later key |
| OnboardingQuiz.WinnerCases | frontend/src/screens/OnboardingQuizScreen.tsx:62 | GUIDE wins unless strictly beaten; MYSTIC wins when it beats GUIDE and at least ties ANALYST; ANALYST wins only when it beats both (also the initial scores at line 47) |
| OnboardingQuiz.TieGoesToGuide | frontend/src/screens/OnboardingQuizScreen.tsx:62 | a 1-1-1 split goes to GUIDE, the last key of the initial scores at line 47 |
| OnboardingQuiz.Quiz.HandleAnswer | frontend/src/screens/OnboardingQuizScreen.tsx:49-58 | the chosen type gains a point; before the last question the step advances; the last answer finishes with the winner of the new scores |
| OnboardingQuiz.Quiz.FinishQuiz | frontend/src/screens/OnboardingQuizScreen.tsx:60-65 | exactly one profile update, with the winner |
| OnboardingQuiz.AnswerAll | frontend/src/screens/OnboardingQuizScreen.tsx:49-58 | answering every question of a fresh screen leaves the answer tally as the scores and exactly one profile update, with its winner |
| OnboardingQuiz.TakeQuiz | frontend/src/screens/OnboardingQuizScreen.tsx:46-65 | three answers from a fresh screen send exactly one update, with the winner of the scores, whose scores are the answer counts |
| JsValue.Or | backend/src/services/AIProvider.ts:236 | `a \|\| d` is `a` when present and truthy, and `d` otherwise |
| JsValue.Get | backend/src/services/AIProvider.ts:258 | reading a property throws exactly on `null`; an object yields its own field; other values yield `undefined` |
| JsValue.Clamp | backend/src/services/AIProvider.ts:264 | `Math.max(0, Math.min(100, v))`, which converts `v` with `Number`, is `NaN` exactly when the model's `Number` reads `NaN`, and otherwise in [0, 100], keeping values already in range; `Number` reads empty text, signed decimal integers and unsigned `0x`, `0o` and `0b` literals |
| JsValue.NumberOfText | backend/src/services/AIProvider.ts:264 | `Number` of a printed integer is that integer |
| JsValue.HexExample | backend/src/services/AIProvider.ts:264 | `Number("0x1A")` is 26 |
| JsValue.BinaryExample | backend/src/services/AIProvider.ts:264 | `Number("0b11")` is 3 |
| JsValue.SignedHexExample | backend/src/services/AIProvider.ts:264 | `Number("-0x1A")` is `NaN`: no sign may precede a prefixed literal |
| Text.Trim | backend/src/server.ts:138 | `trim` leaves no surrounding white space |
| Text.TrimIdempotent | backend/src/server.ts:138 | trimming is idempotent |
| Text.Lower | backend/src/server.ts:74 | `toLowerCase` maps each character and keeps the length |
| Text.Take | backend/src/services/dreamInterpreter.ts:114 | `substring(0, n)` is a prefix of length `min(n, length)` |
| Text.Split | frontend/src/screens/ProfileScreen.tsx:223 | `split` of a one-character separator gives at least one piece, none holding the separator |
| Text.JoinSplit | frontend/src/screens/ProfileScreen.tsx:223-225 | joining a split with the same separator rebuilds the text |
| Text.SplitJoin | frontend/src/screens/ProfileScreen.tsx:75 | splitting a join of separator-free pieces gives the pieces back |
| Sequences.Filter | frontend/src/services/OfflineService.ts:68 | `filter` keeps exactly the elements that pass, in order |
| Sequences.FilterSubsequence | frontend/src/services/OfflineService.ts:68 | the kept elements keep their relative order |
| Sequences.RemoveAt | backend/src/services/dreamInterpreter.ts:198 | `splice(k, 1)` removes the element at `k`, and the others keep their order |
| Sorting.SortDesc | backend/src/services/dreamInterpreter.ts:106 | the descending sort is a permutation of its input |
| Sorting.SortDescSorted | backend/src/services/dreamInterpreter.ts:106 | the sorted sequence is in descending key order |
| Sorting.SortDescOfSorted | backend/src/services/dreamInterpreter.ts:106 | the sort is stable: an already sorted sequence is unchanged |

## Left out

- Lengths are counted in code points. JavaScript counts UTF-16 code units, so `substring(0, 150)`, `substring(0, 500)` and `substring(0, 2)` differ from the model on text with astral characters such as emoji. `ProfileScreen.CodeUnits` is the one place that counts surrogates.
- `toLowerCase` and `toUpperCase` are modelled as a character map over ASCII and the Turkish letters. Special casings that change the length, such as `İ` lowering to `i̇`, are not modelled.
- Floating point is not modelled:
  - the sampling temperature;
  - numbers that are not integers (energies are integers);
  - `analyzeSentimentDetailed`;
  - the statistics chart geometry.
- `Math.round` is modelled for integer quotients only.
- The SDK calls are oracles that return text or fail. This covers Gemini's `generateContent`, Groq's chat completion and OpenAI. The OpenAI and Claude `interpret` methods are not modelled, because the cascade never reaches them. `createProvider` does model building them.
- The Groq prompt text and the Groq awareness line are fixed text inside `GroqOutcome`. Only the parse, the fallbacks and the missing clamp are stated about it.
- `JSON.parse`, MD5, `new Date(...).getTime()`, `toLocaleDateString`, `Date.now`, `Math.random` and `toISOString` are parameters.
- The rate limiters are a boolean verdict. Cache TTL expiry and node-cache's background sweep are not modelled, so a stored entry stays until replaced.
- Firebase initialisation and Firestore are parameters. The `DELETE /api/dreams/:id` route is not part of this model.
- Concurrency is not modelled: overlapping cache misses, `startAutoSync`'s NetInfo listener, and React state races. Each operation runs alone.
- Logging (`console.log`, `console.error`) is not modelled, and neither are the analytics `sendToBackend` stub and the navigation calls.
- `HistoryScreen.ToggleFavorite` does not model the analytics event it logs or the refetch in its `catch`.
- `AiConfig.PersonaKeys` does not state that every persona's role and instructions are non-empty. Unfolding the long persona texts costs more than the verifier's resource limit allows.
- The second fallback `personas.DEEP_ANALYST` of the persona lookup is the active persona itself, so the model has a single fallback.
- `Analytics.AnalyticsService.GetStats`: the tally assumes event names are own keys of the `reduce` accumulator. A name such as `toString` would read an inherited function instead of 0. The wrappers only use fixed names, and `logEvent`'s callers never pass such a name.
- `Whisper.ExtName` models POSIX `path.extname` only. The backend runs on POSIX paths.
- `Sentiment.AnalyzeSentiment` models the corrected boundaries (see Findings). `Sentiment.SentimentAsWritten` is the label the source computes.
- AiProvider.GeminiInterpret: the Gemini path uses the corrected persona lookup `SelectPersona` (see Findings). This covers `GeminiOutcome`, and through it `GeminiStep`, the cascade, `InterpretDream` and `Server.Backend.Interpret`. An inherited persona name such as `toString` therefore gets the active persona's prompt, where the source lays out a prompt whose role and instructions read `undefined`. `SelectPersonaAsWritten` and `PrototypeNameBreaksPrompt` model the source's lookup, and `SelectPersonaAgrees` shows that the two lookups agree on every other name.
- DreamInterpreter.DreamStore.SaveDream: the stored `sentiment` is the corrected letter-aware label `SentimentOf` (see Findings). The source stores the ASCII-boundary label that `Sentiment.SentimentAsWritten` gives, so a dream `ölüm` is stored as `very_negative` here and as `neutral` by the source.
- JsValue.Clamp: `Number` of a string is modelled on integers without infinity. Strings that JavaScript reads as numbers but the model reads as `NaN` are decimal fractions such as `85.0` or `.5`, exponent forms such as `1e2`, and `Infinity` and `-Infinity`. The source would clamp `1e2` to 100, `Infinity` to 100 and `-Infinity` to 0, where the model gives `NaN`. Hexadecimal, octal and binary literals are modelled.
- StatsScreen.CountSymbols: two parts of JavaScript object semantics are not modelled. First, `Object.entries` lists integer-like keys such as `7` or `42` first, in ascending numeric order, before the other keys in insertion order; the model lists all keys in first-occurrence order, which can change which names win ties in the stable top-five sort. Second, an inherited name such as `constructor` makes `symbolCounts[name] || 0` read a function, so its count becomes text; the model counts every name as an own key.

## Findings

| source | as written | input that shows it | evidently intended | confidence | as-written member | corrected member |
|---|---|---|---|---|---|---|
| backend/src/services/AIProvider.ts:168-170 | `persona && configPersonas[persona]` tests truthiness through the prototype chain, so an inherited name passes | persona `"toString"`: the selected persona is `Object.prototype.toString`, and the prompt's role and instructions read `undefined` | an unknown persona, inherited names included, resolves to the active persona | high, not executed | AiProvider.PrototypeNameBreaksPrompt | AiProvider.SelectPersonaAgrees |
| backend/src/services/sentimentAnalysis.ts:41-50 | `\b${word}\b` without the `u` flag treats only ASCII letters, digits and `_` as word characters | the text `ölüm` has no match of the negative word `ölüm`, because no `\b` stands before `ö` | each listed word counts when it appears as a whole word | high, not executed | Sentiment.DeathNotCountedAsWritten | Sentiment.AnalyzeSentiment |
| frontend/src/screens/ProfileScreen.tsx:160 | the URL is `?userId = ${user.id} `, so the spaces become part of the query's key and value | any user: the query has the key `userId ` and no `userId`, the server answers 400, and `loadStats` returns without numbers | `?userId=${user.id}`, as frontend/src/screens/StatsScreen.tsx:61 writes it | medium, not executed | ProfileScreen.ProfileStatsRequestRefused | ProfileScreen.ProfileStatsRequestListed |
