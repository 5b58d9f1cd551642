# weather-advisor core, modelled in Dafny

weather-advisor is a Next.js weather assistant. A user asks a question about the weather at a
place; the server fetches the weather, works out what kind of question it is, cuts the weather
report down to what that kind of question needs, and asks a language model to answer, falling
back on canned text when the model is unavailable. Around that pipeline sit several small
deterministic components, and this project models them and proves properties of the model:

- the question classifiers (`identifyQuestionIntent`, `categorizeQuestion`) and the lookup
  tables (compass label of a wind bearing, moon-phase names, air-quality descriptions, token
  budget per intent) — modules `Intent` and `Lookup`;
- the context shaping of the analysis: `extractRelevantWeatherData` (module `Context`),
  `formatWeatherDataForPrompt`, `createSystemPromptForIntent` and the user prompt (module
  `Prompt`), the answers given without the model, `createFallbackAnswer` and
  `handleCommonWeatherQuestions` (module `Fallback`);
- the language-model side: the request `analyzeWeatherWithLLM` sends, the way it maps what
  comes back (response, no data, no choices, timeout, gateway timeout, other error) to an
  answer, and the retry loop of the `OpenRouterChatModel` client (module `Llm`);
- the state kept between requests: the 15-minute weather cache of the weather route and the
  cache decision of `fetchWeatherData`, the per-session memory capped at ten messages (module
  `RouteState`, over the generic expiring cache of module `ExpiringCache`), the chat-memory
  utility capped at twenty messages (module `ChatMemory`) and the 30-minute weather-cache
  utility (module `WeatherCacheUtil`);
- the input sanitiser and location validator (module `Sanitize`);
- the keyword reply tables: the client's fallback replies (module `WeatherFallback`), the
  simple weather endpoint (module `SimpleRoute`), the mock chat endpoint (module `ChatRoute`)
  and the fallback geocoder (module `LocationsFallback`).

Shared modules: `Wrappers` (`Option`, `Result`), `Text` (substring search, `toLowerCase`,
`trim`, `replace`, integer rendering and `parseInt`) and `Js` (a JavaScript value with
truthiness, `||`, property reads and `String(x)`).

Code that updates state in place is modelled as classes: the caches (`ExpiringCache.Cache`),
the two memory stores (`RouteState.SessionMemory`, `ChatMemory.MemoryStore`) and the model
client (`Llm.OpenRouterChatModel`). Their methods are proved against pure specification
functions (`Read`/`AfterRead`, `Remembered`, `Saved`, `Run`), and the properties are lemmas
about those functions. Code that builds a result with a loop keeps the loop: the text
accumulation of `formatWeatherDataForPrompt` and `createFallbackAnswer`, the `while` loop of
`saveToMemory`, the attempt loop of `invoke` and the table scan of the fallback geocoder.

Modelling conventions:

- The clock (`Date.now()`) is a `now` parameter; where a function reads it twice, each reading is a parameter of its own. What the network returns is a parameter too:
  the outcome of the single request of `analyzeWeatherWithLLM`, the result of each attempt of
  `invoke`, what the OpenWeatherMap requests of `fetchWeatherData` give. The values of
  `Math.random()` that `generateSimpleWeatherData` draws are also parameters.
- Numbers from the weather service carry their value and the text JavaScript renders for them
  (`Js.Number`); quantities derived with floating-point arithmetic (`visibility / 1000`,
  `pop * 100`) come with the report.
- `toLowerCase` is modelled on ASCII letters; `trim` removes the ECMAScript white space and
  line terminators.

Three facts about the code shape the model:

- `analyzeWeatherWithLLM` sends `max_tokens: 800` for every intent
  (src/app/api/weather/route.js:1304, beside the comment `// Dynamic token allocation`);
  `getMaxTokensForIntent` (lines 1241-1252) is defined but never called (see Findings).
- `invoke` reads `response.data.choices[0].message` inside its `try`
  (src/app/api/weather/route.js:367), so a response without choices throws and is retried like
  a network error.
- `getCachedWeatherData` drops an entry when its age is strictly greater than 15 minutes (`>`,
  src/app/api/weather/route.js:22), while `fetchWeatherData` serves an entry only when its age
  is strictly less (`<`, line 76): an entry exactly 15 minutes old is served by the first and
  fetched again by the second. `getCachedWeatherData` and `cacheWeatherData` are never called
  by the route itself.

## Model

| member | source | states |
|---|---|---|
| Intent.TagInjective | src/app/api/weather/route.js:829-920 | the ten intent tags are pairwise different, so the classifier has exactly ten outcomes |
| Intent.IdentifyQuestionIntent | src/app/api/weather/route.js:829-920 | the first rule whose keywords occur decides: each intent is given exactly when its rule fires and no earlier rule does, and current conditions also when no rule fires |
| Intent.UvRuleWins | src/app/api/weather/route.js:833-837 | a question mentioning "uv index" or "ultraviolet" is an explanation whatever else it says |
| Intent.ForecastWordIsForecast | src/app/api/weather/route.js:846-851 | any forecast keyword ("forecast", "tomorrow", "later", "tonight", ...) without a UV or air-quality keyword gives forecast |
| Intent.TomorrowOrTonightIsForecast | src/app/api/weather/route.js:846-851 | "tomorrow" or "tonight" without a UV or air-quality keyword gives forecast |
| Intent.AlertsOnlyThroughWatchOrAdvisory | src/app/api/weather/route.js:882-916 | the alerts intent needs "watch" or "advisory" and excludes "alert" and "warning", which the earlier safety rule catches |
| Intent.DefaultIsCurrentConditions | src/app/api/weather/route.js:918-919 | with no keyword of any rule the intent is current conditions |
| Intent.ExplanationOnlyFromUvOrAirQuality | src/app/api/weather/route.js:833-843 | the explanation intent arises from the UV and air-quality rules and from nothing else |
| Intent.NeedSunscreenIsClothing | src/app/api/weather/route.js:833-870 | "need sunscreen" escapes the UV rule and lands in the clothing rule |
| Intent.WhatIsClothing | src/app/api/weather/route.js:864-870 | keywords match as substrings: "what" contains "hat", so an unclaimed "what" question is about clothing |
| Intent.CategorizeIgnoresCase | src/app/api/weather/route.js:582-599 | the older classifier ignores case: a question and its lower-cased form fall in the same category |
| Intent.CategorizeQuestion | src/app/api/weather/route.js:582-599 | forecast exactly when a forecast word occurs; activity exactly when none does and both a "can i"/"should i" and a "walk"/"run"/"outside" occur; general otherwise |
| Intent.CategorizeForecastAgrees | src/app/api/weather/route.js:582-599 | a forecast of the older classifier is an explanation or a forecast for the newer one |
| Intent.CategorizeActivityAgrees | src/app/api/weather/route.js:582-599 | an activity question with "walk" or "run" never reaches the safety, astronomy, travel, comparison or alerts rules |
| Lookup.JsRound | src/app/api/weather/route.js:297 | `Math.round` gives the integer within half of its argument |
| Lookup.JsRem | src/app/api/weather/route.js:297 | JavaScript `%` on a positive divisor: the dividend is the divisor times the quotient truncated toward zero plus the remainder, which lies in `[0, b)` for a non-negative dividend and in `(-b, 0]` for a negative one |
| Lookup.CompassIndex | src/app/api/weather/route.js:297 | the table index lies strictly between -16 and 16, and is negative only for bearings below -11.25 |
| Lookup.WindDirection | src/app/api/weather/route.js:295-299 | a label exists exactly when the index is not negative, and it is one of the 16 compass points |
| Lookup.WindDirectionTotal | src/app/api/weather/route.js:295-299 | every bearing of at least 0 has a label; 0 and 360 degrees are both "N" |
| Lookup.WindDirectionPeriodic | src/app/api/weather/route.js:295-299 | adding a full turn to a non-negative bearing keeps its label |
| Lookup.WindDirectionUndefinedBelowZero | src/app/api/weather/route.js:295-299 | bearings between -348.75 and -11.25 read past the table and give `undefined` |
| Lookup.MoonPhase | src/app/api/weather/route.js:302-310 | the name is one of the eight phase names; "New Moon" exactly at 0 and 1, "Full Moon" exactly at 0.5 |
| Lookup.MoonPhaseDescription | src/app/api/weather/route.js:1406-1416 | the description is one of the eight phase names or "Unknown", and "Unknown" exactly above 1 |
| Lookup.MoonPhaseTablesAgree | src/app/api/weather/route.js:302-311 | `getMoonPhase` and `getMoonPhaseDescription` agree exactly up to 1; above 1 one says "Waning Crescent", the other "Unknown" |
| Lookup.MoonPhaseQuarterNames | src/app/api/weather/route.js:1406-1416 | 0 and 1 are "New Moon"; 0.25, 0.5 and 0.75 are the quarter and full names |
| Lookup.AqiDescription | src/app/api/weather/route.js:1419-1441 | the description is undefined exactly for fractional values between 1 and 5, and otherwise one of the six levels |
| Lookup.AqiSeverityMonotone | src/app/api/weather/route.js:1419-1441 | above 5 a larger index never reads as better air; 5 reads "Very Unhealthy" and 6 reads "Good" |
| Lookup.MaxTokensForIntent | src/app/api/weather/route.js:1241-1252 | 800 exactly for explanation, 600 exactly for forecast, 300 exactly for current conditions, 500 exactly for every other intent |
| Context.Days | src/app/api/weather/route.js:950-959 | one summary per day, in order; each carries the day's date, the maximum as high, the minimum as low and the description as conditions, with humidity and wind exactly when asked for |
| Context.Hours | src/app/api/weather/route.js:952-959 | one summary per hour, in order; each carries the hour's time, temperature, description and precipitation percentage |
| Context.AlertList | src/app/api/weather/route.js:990-1002 | one summary per alert, in order, with its event and description, and its validity window exactly when asked for |
| Context.PutThenRead | src/app/api/weather/route.js:962-968 | after `details[key] = v` the key reads `v` |
| Context.PutLeavesOthers | src/app/api/weather/route.js:962-968 | an assignment changes no other key |
| Context.PutKeys | src/app/api/weather/route.js:962-968 | insertion order: a known key keeps its place, a new key goes last |
| Context.PutKeepsKeysDistinct | src/app/api/weather/route.js:962-968 | no key is listed twice after an assignment |
| Context.ReadListed | src/app/api/weather/route.js:962-968 | a key reads as defined exactly when it is listed |
| Context.PutAllRead | src/app/api/weather/route.js:945-1055 | after a run of assignments a key reads as the last value assigned to it, or as before |
| Context.PutAllKeepsKeysDistinct | src/app/api/weather/route.js:945-1055 | a run of assignments keeps the keys distinct |
| Context.ExtractRelevantWeatherData | src/app/api/weather/route.js:923-1057 | the extract fails exactly where an unguarded read meets a missing list: clothing and activity without hourly data or with none (`hourly[0].pop`), forecast without the daily or the hourly list (`daily.map`, `hourly.slice`), comparison without the daily list (`daily.slice`); the location is "city, country" |
| Context.ExtractSlices | src/app/api/weather/route.js:947-1049 | forecast carries the summaries of all days and of the first 24 hours (fewer when fewer exist), activity of the first 12 hours, comparison of the first 3 days with humidity and wind; safety and alerts carry every alert with its window, travel carries the alerts without windows when there are any; no other intent carries hours or days |
| Context.ExtractFirstHours | src/app/api/weather/route.js:954-987 | a forecast or activity extract holds one hour per hour of the report up to 24 or 12, with that hour's time and temperature |
| Context.ExtractFirstDays | src/app/api/weather/route.js:1025-1036 | a comparison extract holds one day per day of the report up to three, with that day's date and humidity |
| Context.ExtractKeysDistinct | src/app/api/weather/route.js:923-1057 | the details object of every extract lists each key once |
| Context.UvIndexAlwaysIncluded | src/app/api/weather/route.js:938-942 | a UV index the report has is always in the details; four intents set the key even without one |
| Context.UvUpdate | src/app/api/weather/route.js:962-1054 | exactly current conditions, clothing, activity and explanation assign the UV index |
| Context.CurrentConditionsDetailOrder | src/app/api/weather/route.js:938-968 | the detail keys of current conditions, in listing order, put the UV index first when known from the start, third otherwise |
| Prompt.ConcatMapSameLines | src/app/api/weather/route.js:1082-1108 | items that render to the same lines give the same text |
| Prompt.First | src/app/api/weather/route.js:1089 | `slice(0, n)`, and `substring(0, n)` at line 1106, keep the first `min(n, length)` items, in order |
| Prompt.AppendEach | src/app/api/weather/route.js:1082-1085 | a `forEach` that appends a line per item appends their concatenation |
| Prompt.AppendDetails | src/app/api/weather/route.js:1072-1076 | the detail loop appends one line per detail, in order |
| Prompt.AppendList | src/app/api/weather/route.js:1081-1092 | a heading and a line per item |
| Prompt.AppendDaily | src/app/api/weather/route.js:1080-1085 | the daily list of the forecast branch |
| Prompt.AppendHourly | src/app/api/weather/route.js:1087-1092 | the 12-hour list of the forecast branch |
| Prompt.AppendForecast | src/app/api/weather/route.js:1079-1093 | the forecast and comparison branch |
| Prompt.AppendActivity | src/app/api/weather/route.js:1095-1100 | the six-hour list of the activity branch |
| Prompt.AppendAlerts | src/app/api/weather/route.js:1102-1112 | the alert lines, or the no-alerts notice |
| Prompt.AppendAstronomy | src/app/api/weather/route.js:1114-1119 | the astronomy branch |
| Prompt.AppendReference | src/app/api/weather/route.js:1124-1130 | a reference line only for a truthy detail |
| Prompt.AppendExplanation | src/app/api/weather/route.js:1121-1135 | the explanation branch |
| Prompt.FormatWeatherDataForPrompt | src/app/api/weather/route.js:1060-1138 | the text the step-by-step appends build is the section-by-section specification |
| Prompt.PromptText | src/app/api/weather/route.js:1060-1069 | every weather block starts with the current-weather block |
| Prompt.PromptStartsWithCurrentWeather | src/app/api/weather/route.js:1064-1069 | every block starts with "CURRENT WEATHER:\n" and the five current lines |
| Prompt.PromptContainsSections | src/app/api/weather/route.js:1071-1135 | every section appears whole in the block |
| Prompt.LaterHoursIgnored | src/app/api/weather/route.js:1087-1100 | hours past the 12th (forecast) or the 6th (activity) never reach the text |
| Prompt.NoAlertsNoticeShown | src/app/api/weather/route.js:1102-1112 | safety and alerts questions without alerts carry "No weather alerts currently in effect." |
| Prompt.AlertDescriptionsCut | src/app/api/weather/route.js:1106 | only the first 200 characters of each alert description reach the text |
| Prompt.AlertTextOfCut | src/app/api/weather/route.js:1106 | cutting one description to 200 characters leaves its lines unchanged |
| Prompt.ForecastListsDays | src/app/api/weather/route.js:1079-1085 | a forecast block lists every day under "DAILY FORECAST:" |
| Prompt.SystemPromptDataIndependent | src/app/api/weather/route.js:1141-1238 | only the clothing and explanation prompts depend on the weather data |
| Prompt.CreateSystemPromptForIntent | src/app/api/weather/route.js:1141-1238 | the clothing prompt has a "- UV Index: ..." factor line, and the explanation prompt quotes the UV text |
| Prompt.UvTextFallback | src/app/api/weather/route.js:1163 | the UV text falls back from the detail to `uvIndex` to "Not available" by truthiness |
| Prompt.UserPromptCarriesQuestionAndBlock | src/app/api/weather/route.js:1274-1289 | the user prompt quotes the question and ends with the weather block |
| Prompt.UserPrompt | src/app/api/weather/route.js:1282-1289 | the user prompt ends with the weather block |
| Fallback.BandIndex | src/app/api/weather/route.js:1377-1387 | band 0 exactly above 85°F, 1 exactly in (70, 85], 2 in (55, 70], 3 in (40, 55], 4 exactly at 40°F or below |
| Fallback.BandsDistinct | src/app/api/weather/route.js:1377-1387 | the five band texts differ, so exactly one band is picked |
| Fallback.BandIndexAntitone | src/app/api/weather/route.js:1377-1387 | a warmer temperature never gives a colder band |
| Fallback.ClothingPartsMeaning | src/app/api/weather/route.js:1377-1396 | the advice is the band, then umbrella advice exactly when the conditions contain "rain", then sunscreen advice exactly when the UV index is above 5 |
| Fallback.BuildClothingAdvice | src/app/api/weather/route.js:1374-1396 | the `clothing +=` steps build the advice of the specification |
| Fallback.CreateFallbackAnswer | src/app/api/weather/route.js:1358-1403 | the method builds the specified answer for every intent |
| Fallback.FallbackAnswer | src/app/api/weather/route.js:1358-1403 | the answer opens with the opening of its intent followed by the location |
| Fallback.FallbackShowsCurrentWeather | src/app/api/weather/route.js:1358-1403 | every fallback answer shows the current temperature in degrees Fahrenheit and the current conditions |
| Fallback.CurrentAnswerShowsFigures | src/app/api/weather/route.js:1360-1363 | the current-conditions answer also shows the feels-like temperature, the humidity and the wind speed |
| Fallback.ForecastShowsFirstDay | src/app/api/weather/route.js:1365-1368 | with daily data the forecast answer shows the first day's date, high, low and conditions; without, it is the current-weather sentence alone |
| Fallback.FallbackNamesLocation | src/app/api/weather/route.js:1358-1403 | every fallback answer names the location and is not empty |
| Fallback.ClothingAnswerCarriesAdvice | src/app/api/weather/route.js:1398 | the clothing answer contains the advice |
| Fallback.HandleCommonWeatherQuestions | src/app/api/weather/route.js:314-321 | the call throws exactly when the first reading is null or undefined |
| Fallback.CommonAnswerNamesCity | src/app/api/weather/route.js:314-321 | every answer names the city |
| Llm.ContentOf | src/app/api/weather/route.js:1331 | an answer exists exactly when the choice has a message whose `content` is a string, and it is that string unchanged |
| Llm.ChoiceAnswer | src/app/api/weather/route.js:1326-1333 | an answer needs truthy choices; for an array, an empty one gives none and otherwise the answer is the first choice's content |
| Llm.OutcomeAnswer | src/app/api/weather/route.js:1334-1344 | a timeout code gives the timeout message, a 504 status the gateway message |
| Llm.RequestAsWritten | src/app/api/weather/route.js:1295-1305 | the request as written asks for 800 tokens |
| Llm.AnalysisRequest | src/app/api/weather/route.js:1241-1252 | the corrected request asks for the budget of the intent |
| Llm.TokenBudgetIgnored | src/app/api/weather/route.js:1304 | the written budget matches the intended one only for explanation; current conditions should get 300 |
| Llm.OnlyTokenBudgetDiffers | src/app/api/weather/route.js:1295-1305 | the two requests differ in the token budget only |
| Llm.Prepare | src/app/api/weather/route.js:1258-1271 | preparation fails exactly for a non-string question or a failing extract; the intent is the classifier's |
| Llm.RequestFor | src/app/api/weather/route.js:1282-1305 | the request sent asks for 800 tokens whatever the intent, under the system prompt of the intent |
| Llm.RequestForCorrected | src/app/api/weather/route.js:1241-1252 | with the intent's budget, the request differs from the one sent in the token budget and nothing else |
| Llm.RequestCarriesQuestionAndBlock | src/app/api/weather/route.js:1283-1301 | the user message quotes the question and ends with the weather block |
| Llm.AnalyzeWeatherWithLlm | src/app/api/weather/route.js:1255-1355 | the analysis succeeds exactly when preparation does |
| Llm.RequestNeverFails | src/app/api/weather/route.js:1291-1354 | what the API does never makes the analysis fail; the answer is the model's text, a timeout message or the fallback answer |
| Llm.ResponseAnswers | src/app/api/weather/route.js:1318-1333 | a response with a string content answers; no data, no choices or an empty list give the fallback |
| Llm.FailureAnswers | src/app/api/weather/route.js:1334-1353 | an error never gives model text: it ends as the timeout message, the gateway message or the fallback; the timeout code wins over a 504 status; the gateway message needs a 504 status; an error without a response gives the fallback |
| Llm.AttemptCount | src/app/api/weather/route.js:343 | the loop makes the integer count of attempts in `0..retries`, none for a negative count |
| Llm.RunThrough | src/app/api/weather/route.js:343-379 | failed attempts wait as specified and hand on the last error |
| Llm.WaitsDoubling | src/app/api/weather/route.js:374-376 | below the retry count each wait doubles: 1 s, 2 s, 4 s, ... |
| Llm.BackoffDoubles | src/app/api/weather/route.js:375 | the first wait is one second and each wait is twice the one before |
| Llm.WaitsCount | src/app/api/weather/route.js:343-377 | when every attempt fails, a whole retry count `n` waits `n` times, 1 s, 2 s, 4 s, ..., with no wait after the last attempt; a fractional count also waits after the last attempt |
| Llm.FirstAnswerWins | src/app/api/weather/route.js:343-368 | the first attempt that answers settles `invoke`, after one doubling wait per earlier failure |
| Llm.AllAttemptsFail | src/app/api/weather/route.js:343-382 | when every attempt fails `invoke` rejects with the last error, or the default error when no attempt is made |
| Llm.OpenRouterChatModel.constructor | src/app/api/weather/route.js:325-332 | every option takes its default when absent or falsy |
| Llm.OpenRouterChatModel.Invoke | src/app/api/weather/route.js:334-383 | the attempt loop settles as the specification `Run` says, with the waits it makes |
| Llm.DefaultRetries | src/app/api/weather/route.js:331 | with the default of two retries three failures reject with the third error after waits of 1 s and 2 s |
| ExpiringCache.Read | src/app/api/weather/route.js:18-28 | a read gives the data exactly when the key is present and at most `ttl` old |
| ExpiringCache.AfterRead | src/app/api/weather/route.js:23-26 | a read drops at most the entry it reads |
| ExpiringCache.Cache.constructor | src/app/api/weather/route.js:10 | the cache starts empty |
| ExpiringCache.Cache.Get | src/app/api/weather/route.js:18-28 | a read answers and updates the entries as the specification says |
| ExpiringCache.Cache.Put | src/app/api/weather/route.js:30-35 | storing sets the entry with the current time |
| ExpiringCache.Cache.Clear | src/app/utils/weatherCache.js:36-38 | clearing empties the cache |
| ExpiringCache.AbsentKey | src/app/api/weather/route.js:19-20 | an absent key reads null and changes nothing |
| ExpiringCache.ExpiredEntryRemoved | src/app/api/weather/route.js:23-26 | an expired entry reads null and is deleted; others stay |
| ExpiringCache.FreshEntryServed | src/app/api/weather/route.js:23-27 | an entry at most `ttl` old, the boundary included, is served and nothing changes |
| ExpiringCache.PutThenRead | src/app/api/weather/route.js:30-35 | a read at the instant of storing gives the data |
| ExpiringCache.PutKeepsOthers | src/app/api/weather/route.js:30-35 | storing under one key leaves other keys' reads unchanged |
| ExpiringCache.ClearedReadsNothing | src/app/utils/weatherCache.js:36-38 | after a clear every key reads null |
| ExpiringCache.ReadKeepsOthers | src/app/api/weather/route.js:18-28 | a read leaves other keys' reads unchanged |
| ExpiringCache.ReadIdempotent | src/app/api/weather/route.js:18-28 | reading twice at the same instant answers the same and changes nothing more |
| RouteState.NewWeatherCache | src/app/api/weather/route.js:10-14 | the route's cache starts empty with a 15-minute lifetime |
| RouteState.FetchKey | src/app/api/weather/route.js:72 | a missing city or country shows as "undefined" in the key |
| RouteState.FetchKeyAmbiguous | src/app/api/weather/route.js:72 | two different places, city "a-b" in "c" and city "a" in "b-c", share one key |
| RouteState.RouteCacheBoundary | src/app/api/weather/route.js:23-27 | an entry exactly 15 minutes old is served, one a millisecond older is not |
| RouteState.FetchResult | src/app/api/weather/route.js:71-282 | `fetchWeatherData` fails exactly without any entry and with a failed fetch; a fresh entry answers |
| RouteState.FetchStore | src/app/api/weather/route.js:252-255 | the cache gains at most the place's key, only with fetched readings |
| RouteState.FetchWeatherData | src/app/api/weather/route.js:71-282 | the cache decision answers and updates the cache as specified, testing freshness with the first clock reading (line 76) and stamping the stored entry with the second (line 253) |
| RouteState.FreshEntrySkipsRequests | src/app/api/weather/route.js:72-79 | a fresh entry answers without a request |
| RouteState.StaleEntryServedOnFailure | src/app/api/weather/route.js:274-282 | a failed request is answered from any entry however old, and nothing is stored |
| RouteState.FetchedReadingsCached | src/app/api/weather/route.js:252-255 | fetched readings are served and stored with the time of the store, so a call less than 15 minutes after the store is answered from the cache |
| RouteState.FetchBoundaryStricter | src/app/api/weather/route.js:76 | an entry exactly 15 minutes old is served by `getCachedWeatherData` and re-fetched by `fetchWeatherData` |
| RouteState.Remembered | src/app/api/weather/route.js:55-64 | after a save the list is the last `min(10, n)` of the `n` messages of the old list plus the exchange, so it ends with the question and answer |
| RouteState.SessionMemory.constructor | src/app/api/weather/route.js:12 | the memory starts empty |
| RouteState.SessionMemory.GetMemoryForSession | src/app/api/weather/route.js:48-53 | an unknown id is given an empty list, which is stored |
| RouteState.SessionMemory.SaveToMemory | src/app/api/weather/route.js:55-64 | the push-then-shift loop stores the specified list for that session only |
| RouteState.SessionMemory.ClearMemory | src/app/api/weather/route.js:66-68 | the id is removed |
| RouteState.SaveKeepsOtherSessions | src/app/api/weather/route.js:55-64 | saving leaves every other session unchanged |
| RouteState.ClearedSessionIsEmpty | src/app/api/weather/route.js:48-53 | after a clear the session starts again from an empty list |
| RouteState.SixthExchangeDropsFirst | src/app/api/weather/route.js:60-63 | on a full list of ten the oldest exchange goes |
| ChatMemory.Saved | src/app/utils/chatMemory.js:13-26 | a save ends with the question and answer, keeps at most twenty from at most twenty, and keeps the length's parity |
| ChatMemory.MemoryStore.constructor | src/app/utils/chatMemory.js:2 | the store starts empty, hence bounded |
| ChatMemory.MemoryStore.GetChatHistory | src/app/utils/chatMemory.js:5-10 | an unknown id is given an empty list, which is stored |
| ChatMemory.MemoryStore.SaveToMemory | src/app/utils/chatMemory.js:13-26 | the returned list is the one now stored for that session |
| ChatMemory.MemoryStore.ClearMemory | src/app/utils/chatMemory.js:29-31 | the id is removed |
| ChatMemory.GetKeepsBounded | src/app/utils/chatMemory.js:5-10 | reading keeps every list even and at most twenty long |
| ChatMemory.SaveKeepsBounded | src/app/utils/chatMemory.js:13-26 | saving keeps every list even and at most twenty long |
| ChatMemory.ClearKeepsBounded | src/app/utils/chatMemory.js:29-31 | clearing keeps the store bounded |
| ChatMemory.SaveKeepsOtherSessions | src/app/utils/chatMemory.js:13-26 | saving leaves every other session unchanged |
| ChatMemory.ClearedHistoryIsEmpty | src/app/utils/chatMemory.js:29-31 | after a clear the session reads as an empty list |
| ChatMemory.OldestPairDropped | src/app/utils/chatMemory.js:21-23 | on twenty exactly the oldest pair goes; on eighteen or fewer nothing goes |
| WeatherCacheUtil.NewWeatherCache | src/app/utils/weatherCache.js:2 | the utility's cache starts empty with a 30-minute lifetime |
| WeatherCacheUtil.ThirtyMinuteBoundary | src/app/utils/weatherCache.js:13-19 | an entry is served up to and including 30 minutes, and removed by the first read after |
| WeatherCacheUtil.ExpiredStaysGone | src/app/utils/weatherCache.js:13-17 | a removed entry is not found again until stored again |
| Sanitize.SanitizeInput | src/app/utils/sanitize.js:6-20 | a falsy input gives ""; the output has no `<`, `>`, `"` or `'` and no space at either end |
| Sanitize.EscapedLacksSpecials | src/app/utils/sanitize.js:13-18 | none of `<`, `>`, `"` and `'` survives the replacement chain |
| Sanitize.AngleBracketsEscaped | src/app/utils/sanitize.js:14-16 | no `<` or `>` is left after the first three replacements |
| Sanitize.TrimKeepsLacking | src/app/utils/sanitize.js:19 | trimming adds no character |
| Sanitize.LessThanAsWritten | src/app/utils/sanitize.js:14-16 | `<` comes out of the chain as `&amp;lt;` |
| Sanitize.AmpersandAsWritten | src/app/utils/sanitize.js:14-18 | `&` comes out of the chain as `&amp;` |
| Sanitize.DoubleEscaped | src/app/utils/sanitize.js:6-20 | `sanitizeInput('<')` is `&amp;lt;`, which decodes to `&lt;`, not `<` |
| Sanitize.SanitizeInputCorrected | src/app/utils/sanitize.js:6-20 | with `&` escaped first, a trimmed string input decodes back to itself |
| Sanitize.EscapeAmpersandFirstIsEscape | src/app/utils/sanitize.js:13-18 | the reordered replacement chain escapes character by character |
| Sanitize.UnescapeChar | src/app/utils/sanitize.js:13-18 | decoding undoes the escape of one character |
| Sanitize.RoundTrip | src/app/utils/sanitize.js:13-18 | decoding undoes the reordered escaping |
| Sanitize.EscapeTrimmed | src/app/utils/sanitize.js:19 | escaping a trimmed text needs no further trimming |
| Sanitize.ValidateLocation | src/app/utils/sanitize.js:27-37 | the result is truthy exactly for a truthy location with a non-empty string city and defined `lat` and `lng`, and otherwise falsy |
| Sanitize.CompleteLocationValid | src/app/utils/sanitize.js:27-37 | a complete location is `true` |
| Sanitize.IncompleteLocationRefused | src/app/utils/sanitize.js:27-37 | a missing city, `lat` or `lng` makes the location falsy |
| WeatherFallback.GetFallbackResponse | src/app/utils/weatherFallback.js:3-23 | every reply is non-empty and contains the location |
| WeatherFallback.CaseInsensitive | src/app/utils/weatherFallback.js:4 | a question and its lower-cased form get the same reply |
| WeatherFallback.RainFirst | src/app/utils/weatherFallback.js:6-8 | rain and umbrella come before every other rule |
| WeatherFallback.SunscreenImpliesSun | src/app/utils/weatherFallback.js:14 | the "sunscreen" test never decides anything, "sun" already holds |
| WeatherFallback.SunGetsSunscreen | src/app/utils/weatherFallback.js:14-16 | a question with "sun" that no earlier rule caught gets the sunscreen reply |
| WeatherFallback.GeneralOnlyWithoutKeywords | src/app/utils/weatherFallback.js:22 | the generic reply comes exactly when no keyword occurs |
| SimpleRoute.SeasonsExclusive | src/app/api/weather/simple/route.js:43-45 | never summer and winter at once; the hemispheres swap them; latitude 0 is southern |
| SimpleRoute.SimulatedCondition | src/app/api/weather/simple/route.js:52-61 | the condition is `undefined` exactly outside summer and winter with a draw of 0.75 or more; otherwise one of the season's conditions |
| SimpleRoute.SimulatedConditionCorrected | src/app/api/weather/simple/route.js:52-61 | a draw scaled by the list length always gives one of the season's conditions, the same one as the source in summer and winter |
| SimpleRoute.GenerateSimpleResponse | src/app/api/weather/simple/route.js:79-115 | throws the `toLowerCase` `TypeError` exactly for an `undefined` condition reaching the umbrella or run rule; every reply contains the city |
| SimpleRoute.TemperatureFirst | src/app/api/weather/simple/route.js:83-85 | a temperature question gets the temperature reply whatever else the message asks; an `undefined` condition prints as "undefined" |
| SimpleRoute.UmbrellaBeforeJacketAndRun | src/app/api/weather/simple/route.js:86-92 | umbrella and rain come before jackets and running: such a message gets the umbrella reply, or the `TypeError` for an `undefined` condition |
| SimpleRoute.UmbrellaFollowsConditions | src/app/api/weather/simple/route.js:86-92 | the umbrella question is answered exactly when the condition is defined, and the reply advises an umbrella exactly when the conditions mention rain in any case |
| SimpleRoute.JacketBands | src/app/api/weather/simple/route.js:93-104 | below 50 a coat, below 65 a light jacket, otherwise no jacket |
| SimpleRoute.UnparsedTemperatureFallsThrough | src/app/api/weather/simple/route.js:93-114 | a temperature with no leading number sends a jacket question to the default reply |
| SimpleRoute.SimulatedTemperatureParses | src/app/api/weather/simple/route.js:93-95 | a rendered integer followed by "°F" parses back to that integer |
| SimpleRoute.Post | src/app/api/weather/simple/route.js:3-33 | 400 exactly without a location or message; 500 exactly for a non-string message or an `undefined` condition reaching the umbrella or run rule; an answer names the city |
| SimpleRoute.UndefinedConditionFails | src/app/api/weather/simple/route.js:60 | outside summer and winter a draw of 0.75 or more leaves the condition `undefined`, and an umbrella or run question then gets a 500 |
| SimpleRoute.CorrectedConditionAnswers | src/app/api/weather/simple/route.js:3-33 | with the corrected draw every string message with a location is answered |
| ChatRoute.Reply | src/app/api/chat/route.js:23-39 | every reply contains the location string |
| ChatRoute.Post | src/app/api/chat/route.js:3-52 | 400 exactly without a location or message; 500 for a non-string message; a reply contains the location string |
| ChatRoute.LocationStringParts | src/app/api/chat/route.js:15 | the location string is "city, admin, country" |
| ChatRoute.LocationString | src/app/api/chat/route.js:15 | the location string holds the admin area between separators; a missing admin area shows as ", undefined, " |
| ChatRoute.RainFirst | src/app/api/chat/route.js:23-25 | umbrella and rain come first |
| ChatRoute.RunBeforeSun | src/app/api/chat/route.js:29-35 | running is tried before sun |
| ChatRoute.OtherOnlyWithoutKeywords | src/app/api/chat/route.js:23-39 | the default reply comes exactly when no keyword occurs |
| ChatRoute.CaseInsensitive | src/app/api/chat/route.js:21 | matching ignores case |
| LocationsFallback.Matches | src/app/api/locations/fallback/route.js:74-80 | the scan yields at most one entry |
| LocationsFallback.Normalize | src/app/api/locations/fallback/route.js:71 | the normalised query is no longer than the query, has no upper-case ASCII letter and no blank at either end |
| LocationsFallback.Scan | src/app/api/locations/fallback/route.js:74-80 | the `forEach` with overwriting gives the specified result |
| LocationsFallback.Lookup | src/app/api/locations/fallback/route.js:57-86 | 400 exactly for a missing query or one shorter than 2 once trimmed; otherwise at most one result, tagged "fallback" |
| LocationsFallback.Get | src/app/api/locations/fallback/route.js:57-86 | the endpoint answers as specified |
| LocationsFallback.LastMatchWins | src/app/api/locations/fallback/route.js:76-80 | the last key in table order that occurs decides |
| LocationsFallback.EmptyIffNoKey | src/app/api/locations/fallback/route.js:74-80 | no result exactly when no key occurs; otherwise the entry of some key |
| LocationsFallback.TableOrder | src/app/api/locations/fallback/route.js:4-55 | the keys are dallas, london, tokyo, paris, new york in that order |
| LocationsFallback.CaseIgnored | src/app/api/locations/fallback/route.js:71 | a query and its lower-cased form get the same answer |
| LocationsFallback.LeadingSpaceIgnored | src/app/api/locations/fallback/route.js:63-71 | a leading blank does not change the answer |
| LocationsFallback.TrailingSpaceIgnored | src/app/api/locations/fallback/route.js:63-71 | a trailing blank does not change the answer |

## Left out

- Network I/O: the OpenWeatherMap, geocoding and OpenRouter calls. What they return is a parameter (`Llm.ApiOutcome`, `Llm.CallResult`, `RouteState.Fetch`). The `setTimeout` waits of `invoke` are returned as a list of delays and not performed.
- `fetchWeatherData` beyond its cache decision. The assembly of the One Call and air-quality readings (src/app/api/weather/route.js:80-272) is part of the fetch parameter.
- `getWeatherData`, `formatTime`, `generateCacheKey`, the historical cache and the `POST` handler of the weather route. They are I/O, date formatting or request plumbing around the modelled functions.
- The conversation history that `POST` keeps as a plain property of the `sessionMemory` object (src/app/api/weather/route.js:727-749). The clear-memory endpoint deletes through `Map.delete` and never touches that property, so `RouteState.SessionMemory.ClearMemory` models only the `Map` entry.
- The LangChain code (`analyzeWeatherWithLangChain`, `createSpecializedPrompt`, `analyzeWithSpecializedChain`, `createActivityAdvisorChain`). It wraps a library that is not part of this model and names identifiers that are never defined.
- The message conversion at the top of `invoke` and the request body it sends. Only the attempt loop is modelled.
- Floating-point formatting: `toFixed`, `toLocaleString`, the visibility division and `pop * 100` are given as rendered text. `getLocationCacheId` is an opaque string key.
- Lookup.CompassIndex: divides the bearing by 22.5 exactly, where `degrees / 22.5` (src/app/api/weather/route.js:297) divides doubles. The two agree for whole-number bearings. A `NaN` bearing, from a missing `wind_deg`, is not representable; in the source it gives `undefined`.
- The random temperature, humidity and wind of `generateSimpleWeatherData` (src/app/api/weather/simple/route.js:53-68). They are part of the `data` parameter of `SimpleRoute.Post`, whose condition may be `undefined`. The seasons and the condition draw are modelled, with the values of `Math.random()` as parameters.
- The 800 ms delay of the chat endpoint, and all logging.
- Concurrency: the caches and stores are modelled as sequential, single-owner state.
- Aliasing: `GetMemoryForSession` and `GetChatHistory` return the list as a value. In the source a caller that mutates the returned array mutates the store; the model captures the stores' own updates, not a caller's.
- `toLowerCase` beyond ASCII letters.
- LocationsFallback.Lookup: counts characters, where `query.trim().length < 2` (src/app/api/locations/fallback/route.js:63) counts UTF-16 code units. A query of one character outside the Basic Multilingual Plane, such as "😀", is refused by the model and accepted by the source.
- Prompt.First: on the alert description it counts characters, where `substring(0, 200)` (src/app/api/weather/route.js:1106) counts UTF-16 code units. A description with characters outside the Basic Multilingual Plane keeps more of its text in the model, and the source can cut such a character in half.
- RouteState.SessionMemory.ClearMemory: does not model the plain-property history of `POST`, for the reason above.

## Findings

| source | as written | input that shows it | evidently intended | confidence | as-written member | corrected member |
|---|---|---|---|---|---|---|
| src/app/utils/sanitize.js:14-16 | `<` and `>` are replaced before `&`, so the `&` of `&lt;` is escaped again | `sanitizeInput('<')` gives `&amp;lt;`, which a browser shows as `&lt;` | `&` replaced first, so each special character is escaped once and decoding gives the text back | high; not executed | Sanitize.DoubleEscaped | Sanitize.RoundTrip |
| src/app/api/weather/route.js:1304 | `max_tokens: 800` for every intent; `getMaxTokensForIntent` (lines 1241-1252) is never called despite the comment "Dynamic token allocation" | a current-conditions question asks for 800 tokens instead of 300 | the budget of `getMaxTokensForIntent(intent)` | medium; not executed | Llm.TokenBudgetIgnored | Llm.RequestForCorrected |
| src/app/api/weather/simple/route.js:60 | outside summer and winter the condition is `[3 entries][Math.floor(Math.random() * 4)]`, which reads past the list one time in four | in April with a draw of 0.8, "Will it rain?" throws at `condition.toLowerCase()` and gets a 500 | the index scaled by the list length, as in the other two seasons where the list has four entries | high; not executed | SimpleRoute.UndefinedConditionFails | SimpleRoute.SimulatedConditionCorrected |
