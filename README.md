# Weather dashboard: city-name resolver and screen state, in Dafny

This project models the logic core of a small React weather dashboard for Japanese
cities. Its centre is the fuzzy city-name resolver of `src/utils.ts`:

- `calculateLevenshteinDistance` fills a dynamic-programming table.
- `calculateSimilarity` turns a distance into a score in [0, 1].
- `fuzzySearch` classifies every catalogue record with a five-step, first-match-wins
  cascade: exact name, exact alias, name substring, alias substring, fuzzy similarity.
  It then keeps the records at or above the threshold, sorts them stably by score and
  returns at most eight.
- `findCityByName` returns the head of that list.

Around the resolver it models:

- the bundled data of `src/constants.ts`: the 63-record catalogue, the popular-city
  list, the forecast and the event kinds. The catalogue invariants the resolver relies
  on are proved: keys are lower-cased names, distinct, and among the aliases.
- the small helpers `getMatchTypeDescription`, `getWeatherIcon` and `getWeatherForDate`.
- the screen component of `src/WeatherApp.tsx` as a class. Its fields are the React
  state, and each event handler is a method that updates them.

`src/App.tsx` is an older single-file version of the same program. Its resolver, helpers
and handlers repeat those of `src/utils.ts` and `src/WeatherApp.tsx` step for step, and
its catalogue is the same 63 records. It also has a path that asks the live weather API.
One model covers both files: `Setup.liveLookup` says whether the live path exists. It is
true for `src/App.tsx` and false for `src/WeatherApp.tsx`.

Modules, one file each:

- `Text`: `trim`, the blank test, `toLowerCase`, `includes`.
- `Levenshtein`: the reference edit distance and the table method.
- `Types`: the records of `src/types.ts`.
- `Resolver`: similarity, the cascade, ranking, `fuzzySearch`, `findCityByName`.
- `Weather`: the icon table and the calendar weather.
- `Catalogue`: the bundled data and its invariants.
- `App`: the recent-search list, the event map and the `WeatherApp` class.

Modelling choices:

- Scores are exact `real`s.
- Strings are sequences of Unicode scalar values. JavaScript's `length`, `charAt` and
  indices count UTF-16 code units instead. The two agree for characters of the Basic
  Multilingual Plane, which is where every bundled name and alias lies.
- The catalogue is a sequence of key/record entries in declaration order. This is the
  order `Object.entries` yields, because no key is an integer index.
- The fuzzy step computes `Math.max(...[])` when a record has no aliases. That value
  is `-Infinity`: it is modelled by `MaxOf` returning `None`, and the name similarity
  then wins.
- A lookup runs to completion as one step. The weather API's answer is a
  `FetchOutcome` parameter. The 800 ms wait is not modelled.

The cascade is sometimes described as making substring hits always outrank fuzzy
hits. The code guarantees this only within one record: a record that contains the
query is never scored by similarity. Across records, a fuzzy similarity can exceed 0.9
and rank above another record's substring hit. `Classify` states the
per-record cascade, and `OneSubstitutionAboveSubstring` shows a fuzzy score above 0.9.

## Model

| member | source | states |
|---|---|---|
| Text.Trim | src/utils.ts:85 | `s.trim()` is empty exactly when `s` is blank (only whitespace or empty); a non-empty result neither starts nor ends with whitespace |
| Text.TrimSlice | src/utils.ts:85 | what `trim` leaves is the slice of `s` between an all-whitespace prefix and an all-whitespace suffix |
| Text.TrimIsEmpty | src/WeatherApp.tsx:54 | computes `!s.trim()`: true exactly when `s` is blank |
| Text.Lower | src/utils.ts:87 | `toLowerCase` keeps the length and maps each character independently |
| Text.LowerIdempotent | src/utils.ts:79 | lower-casing twice is lower-casing once (the query, already lowered, is lowered again inside `calculateSimilarity`) |
| Text.LowerKeepsScript | src/utils.ts:94-105 | lower-casing keeps an ASCII string ASCII and a non-ASCII (kana/kanji) string non-ASCII |
| Levenshtein.Symmetric | src/utils.ts:54-76 | the edit distance is symmetric in its arguments |
| Levenshtein.MatchingLastChars | src/utils.ts:64-65 | equal last characters cost nothing: the distance is that of the strings without them, which justifies the table's diagonal copy |
| Levenshtein.UpperBound | src/utils.ts:80-81 | the distance never exceeds the longer length |
| Levenshtein.ZeroIff | src/utils.ts:54-76 | the distance is zero exactly for equal strings |
| Levenshtein.DpStep | src/utils.ts:64-71 | each table cell equals the diagonal on equal characters, else one more than the least of its three neighbours |
| Levenshtein.FillRow | src/utils.ts:63-73 | the inner loop turns a complete row `i - 1` into a complete row `i`, leaving the first column of later rows alone |
| Levenshtein.LevenshteinDistance | src/utils.ts:54-76 | after initialising `m[i][0] = i` and `m[0][j] = j` and filling the table, the returned last cell is the edit distance of `a` and `b` |
| Resolver.Similarity | src/utils.ts:78-82 | the similarity lies in [0, 1] and is 1 exactly when the lower-cased strings are equal (including both empty) |
| Resolver.SimilaritySymmetric | src/utils.ts:78-82 | the similarity is symmetric in its arguments |
| Resolver.SimilarityOfLowered | src/utils.ts:79 | lower-casing an argument beforehand does not change the similarity |
| Resolver.OneSubstitutionAboveSubstring | src/utils.ts:107-113 | two strings of eleven or more characters that differ only in the last character after lower-casing have similarity above 0.9, the partial-match score |
| Resolver.CalculateSimilarity | src/utils.ts:78-82 | the computation on the table returns `Similarity` |
| Resolver.MaxOf | src/utils.ts:111 | `Math.max(...xs)`: none for an empty list (`-Infinity`), else an element of the list that bounds every element |
| Resolver.AliasSimilarities | src/utils.ts:108-110 | one similarity per alias, in alias order |
| Resolver.Classify | src/utils.ts:94-115 | first-match-wins cascade: each of exact, exact_alias, partial and partial_alias holds exactly when its test passes and all earlier ones fail; exact types score 1 and partial types score 0.9; a fuzzy score is at least the name's and every alias's similarity and equals one of them; `fuzzy_name` holds exactly for a fuzzy record whose name similarity is at least every alias similarity (ties go to the name); every score lies in [0, 1] |
| Resolver.Scored | src/utils.ts:117-123 | the pushed object is the record itself, unchanged, carrying the score and type of its classification |
| Resolver.ScoreAll | src/utils.ts:90 | one scored record per entry, in declaration order |
| Resolver.KeepMembers | src/utils.ts:117 | a scored record is kept exactly when it is in the input and clears the threshold |
| Resolver.KeepAppend | src/utils.ts:117-123 | filtering distributes over concatenation |
| Resolver.Matches | src/utils.ts:88-124 | `results` after the loop has no more entries than the catalogue |
| Resolver.MatchesMembers | src/utils.ts:90-124 | a scored record is in `results` exactly when it comes from some catalogue entry and its score clears the threshold |
| Resolver.MatchesStep | src/utils.ts:117-123 | one more turn of `forEach` appends the entry's scored record when, and only when, it clears the threshold |
| Resolver.MatchesAppend | src/utils.ts:90-124 | results follow declaration order: a split catalogue yields those of the first part followed by those of the second |
| Resolver.InsertPermutes | src/utils.ts:126 | inserting adds exactly one element: the multiset grows by it |
| Resolver.InsertSorted | src/utils.ts:126 | inserting into a list sorted by descending score keeps it sorted |
| Resolver.InsertionSortProps | src/utils.ts:126 | the insertion sort has the input's length and multiset and is sorted by non-increasing score |
| Resolver.SortByScore | src/utils.ts:126 | the sort is a permutation of its input, sorted by non-increasing score |
| Resolver.SortStable | src/utils.ts:126 | stability: for every score value, the elements with that score keep their relative order |
| Resolver.Take | src/utils.ts:126 | `slice(0, n)` is a prefix of length exactly `min(n, length)`, and the whole list when it is no longer than `n` |
| Resolver.Search | src/utils.ts:84-127 | a blank query gives `[]`; the result has at most 8 entries and is sorted by non-increasing score |
| Resolver.SearchSound | src/utils.ts:117-126 | every result scores at least the threshold and is some catalogue record, otherwise unchanged, with its own classification's score and type |
| Resolver.SearchComplete | src/utils.ts:117-126 | a record that clears the threshold is returned unless eight results scoring at least as high fill the list |
| Resolver.SearchTies | src/utils.ts:126 | the results with any given score are the first of the threshold-clearing records with that score, in declaration order |
| Resolver.SearchEmptyIff | src/utils.ts:84-127 | the result is empty exactly for a blank query or when no record clears the threshold |
| Resolver.SearchHead | src/utils.ts:126 | the first result scores at least as high as every record that clears the threshold, and is the first such record in declaration order with that score |
| Resolver.HeadScoresOne | src/utils.ts:94-126 | when some record scores 1, the list is non-empty and its head scores 1 |
| Resolver.FirstExactHeads | src/utils.ts:94-126 | the first record in declaration order that scores 1 heads the list |
| Resolver.ScoreCity | src/utils.ts:91-115 | the `forEach` callback, with similarities from the table, computes exactly the record's classification |
| Resolver.VisitEntry | src/utils.ts:90-124 | one loop turn extends `results` for the first `k` entries to those for the first `k + 1` |
| Resolver.FuzzySearch | src/utils.ts:84-127 | the loop over the catalogue, the sort and the slice return `Search` (so all the `Search` lemmas apply); `src/App.tsx:339-382` is the same code |
| Resolver.FindCityByName | src/utils.ts:145-148 | null exactly when `fuzzySearch(n, 0.3)` is empty, else that list's first element; `src/App.tsx:532-535` is the same code |
| Resolver.ExactScoreIff | src/utils.ts:94-115 | a record scores 1 exactly when its name or an alias equals the query case-insensitively: a fuzzy score never reaches 1 |
| Resolver.FuzzyNameIffTie | src/utils.ts:107-114 | when the lower-cased name is among the aliases, the fuzzy score is the best alias similarity and `fuzzy_name` is chosen exactly when the name reaches it |
| Resolver.UntrimmedQuery | src/utils.ts:85-87 | a non-blank query is lowered but not trimmed: one starting or ending with whitespace equals neither the name nor any alias of a record whose strings have no whitespace at either end |
| Resolver.MatchTypeDescription | src/App.tsx:384-398 | each of the six tag strings maps to its label (exact and exact_alias to 完全一致, partial types to 部分一致, fuzzy types to あいまい検索), and the result is empty exactly for any other string; `src/utils.ts:129-143` is the same switch with mis-encoded labels |
| Weather.WeatherIcon | src/App.tsx:298-307 | a listed code gives its table glyph, and the default glyph comes back exactly for codes outside the 18-entry table (inherited property names excepted, see below); `src/utils.ts:43-52` is the same table |
| Weather.WeatherForDate | src/App.tsx:288-296 | the icon is `weathers[(day + month) % 5]` and the temperature `temps[(day + month) % 7]`, always one of 15, 18, 20, 22, 25, 28, 30; `src/utils.ts:33-41` is the same code |
| Weather.WeatherForDateBySum | src/utils.ts:36-40 | the result depends only on `(day + month) % 35` |
| Catalogue.City | src/constants.ts:35-135 | a record spread from the sample weather carries the given name, region, aliases and temperature |
| Catalogue.CityWith | src/constants.ts:37-40 | the same with the record's own single weather condition |
| Catalogue.CatalogueWellFormed | src/constants.ts:35-135 | every record's key is its lower-cased name, starting with a Latin letter; the aliases contain the key, and each other alias is non-ASCII (kana or kanji) |
| Catalogue.CatalogueKeysDistinct | src/constants.ts:35-135 | the catalogue has 63 records and no two share a key |
| Catalogue.KeyDecidesExact | src/utils.ts:94-99 | for a query whose lowered form starts with an ASCII character, a well-formed record scores 1 exactly when its key is the lowered query |
| Catalogue.ResolvesByKey | src/utils.ts:145-148 | in a well-formed catalogue with distinct keys, each name belongs to one record only, and looking it up returns that record with score 1 and type `exact` |
| Catalogue.EveryCityResolves | src/constants.ts:35-135 | looking up any bundled record's name finds exactly that record, as an exact match |
| Catalogue.CatalogueFuzzyName | src/constants.ts:37-134 | every bundled record has aliases (so `Math.max` never sees an empty list); in the fuzzy branch the best alias similarity is the score, and `fuzzy_name` occurs exactly when the name ties with it |
| Catalogue.PopularNamesListed | src/constants.ts:146 | each popular name is the name of the catalogue record at its listed position |
| Catalogue.PopularCitiesResolve | src/constants.ts:146 | every popular name belongs to exactly one record, and `findCityByName` on it returns that record with score 1 and type `exact` |
| Catalogue.ForecastData | src/constants.ts:137-144 | four items, one per hour over the next four hours after the moment it is evaluated, each with one condition |
| Catalogue.EventTypeKinds | src/constants.ts:6-12 | the event kinds are exactly personal, work, company, social and workout, all at opacity `bg-opacity-50`; `src/App.tsx:117-123` is the same table |
| App.Without | src/WeatherApp.tsx:90 | `filter(item => item !== x)` holds exactly the elements other than `x` and is no longer than its input |
| App.WithoutMultiset | src/WeatherApp.tsx:90 | the filter drops every copy of `x` and keeps every copy of every other element |
| App.WithoutSubsequence | src/WeatherApp.tsx:90 | filtering keeps the relative order of what it keeps |
| App.WithoutNoDup | src/WeatherApp.tsx:90 | filtering a list without repeats leaves a list without repeats |
| App.PushRecent | src/WeatherApp.tsx:90-91 | the new history starts with the found name, has no other copy of it and at most 5 entries; the rest is a prefix of the old history without the name, and all of it unless the cap is reached; `src/App.tsx:547-548` and `src/App.tsx:558-559` are the same update |
| App.PushRecentKeepsOrder | src/WeatherApp.tsx:90-91 | the entries after the head keep their previous relative order |
| App.PushRecentNoDup | src/WeatherApp.tsx:90-91 | a history without repeats stays without repeats |
| App.PushRecentIdempotent | src/WeatherApp.tsx:90-91 | looking up the same city twice in a row leaves the history as after the first time |
| App.AppendEvent | src/WeatherApp.tsx:170-176 | the event is appended at the end of that date's list, which is created when absent; the other dates' lists are unchanged and no other key appears |
| App.AppendEventOrder | src/WeatherApp.tsx:170-176 | two events added to one date appear there in the order they were added |
| App.Setup.Forecast | src/App.tsx:248-255 | `FORECAST_DATA` has four items; `src/constants.ts:137-144` is the same list |
| App.Failure | src/WeatherApp.tsx:96-102 | the `catch` block sets a non-empty error (the thrown message, or the fallback text for an empty one), clears weather and forecast, ends loading and changes nothing else |
| App.Lookup | src/App.tsx:537-573 | `searchWeatherByName` changes only weather, forecast, error, history and loading; the error is cleared exactly when weather is shown; failure leaves the history unchanged, success moves the shown name to its front; the bundled path shows `findCityByName`'s record with `FORECAST_DATA` or fails with the not-found message; the live path fails on a blank key and otherwise shows the API's answer with at most 8 forecast items |
| App.LookupIgnoresPending | src/WeatherApp.tsx:78-79 | the result does not depend on the `loading` and `error` values set when the lookup starts |
| App.LookupConsistent | src/WeatherApp.tsx:77-104 | a lookup keeps the screen invariant: history of at most 5 without repeats, no lookup pending, and the suggestion list never open over an empty search box |
| App.WeatherApp.constructor | src/WeatherApp.tsx:15-48 | the initial state after the mount effect (`src/WeatherApp.tsx:182-185`): sample weather, the forecast, history Tokyo and Osaka, the three sample dates of events, a blank event form, demo mode; and it satisfies the invariant |
| App.WeatherApp.HandleSearchChange | src/WeatherApp.tsx:51-62 | the box takes the value; suggestions are `fuzzySearch(value)` and shown for non-blank text, and are cleared and hidden for blank text; nothing else changes |
| App.WeatherApp.Fail | src/WeatherApp.tsx:96-100 | the `catch` block's updates, leaving `loading` to the `finally` |
| App.WeatherApp.LiveLookup | src/App.tsx:542-548 | the live branch reaches the state `LiveResult` describes (fails on a blank key, else shows the answer) |
| App.WeatherApp.ShowAnswer | src/App.tsx:543-548 | with a non-blank key the API's answer is shown, or its error message, as `LiveResult` describes |
| App.WeatherApp.DemoLookup | src/WeatherApp.tsx:84-94 | the bundled branch reaches the state `DemoResult` describes |
| App.WeatherApp.ShowResolved | src/WeatherApp.tsx:86-91 | shows the found record with `FORECAST_DATA`, clears the error, moves its name to the front of the history, ends loading; nothing else changes |
| App.WeatherApp.SearchWeatherByName | src/WeatherApp.tsx:77-104 | the handler reaches exactly `Lookup` of the old state, and keeps the invariant; with the live path it follows `src/App.tsx:537-573` |
| App.WeatherApp.SearchWeather | src/WeatherApp.tsx:106-112 | a blank search box only sets the empty-query error, with no lookup; otherwise the trimmed text is looked up |
| App.WeatherApp.HandleSuggestionClick | src/WeatherApp.tsx:64-68 | the clicked name fills the box, the suggestions hide, and the name is looked up untrimmed |
| App.WeatherApp.HandleFocus | src/SearchSection.tsx:36-40 | focusing the box opens the suggestion list when the box holds text, and changes nothing else; `src/App.tsx:725` is the same callback |
| App.WeatherApp.HandleBlur | src/SearchSection.tsx:42-44 | once the blur timer fires, the suggestion list closes and nothing else changes; `src/App.tsx:726` is the same callback |
| App.WeatherApp.OpenApiKeyInput | src/App.tsx:997-1000 | the error banner's key button, shown in live mode while the error mentions the API key, opens the key input and changes nothing else |
| App.WeatherApp.HandleKeyPress | src/WeatherApp.tsx:70-75 | any key but Enter changes nothing; Enter hides the suggestions and runs `searchWeather` |
| App.WeatherApp.ToggleApiMode | src/WeatherApp.tsx:126-134 | in demo mode it only opens the key input; in live mode it returns to demo, closes the input and clears the key; `src/App.tsx:448-456` is the same code |
| App.WeatherApp.HandleApiKeySubmit | src/WeatherApp.tsx:136-144 | a key with a non-whitespace character switches to live mode, closes the input and clears the error; a blank key only sets the invalid-key error; `src/App.tsx:458-466` is the same code |
| App.WeatherApp.ChangeApiKey | src/WeatherApp.tsx:207 | the key input's change callback stores the typed key and nothing else |
| App.WeatherApp.CancelApiKeyInput | src/WeatherApp.tsx:209 | cancelling closes the key input and nothing else |
| App.WeatherApp.HandleCalendarToggle | src/WeatherApp.tsx:146-148 | the calendar visibility flips and nothing else changes |
| App.WeatherApp.HandleDateSelect | src/WeatherApp.tsx:150-152 | the selected date becomes the given date key and nothing else changes |
| App.WeatherApp.HandleEventChange | src/WeatherApp.tsx:160-165 | exactly the named field of the event form takes the value |
| App.WeatherApp.AddEvent | src/WeatherApp.tsx:167-179 | without a selected date, a time and a title nothing changes; otherwise the form's event is appended to that date's list (`AppendEvent`) and the form resets to an empty time and title of kind personal; `src/App.tsx:517-529` is the same code |

## Left out

- Rendering: every JSX body and the view components (`Calendar`, `SearchSection`, `WeatherDisplay`, `WeatherForecast`, `Header`, `ApiKeyInput`). The callbacks they run that change state are modelled as methods: the focus and blur handlers of the search box (`HandleFocus`, `HandleBlur`) and the error banner's key button (`OpenApiKeyInput`). The rest only display state.
- App.Consistent: does not tie the open suggestion list to the text in the box. After a suggestion click, focusing the box reopens the list computed for what was typed earlier. The invariant keeps only that the list is never open over an empty box.
- The network request of `fetchWeatherFromAPI` (`src/App.tsx:401-446`, `src/apiService.ts`). Its answer is the `FetchOutcome` parameter of a lookup, so the HTTP-status mapping to the messages 'APIキーが無効です', '都市が見つかりませんでした' and 'API エラー: …' is outside the model.
- `getCurrentLocation`: geolocation, browser callbacks and a timer.
- Timers: the 800 ms delay of a lookup and the one-minute clock. A lookup is one atomic transition, so the intermediate `loading = true` state is not observable in the model.
- Concurrency of lookups: two lookups started before either finishes would race on the state. The model runs each to completion.
- Date helpers: `formatDate`, `formatTime`, `formatDateKey`, `getDaysInMonth`, `getFirstDayOfMonth` and `handleMonthChange`. The selected date is carried as its date key, an opaque string; `getWeatherForDate` takes the day of the month and the month as numbers.
- Resolver.Similarity: uses exact reals, not the IEEE-754 rounding of `1 - d / maxLength`.
- Text.Lower: is a per-character, length-preserving map. It covers the ASCII, Latin-1, unaccented Greek (U+0391 to U+03A9), Cyrillic and full-width Latin capitals. JavaScript also maps these, which the model leaves unchanged:
  - the accented Greek capitals U+0386 and U+0388 to U+038F (Ά to ά);
  - Latin Extended-A and the other blocks (Ł to ł);
  - the mappings that change length (such as U+0130).
  JavaScript also applies the final-sigma rule (`"ΑΣ".toLowerCase()` is `"ας"`, the model gives `"ασ"`). Kana, kanji and digits are unchanged, as in JavaScript. No bundled name or alias has a character on which the two differ.
- Resolver.SortByScore: models the engine's stable `sort` as a stable insertion sort. The comparator `b.score - a.score` is the same order.
- App.AppendEvent: `{ ...events }` is a shallow copy, so `push` also grows the array held by the previous state's map. The model uses value semantics and does not capture that aliasing.
- App.Lookup: stale closures are not modelled. The history update reads the `searchHistory` captured when the lookup started; with lookups run to completion one at a time, that is the current value.
- `console.error` logging in the failure paths.
- Mis-encoded text in `src/utils.ts`: the glyph strings of `getWeatherIcon` and `getWeatherForDate`, and the three labels of `getMatchTypeDescription` (`src/utils.ts:133`, `:136`, `:139`). The model uses the emoji and the labels of the same code in `src/App.tsx`, which the mis-encoded text evidently stands for.
- Weather.WeatherIcon: `icons` is a plain object, so it also holds the inherited `Object.prototype` members. For a code such as `toString`, `constructor` or `__proto__`, `icons[iconCode]` is that function or object, not the default glyph. The model returns the default glyph for every code outside the table. OpenWeather icon codes are two digits and a `d` or `n`, and no such code names an inherited member.
- Resolver.Similarity, Levenshtein.LevenshteinDistance and Text.Lower: count Unicode scalar values, whereas `length`, `charAt` and the table indices of `src/utils.ts:55-81` count UTF-16 code units. For a character outside the Basic Multilingual Plane the two differ, and so do the lengths, the distance and the score: for `calculateSimilarity("𠮷野家", "吉野家")` the source computes 1 - 2/4 and the model 1 - 1/3. No bundled name or alias contains such a character.
- App.Setup.Forecast: in `src/App.tsx:248-255`, `FORECAST_DATA` is declared inside the component, so its times are re-read from `Date.now()` on every render. The lookup at `src/App.tsx:556` uses the value of the render whose handler runs. The model holds one clock value, `forecastSeconds`, for the whole run. In `src/WeatherApp.tsx` the constant comes from `src/constants.ts`, is evaluated once when that module loads, and matches the model.
- Weather payload fields (temperatures, humidity, conditions) are carried as opaque data, and nothing is proved about them.
- The optional `dt` of `WeatherData` is never set by the bundled data and is not carried.
- `WEEKDAYS` and the other display-only constants.
