# Search launcher controller, modelled in Dafny

The system is a browser search launcher. A single controller object,
`SearchAgent` in `app.js`, holds the current engine, a search history
(newest first, at most 50 entries, one per query text) and five user
settings. It turns a query into the URL of one of four engines (Google,
Bing, DuckDuckGo, Yahoo) for one of five search types, and labels history
entries with a relative age.

This project models that controller's state and logic:

- `Text`: the `trim` that validates and normalises queries.
- `Sequences`: the `filter` the history operations use.
- `History`: history entries, the values `addToHistory` and
  `removeFromHistory` produce, and their properties: the cap, uniqueness by
  query, order, removal keyed by id.
- `Engines`: the engine table and URL construction.
- `RelativeTime`: the buckets of `getTimeAgo`.
- `Preferences`: the settings, the merge of a stored blob over the defaults,
  the page language and the voice-search guard.
- `Agent`: the `SearchAgent` class. Its fields are reassigned by methods
  modelled on the source's methods. Each method's `ensures` ties the new
  state to the specification functions above.

Inputs the controller takes from its host are parameters: the clock (`id`
and `timestamp` of a new entry, "now" for `getTimeAgo`), `encodeURIComponent`
(a function parameter `encode`, left uninterpreted), the answer to the
confirmation dialog, whether speech recognition is available, and the
parsed storage values (`None` when nothing is stored). The URL that
`window.open` would open is the search method's result.

Three behaviours of the code are easy to miss, and the model keeps them:

- Nothing in the code keeps `currentEngine` a key of the engine table.
  `selectEngine` does not check its key, and `defaultEngine` can come from
  storage with any value. With `saveHistory` on, `performSearch` records the
  query under that engine. `addToHistory` then re-renders the history list,
  which reads the engine name of every entry (app.js:390) and throws on the
  new one. Such an entry also makes every later search throw while it stays
  in the list, even after a known engine is selected (`StaleEntryBlocksSearch`).
  The model returns `RenderFailed` in these cases, with the history already
  updated. With `saveHistory` off, the engine lookup itself fails when the
  templates are read, and the model returns `UnknownEngine`.
- Nothing in the code limits a loaded history to 50 entries with distinct
  queries: `loadHistory` takes whatever is stored. The model proves that
  adding and removing preserve these conditions (`HistoryValid`). It does not
  prove they hold after loading.
- Entry ids are millisecond timestamps. Two entries made in the same
  millisecond share an id, and `removeFromHistory` then removes both.
  `Removed` models the filter exactly, so it removes both too.

## Model

| member | source | states |
|---|---|---|
| Text.SkipLeading | app.js:215 | the index returned is the first non-whitespace character at or after the start, or the end of the string; only whitespace is skipped |
| Text.SkipTrailing | app.js:215 | the end returned drops only trailing whitespace, and the character just before it is not whitespace |
| Text.Trim | app.js:215 | the trimmed query is a substring of the input, only whitespace lies outside it, and it neither starts nor ends with whitespace |
| Text.IsBlank | app.js:210 | a query fails the `trim() === ''` guard exactly when every character is whitespace, so the empty string fails it |
| Text.TrimEmptyIffAllWhitespace | app.js:253 | the trim of a string is empty exactly when all its characters are whitespace |
| Text.TrimIdempotent | app.js:253-257 | trimming again changes nothing, so re-checking in `performSearch` what `performSpecialSearch` already checked is harmless |
| Sequences.Filter | app.js:340 | the result is no longer than the input, and holds exactly the input's elements that satisfy the predicate |
| Sequences.FilterKeepsAll | app.js:355 | filtering a sequence whose every element is kept returns it unchanged |
| Sequences.FilterDropsOne | app.js:340 | if one element is filtered out, the result is strictly shorter |
| Sequences.FilterConcat | app.js:340 | filtering distributes over concatenation, so the kept elements keep their relative order |
| History.Added | app.js:331-348 | after adding, the history is non-empty, holds at most 50 entries, and the new entry is first |
| History.AddedContents | app.js:339-348 | the new history is the new entry, then the old entries with other queries in their old order, truncated to 50 |
| History.AddedTailFromOld | app.js:340-343 | every entry after the first is an old entry with a different query |
| History.AddedKeepsOthers | app.js:340-348 | while under the cap, every old entry with a different query is still present |
| History.AddedQueryOnce | app.js:340-343 | the new query appears exactly once, at index 0 |
| History.AddedUnique | app.js:340-343 | if the old history had no duplicate queries, neither does the new one |
| History.AddedValid | app.js:340-348 | adding keeps the history bounded by 50 and free of duplicate queries |
| History.ReAddNoGrowth | app.js:340-348 | searching again for a query already in the history never makes it longer |
| History.AddedFresh | app.js:343-348 | a new query is put in front of the whole old history, and only the cap of 50 drops anything |
| History.AddedIdempotent | app.js:331-348 | adding the same entry twice in a row gives the same history as adding it once |
| History.FilterUnique | app.js:340 | filtering a history with no duplicate queries leaves none |
| History.Removed | app.js:355 | removal never lengthens the history, and no entry left has the removed id |
| History.RemovedContents | app.js:354-355 | after removal, the history holds exactly the old entries whose id differs from the given one |
| History.RemovedAbsent | app.js:354-355 | removing an id that is not present leaves the history unchanged |
| History.RemovedPresent | app.js:354-355 | removing an id that is present makes the history shorter |
| History.RemovedValid | app.js:354-355 | removal keeps the history bounded and free of duplicate queries |
| History.AddedEnginesKnown | app.js:383-395 | after adding, every entry's engine is in the table if it was so before and the new entry's engine is; an unknown new engine always breaks this |
| History.RemovedEnginesKnown | app.js:354-357 | removal keeps every entry's engine in the table if it was so before |
| Engines.Template | app.js:226-241 | each search type has its own template, and any other type falls back to the web template `url` |
| Engines.SearchUrl | app.js:226-241 | the URL is exactly as long as the template plus the encoded query |
| Engines.SearchUrlSplits | app.js:228-240 | the URL starts with the type's template and the rest is the encoded query |
| Engines.EngineKeys | app.js:15-48 | the `searchEngines` table has exactly the engines google, bing, duckduckgo and yahoo |
| Engines.GoogleImageExample | app.js:19 | on Google, an image search for `cats` opens `https://www.google.com/search?tbm=isch&q=cats` |
| Engines.DuckDuckGoIgnoresType | app.js:32-39 | on DuckDuckGo, every search type opens the same URL |
| RelativeTime.ElapsedSeconds | app.js:502 | gives the whole seconds elapsed, rounded down, also when the date is in the future |
| RelativeTime.GetTimeAgo | app.js:501-509 | an entry is "now" exactly when less than 60000 ms have passed, and shows its date exactly when at least a week of milliseconds has passed |
| RelativeTime.TimeAgo | app.js:504-509 | splits elapsed seconds at 60, 3600, 86400 and 604800. Each count is the number of whole units elapsed: minutes 1..59, hours 1..23, days 1..6 |
| RelativeTime.TimeAgoMonotone | app.js:504-509 | an older entry never gets a more recent bucket, and within one bucket never a smaller count |
| RelativeTime.TimeAgoBoundaries | app.js:504-509 | the buckets change exactly at the thresholds: 59/60, 3599/3600, 86399/86400, 604799/604800 |
| Preferences.Merge | app.js:67 | a key present in the stored blob overrides the current value, and a missing key keeps it |
| Preferences.Serialize | app.js:72 | the stored blob has all five keys |
| Preferences.MergeRoundTrip | app.js:64-73 | settings saved and loaded again come back unchanged, whatever they are merged over |
| Preferences.MergeEmpty | app.js:67 | a blob with no keys leaves the settings unchanged |
| Preferences.MergeIdempotent | app.js:67 | merging the same blob twice gives the same result as merging it once |
| Preferences.MergePartialOverDefaults | app.js:7-13 | a blob holding only `saveHistory` gives that value, and the defaults for the other four keys |
| Preferences.DocumentLanguage | app.js:479-485 | the page is English and left-to-right exactly for "en", and Arabic and right-to-left otherwise |
| Preferences.VoiceLocale | app.js:289 | speech is recognised as ar-SA exactly for "ar", and as en-US otherwise |
| Preferences.LanguageFallbacksDiffer | app.js:479-485 | a language other than ar or en gives an Arabic page but English recognition |
| Preferences.StartVoice | app.js:275-291 | voice search is refused when the setting is off, then when the host has no recogniser, and otherwise listens in the locale the language gives |
| Agent.Presentation | app.js:467-486 | the page follows the settings' dark mode and language, and highlights the default engine |
| Agent.Applied | app.js:467-486 | applying settings makes the default engine current and sets the page from the settings; history and settings are unchanged |
| Agent.SearchResult | app.js:218-244 | a search opens a URL exactly when the re-rendered history (if saved) has only known engines and the current engine is known; the URL is then the engine's template for the type plus the encoded query; a failed re-render is reported as such |
| Agent.SearchUnknownEngine | app.js:218-228 | with an unknown current engine, the search fails in the re-render when the history is saved, and in the engine lookup otherwise |
| Agent.StaleEntryBlocksSearch | app.js:351 | an entry left by an unknown engine makes a later Google search fail in the re-render |
| Agent.AppliedIdempotent | app.js:467-486 | applying the settings twice gives the same state as applying them once |
| Agent.AppliedEngineKnown | app.js:476 | if the default engine is in the table, the current engine is in the table after applying |
| Agent.SearchAgent.constructor | app.js:3-61 | starts from the defaults, merges the stored settings, takes the stored history or an empty one, and applies the settings |
| Agent.SearchAgent.LoadSettings | app.js:64-69 | if a blob is stored, it is merged over the current settings; otherwise nothing changes |
| Agent.SearchAgent.LoadHistory | app.js:75-80 | if a history is stored, it replaces the current one as it is; otherwise nothing changes |
| Agent.SearchAgent.SelectEngine | app.js:260-272 | the engine becomes current and its button is highlighted, without checking the key, and nothing else changes |
| Agent.SearchAgent.ApplySettings | app.js:467-486 | the new state is `Applied` of the old one |
| Agent.SearchAgent.OpenSettings | app.js:440-451 | the editor is filled with the current settings |
| Agent.SearchAgent.SaveSettingsFromModal | app.js:453-465 | the edited settings replace the old ones as a whole and are then applied |
| Agent.SearchAgent.AddToHistory | app.js:331-352 | the new history is `Added` of the old one. It holds at most 50 entries, has the new query first, and stays valid if it was valid. The list re-renders exactly when every entry's engine is known |
| Agent.SearchAgent.RemoveFromHistory | app.js:354-358 | the new history is `Removed` of the old one. It is unchanged if the id is absent, and stays valid if it was valid. The list re-renders exactly when every remaining entry's engine is known |
| Agent.SearchAgent.ClearHistory | app.js:360-367 | the history is emptied when confirmed, leaving a valid history, and is unchanged otherwise |
| Agent.SearchAgent.PerformSearch | app.js:209-249 | a missing or blank query changes nothing and opens nothing. Otherwise the trimmed query is recorded only when `saveHistory` is on, and the outcome is `SearchResult` of the updated history |
| Agent.SearchAgent.PerformSpecialSearch | app.js:251-258 | the same blank-query guard on the input field's text, then the same outcome and history as `performSearch` |

## Left out

- DOM rendering and wiring are not modelled: the markup of `renderHistory` and `renderFavorites`, `setupEventListeners`, `handleSearchInput`, showing and hiding the modals, and clearing the input field after a search. The one way `renderHistory` affects the controller is modelled: it throws on an entry whose engine is not in the table (`EnginesKnown`).
- Agent.SearchAgent.PerformSearch: an engine key that names a property every JavaScript object inherits (`toString`, `constructor`, `__proto__`) is treated as unknown. The source finds such a key, throws nothing, and opens `"undefined"` followed by the encoded query.
- Agent.SearchAgent.constructor: the `renderHistory` at the end of start-up throws if a stored entry's engine is unknown. The fields then have the values the constructor states, and the favorites are not rendered.
- `escapeHtml` and `toLocaleDateString` depend on the DOM and the host's locale data. The model gives the age bucket, not the Arabic text or the date string.
- Storage is not modelled: `saveSettings`, `saveHistory`, `saveFavorites` and the `localStorage` reads are host I/O. The stored values appear as already parsed `Option` parameters.
- Merge: stored values have the settings' own types. JSON that gives a key a value of another type (`"saveHistory": "no"`, which JavaScript treats as true) or adds unknown keys is not represented.
- LoadHistory: a stored history that does not parse as a list of entries is not represented. `JSON.parse` is a library call.
- Favorites are not modelled: the favorites list and its default seeding in `loadFavorites` are constant data with no logic beyond storage.
- The speech-recognition session (`onstart`, `onresult`, `onerror`, `onend`, `stopVoiceSearch`, and the exception from `recognition.start`) is a callback-driven host API. Only the guard and the locale choice at the start (`StartVoice`) are modelled.
- `showToast` and its 3-second timer are host effects. A refused search is the `EmptyQuery` outcome.
- `window.open` is a host effect. The URL it would open is the return value.
- `encodeURIComponent` is a parameter left uninterpreted. JavaScript strings are UTF-16, but the model's strings are sequences of Unicode scalar values, so lone surrogates (on which `encodeURIComponent` throws) cannot occur.
- RelativeTime.GetTimeAgo: a timestamp that does not parse as a date (NaN arithmetic, shown as an invalid date) is not represented. Instants are integers of milliseconds.
- Service worker registration (app.js:529-539) is start-up glue outside the controller.
