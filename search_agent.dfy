/**
 * The `SearchAgent` controller: the current engine, the search history, the
 * settings and the part of the page that `applySettings` derives from them,
 * with the operations the UI events trigger.
 */
module Agent {
  import opened Wrappers
  import opened Text
  import opened Sequences
  import opened History
  import opened Engines
  import opened Preferences

  /** The page state `applySettings` and `selectEngine` set: the dark-mode class, `lang`, `dir` and the highlighted engine button. */
  datatype View = View(darkMode: bool, lang: string, dir: string, activeEngine: string)

  /** What a search attempt ends in. */
  datatype SearchOutcome =
    | EmptyQuery            // the "enter a search term" notice; nothing is opened
    | Opened(url: string)   // the URL opened in a new tab
    | RenderFailed          // re-rendering the updated history throws on an entry whose engine is not in the table
    | UnknownEngine         // the current engine is not in the table: reading its templates throws

  /** A snapshot of the controller's fields. */
  datatype AgentState = AgentState(currentEngine: string, history: seq<HistoryEntry>, settings: Settings, view: View)

  /** The page state the settings dictate, with the default engine's button highlighted. */
  function Presentation(s: Settings): (v: View)
    ensures v.darkMode == s.darkMode && v.activeEngine == s.defaultEngine
    ensures (v.lang, v.dir) == DocumentLanguage(s.language)
  {
    var (lang, dir) := DocumentLanguage(s.language);
    View(s.darkMode, lang, dir, s.defaultEngine)
  }

  /** The state after `applySettings`: the default engine becomes current and the page follows the settings. */
  function Applied(st: AgentState): (r: AgentState)
    ensures r.currentEngine == st.settings.defaultEngine && r.view == Presentation(st.settings)
    ensures r.history == st.history && r.settings == st.settings
  {
    st.(currentEngine := st.settings.defaultEngine, view := Presentation(st.settings))
  }

  /**
   * How a search with a non-blank query ends, once the history is `history`
   * (already updated when `saveHistory` is on). With `saveHistory` on,
   * `addToHistory` re-renders the list, which reads the engine name of every
   * entry; then the current engine's templates are read.
   */
  function SearchResult(engineKey: string, saveHistory: bool, history: seq<HistoryEntry>,
                        searchType: string, encodedQuery: string): (r: SearchOutcome)
    ensures r.RenderFailed? <==> saveHistory && !EnginesKnown(history)
    ensures r.Opened? <==> (!saveHistory || EnginesKnown(history)) && engineKey in SearchEngines
    ensures r.Opened? ==> r.url == SearchUrl(SearchEngines[engineKey], searchType, encodedQuery)
    ensures r != EmptyQuery
  {
    if saveHistory && !EnginesKnown(history) then RenderFailed
    else if engineKey !in SearchEngines then UnknownEngine
    else Opened(SearchUrl(SearchEngines[engineKey], searchType, encodedQuery))
  }

  /**
   * With `saveHistory` on, an unknown current engine is caught by the
   * re-rendering of the list, which holds the new entry: the engine lookup is
   * only reached, and fails, when the history is not saved.
   */
  lemma SearchUnknownEngine(engineKey: string, saveHistory: bool, h: seq<HistoryEntry>, e: HistoryEntry,
                            searchType: string, encodedQuery: string)
    requires engineKey !in SearchEngines && e.engine == engineKey
    ensures var history := if saveHistory then Added(h, e) else h;
            SearchResult(engineKey, saveHistory, history, searchType, encodedQuery)
            == if saveHistory then RenderFailed else UnknownEngine
  {
    AddedEnginesKnown(h, e);
  }

  /**
   * An entry recorded while the current engine was not in the table blocks
   * every later search that keeps it in the list, even on a known engine.
   */
  lemma StaleEntryBlocksSearch(encodedQuery: string)
    ensures var stale := HistoryEntry(1, "a", "foo", "t1");
            var h := Added([stale], HistoryEntry(2, "b", "google", "t2"));
            SearchResult("google", true, h, "web", encodedQuery) == RenderFailed
  {
    var stale := HistoryEntry(1, "a", "foo", "t1");
    var e := HistoryEntry(2, "b", "google", "t2");
    AddedTailFromOld([stale], e);
    AddedContents([stale], e);
    FilterKeepsAll([stale], OtherQuery("b"));
    assert Added([stale], e)[1] == stale;
  }

  /** Applying the settings a second time changes nothing. */
  lemma AppliedIdempotent(st: AgentState)
    ensures Applied(Applied(st)) == Applied(st)
  {
  }

  /** After applying settings whose default engine is in the table, the current engine is too. */
  lemma AppliedEngineKnown(st: AgentState)
    requires st.settings.defaultEngine in SearchEngines
    ensures Applied(st).currentEngine in SearchEngines
  {
  }

  class SearchAgent {
    var currentEngine: string
    var searchHistory: seq<HistoryEntry>
    var settings: Settings
    var view: View

    ghost function State(): AgentState
      reads this
    {
      AgentState(currentEngine, searchHistory, settings, view)
    }

    /**
     * Start from the built-in defaults, then run the start-up sequence: merge
     * the stored settings, load the stored history, apply the settings.
     * `storedSettings` and `storedHistory` are the parsed storage values, None
     * where nothing is stored.
     */
    constructor (storedSettings: Option<SavedSettings>, storedHistory: Option<seq<HistoryEntry>>)
      ensures settings == if storedSettings.Some? then Merge(DefaultSettings, storedSettings.value) else DefaultSettings
      ensures searchHistory == storedHistory.GetOr([])
      ensures currentEngine == settings.defaultEngine && view == Presentation(settings)
    {
      currentEngine := "google";
      searchHistory := [];
      settings := DefaultSettings;
      view := View(false, "ar", "rtl", "google");
      new;
      LoadSettings(storedSettings);
      LoadHistory(storedHistory);
      ApplySettings();
    }

    /** `loadSettings`: overlay a stored blob, if there is one, on the current settings. */
    method LoadSettings(stored: Option<SavedSettings>)
      modifies this`settings
      ensures settings == if stored.Some? then Merge(old(settings), stored.value) else old(settings)
    {
      if stored.Some? {
        settings := Merge(settings, stored.value);
      }
    }

    /** `loadHistory`: take the stored history as it is, if there is one. */
    method LoadHistory(stored: Option<seq<HistoryEntry>>)
      modifies this`searchHistory
      ensures searchHistory == stored.GetOr(old(searchHistory))
    {
      if stored.Some? {
        searchHistory := stored.value;
      }
    }

    /** `selectEngine`: make `engine` current and highlight its button; the key is not checked against the table. */
    method SelectEngine(engine: string)
      modifies this`currentEngine, this`view
      ensures currentEngine == engine && view == old(view).(activeEngine := engine)
    {
      currentEngine := engine;
      view := view.(activeEngine := engine);
    }

    /** `applySettings`: dark mode, then the default engine, then the page language. */
    method ApplySettings()
      modifies this`currentEngine, this`view
      ensures State() == Applied(old(State()))
    {
      view := view.(darkMode := settings.darkMode);
      SelectEngine(settings.defaultEngine);
      var (lang, dir) := DocumentLanguage(settings.language);
      view := view.(lang := lang, dir := dir);
    }

    /** `openSettings`: the settings editor is filled with the current settings. */
    method OpenSettings() returns (form: Settings)
      ensures form == settings
    {
      form := settings;
    }

    /** `saveSettingsFromModal`: the edited settings replace the old ones wholesale and are applied. */
    method SaveSettingsFromModal(form: Settings)
      modifies this`settings, this`currentEngine, this`view
      ensures State() == Applied(old(State()).(settings := form))
    {
      settings := form;
      ApplySettings();
    }

    /**
     * `addToHistory`, with the clock readings `Date.now()` and
     * `new Date().toISOString()` passed in as `id` and `timestamp`.
     */
    method AddToHistory(query: string, engine: string, id: int, timestamp: string) returns (rendered: bool)
      modifies this`searchHistory
      ensures searchHistory == Added(old(searchHistory), HistoryEntry(id, query, engine, timestamp))
      ensures rendered == EnginesKnown(searchHistory)
      ensures !rendered ==> !EnginesKnown(old(searchHistory)) || engine !in SearchEngines
      ensures |searchHistory| <= MaxHistory && searchHistory[0].query == query
      ensures HistoryValid(old(searchHistory)) ==> HistoryValid(searchHistory)
    {
      ghost var before := searchHistory;
      var item := HistoryEntry(id, query, engine, timestamp);
      // drop the entries of the same query
      searchHistory := Filter(searchHistory, OtherQuery(query));
      // put the new entry in front
      searchHistory := [item] + searchHistory;
      // keep at most MaxHistory entries
      if |searchHistory| > MaxHistory {
        searchHistory := searchHistory[..MaxHistory];
      }
      if HistoryValid(before) {
        AddedValid(before, item);
      }
      AddedEnginesKnown(before, item);
      // re-render the list, which reads each entry's engine name
      rendered := EnginesKnown(searchHistory);
    }

    /** `removeFromHistory(id)`: keep the entries with another id. */
    method RemoveFromHistory(id: int) returns (rendered: bool)
      modifies this`searchHistory
      ensures searchHistory == Removed(old(searchHistory), id)
      ensures rendered == EnginesKnown(searchHistory)
      ensures EnginesKnown(old(searchHistory)) ==> rendered
      ensures !HasId(old(searchHistory), id) ==> searchHistory == old(searchHistory)
      ensures HistoryValid(old(searchHistory)) ==> HistoryValid(searchHistory)
    {
      ghost var before := searchHistory;
      searchHistory := Filter(searchHistory, OtherId(id));
      if !HasId(before, id) {
        RemovedAbsent(before, id);
      }
      if HistoryValid(before) {
        RemovedValid(before, id);
      }
      if EnginesKnown(before) {
        RemovedEnginesKnown(before, id);
      }
      // re-render the list, which reads each entry's engine name
      rendered := EnginesKnown(searchHistory);
    }

    /** `clearHistory`, with the user's answer to the confirmation dialog as `confirmed`. */
    method ClearHistory(confirmed: bool)
      modifies this`searchHistory
      ensures searchHistory == if confirmed then [] else old(searchHistory)
      ensures confirmed ==> HistoryValid(searchHistory) && EnginesKnown(searchHistory)
    {
      if confirmed {
        searchHistory := [];
      }
    }

    /**
     * `performSearch(query, type)`. A missing or blank query is refused.
     * Otherwise the trimmed query is recorded when the settings allow it and,
     * unless re-rendering the history or the engine lookup throws, the current
     * engine's template for the type, followed by the encoded query, is opened. `encode` stands for `encodeURIComponent`; `id` and
     * `timestamp` are the clock readings `addToHistory` takes.
     */
    method PerformSearch(query: Option<string>, searchType: string, encode: string -> string, id: int, timestamp: string)
      returns (outcome: SearchOutcome)
      modifies this`searchHistory
      ensures query.None? || IsBlank(query.value) ==>
                outcome == EmptyQuery && searchHistory == old(searchHistory)
      ensures query.Some? && !IsBlank(query.value) ==>
                var q := Trim(query.value);
                && searchHistory == (if settings.saveHistory
                                     then Added(old(searchHistory), HistoryEntry(id, q, currentEngine, timestamp))
                                     else old(searchHistory))
                && outcome == SearchResult(currentEngine, settings.saveHistory, searchHistory, searchType, encode(q))
    {
      if query.None? || Trim(query.value) == [] {
        return EmptyQuery;
      }
      var q := Trim(query.value);
      if settings.saveHistory {
        var rendered := AddToHistory(q, currentEngine, id, timestamp);
        if !rendered {
          // the exception leaves the history updated and opens nothing
          return RenderFailed;
        }
      }
      if currentEngine !in SearchEngines {
        return UnknownEngine;
      }
      var engine := SearchEngines[currentEngine];
      outcome := Opened(Template(engine, searchType) + encode(q));
    }

    /** `performSpecialSearch(type)`: the same guard on the input field's text, then `performSearch`. */
    method PerformSpecialSearch(inputValue: string, searchType: string, encode: string -> string, id: int, timestamp: string)
      returns (outcome: SearchOutcome)
      modifies this`searchHistory
      ensures IsBlank(inputValue) ==> outcome == EmptyQuery && searchHistory == old(searchHistory)
      ensures !IsBlank(inputValue) ==>
                var q := Trim(inputValue);
                && searchHistory == (if settings.saveHistory
                                     then Added(old(searchHistory), HistoryEntry(id, q, currentEngine, timestamp))
                                     else old(searchHistory))
                && outcome == SearchResult(currentEngine, settings.saveHistory, searchHistory, searchType, encode(q))
    {
      if inputValue == [] || Trim(inputValue) == [] {
        return EmptyQuery;
      }
      outcome := PerformSearch(Some(inputValue), searchType, encode, id, timestamp);
    }
  }
}
