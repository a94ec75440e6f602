/**
 * User preferences: the five settings, the merge of a stored blob over the
 * current values, and what the settings decide about the page's language and
 * about starting a voice search.
 */
module Preferences {
  import opened Wrappers

  /** The settings object, all five keys present. */
  datatype Settings = Settings(
    defaultEngine: string,
    saveHistory: bool,
    voiceSearch: bool,
    darkMode: bool,
    language: string)

  /** The built-in values the constructor starts from. */
  const DefaultSettings: Settings := Settings("google", true, true, false, "ar")

  /** A parsed settings blob from storage: any key may be missing. */
  datatype SavedSettings = SavedSettings(
    defaultEngine: Option<string>,
    saveHistory: Option<bool>,
    voiceSearch: Option<bool>,
    darkMode: Option<bool>,
    language: Option<string>)

  /** A blob with no key at all. */
  const EmptyBlob: SavedSettings := SavedSettings(None, None, None, None, None)

  /**
   * `{ ...base, ...saved }`: every key the blob holds overrides the current
   * value, every key it lacks keeps it.
   */
  function Merge(base: Settings, saved: SavedSettings): (r: Settings)
    ensures saved.defaultEngine.Some? ==> r.defaultEngine == saved.defaultEngine.value
    ensures saved.defaultEngine.None? ==> r.defaultEngine == base.defaultEngine
    ensures saved.saveHistory.Some? ==> r.saveHistory == saved.saveHistory.value
    ensures saved.saveHistory.None? ==> r.saveHistory == base.saveHistory
    ensures saved.voiceSearch.Some? ==> r.voiceSearch == saved.voiceSearch.value
    ensures saved.voiceSearch.None? ==> r.voiceSearch == base.voiceSearch
    ensures saved.darkMode.Some? ==> r.darkMode == saved.darkMode.value
    ensures saved.darkMode.None? ==> r.darkMode == base.darkMode
    ensures saved.language.Some? ==> r.language == saved.language.value
    ensures saved.language.None? ==> r.language == base.language
  {
    Settings(
      saved.defaultEngine.GetOr(base.defaultEngine),
      saved.saveHistory.GetOr(base.saveHistory),
      saved.voiceSearch.GetOr(base.voiceSearch),
      saved.darkMode.GetOr(base.darkMode),
      saved.language.GetOr(base.language))
  }

  /** What `saveSettings` stores: the whole object, every key present. */
  function Serialize(s: Settings): (b: SavedSettings)
    ensures b.defaultEngine.Some? && b.saveHistory.Some? && b.voiceSearch.Some?
    ensures b.darkMode.Some? && b.language.Some?
  {
    SavedSettings(Some(s.defaultEngine), Some(s.saveHistory), Some(s.voiceSearch),
                  Some(s.darkMode), Some(s.language))
  }

  /** Settings saved and loaded again come back unchanged, whatever they were merged over. */
  lemma MergeRoundTrip(base: Settings, s: Settings)
    ensures Merge(base, Serialize(s)) == s
  {
  }

  /** A blob without keys leaves the settings as they were. */
  lemma MergeEmpty(base: Settings)
    ensures Merge(base, EmptyBlob) == base
  {
  }

  /** Merging the same blob twice is merging it once. */
  lemma MergeIdempotent(base: Settings, saved: SavedSettings)
    ensures Merge(Merge(base, saved), saved) == Merge(base, saved)
  {
  }

  /** A partial blob over the defaults: the keys it holds, and the defaults for the rest. */
  lemma MergePartialOverDefaults(saveHistory: bool)
    ensures Merge(DefaultSettings, EmptyBlob.(saveHistory := Some(saveHistory)))
            == Settings("google", saveHistory, true, false, "ar")
  {
  }

  /** The page's `lang` and `dir` attributes: English only for "en", Arabic otherwise. */
  function DocumentLanguage(language: string): (r: (string, string))
    ensures r == ("en", "ltr") || r == ("ar", "rtl")
    ensures r.0 == "en" <==> language == "en"
  {
    if language == "en" then ("en", "ltr") else ("ar", "rtl")
  }

  /** The recognition locale: Saudi Arabic only for "ar", US English otherwise. */
  function VoiceLocale(language: string): (r: string)
    ensures r == "ar-SA" || r == "en-US"
    ensures r == "ar-SA" <==> language == "ar"
  {
    if language == "ar" then "ar-SA" else "en-US"
  }

  /**
   * The two tests pick opposite fallbacks: a stored language that is neither
   * "ar" nor "en" lays out the page in Arabic but listens for English.
   */
  lemma LanguageFallbacksDiffer(language: string)
    requires language != "ar" && language != "en"
    ensures DocumentLanguage(language) == ("ar", "rtl") && VoiceLocale(language) == "en-US"
  {
  }

  /** The outcome of asking for a voice search. */
  datatype VoiceStart = VoiceDisabled | VoiceUnsupported | Listen(locale: string)

  /**
   * `startVoiceSearch`'s guards: the setting must allow voice search, then the
   * host must offer speech recognition; the session listens in the locale the
   * language setting picks.
   */
  function StartVoice(s: Settings, recognitionAvailable: bool): (r: VoiceStart)
    ensures r.VoiceDisabled? <==> !s.voiceSearch
    ensures r.VoiceUnsupported? <==> s.voiceSearch && !recognitionAvailable
    ensures r.Listen? ==> r.locale == VoiceLocale(s.language)
  {
    if !s.voiceSearch then VoiceDisabled
    else if !recognitionAvailable then VoiceUnsupported
    else Listen(VoiceLocale(s.language))
  }
}
