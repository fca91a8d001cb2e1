/**
 * The front end's application store: the state it starts from (defaults overlaid with what
 * an earlier session saved), its setters, the capped newest-first history, and the snapshot
 * it saves after every change under the key `eroxai-translation-state`.
 */
module AppStore {
  import opened Wrappers
  import opened JsValues

  const StorageKey: string := "eroxai-translation-state"

  /** How many history entries the store keeps. */
  const MaxHistory: nat := 50

  const DefaultSettings: map<string, JsValue> := map[
    "apiUrl" := Str("https://libretranslate.com/translate"),
    "apiKey" := Str(""),
    "maxCharacters" := Num(8000.0),
    "workerUrl" := Str(""),
    "useCloudOcr" := Bool(false),
    "useCloudTranslate" := Bool(false),
    "openAiModel" := Str("gpt-4o-mini")
  ]

  /** The file the user picked (a browser `File`, which is never saved). */
  datatype FileRef = FileRef(name: string)

  /** The store's data fields. History entries and setting values are arbitrary JSON values. */
  datatype Snapshot = Snapshot(
    mode: string,
    file: Option<FileRef>,
    ocrText: string,
    translationText: string,
    ocrLanguage: string,
    sourceLanguage: string,
    targetLanguage: string,
    history: seq<JsValue>,
    settings: map<string, JsValue>,
    themePreset: string)

  const DefaultState: Snapshot := Snapshot("dark", None, "", "", "eng", "auto", "tr", [], DefaultSettings, "ocean")

  /**
   * What a load finds under the storage key: each field present or absent (None). Nothing
   * saved, or a value that is not JSON, reads as all absent. The saved `file` is always null,
   * which is also the default, so it is not listed.
   */
  datatype Stored = Stored(
    mode: Option<string>,
    ocrText: Option<string>,
    translationText: Option<string>,
    ocrLanguage: Option<string>,
    sourceLanguage: Option<string>,
    targetLanguage: Option<string>,
    history: Option<seq<JsValue>>,
    settings: Option<map<string, JsValue>>,
    themePreset: Option<string>)

  const NothingStored: Stored := Stored(None, None, None, None, None, None, None, None, None)

  /**
   * The initial state: the defaults overlaid with every stored field, except that an empty
   * stored mode or theme preset falls back to "dark" or "ocean", and the settings are the
   * default settings overlaid key by key with the stored ones.
   */
  function InitialState(stored: Stored): (r: Snapshot)
    ensures r.file == None
    ensures r.mode == (if stored.mode.Some? && stored.mode.value != "" then stored.mode.value else "dark")
    ensures r.themePreset == (if stored.themePreset.Some? && stored.themePreset.value != "" then stored.themePreset.value else "ocean")
    ensures r.mode != "" && r.themePreset != ""
    ensures r.ocrText == stored.ocrText.GetOr("")
    ensures r.translationText == stored.translationText.GetOr("")
    ensures r.ocrLanguage == stored.ocrLanguage.GetOr("eng")
    ensures r.sourceLanguage == stored.sourceLanguage.GetOr("auto")
    ensures r.targetLanguage == stored.targetLanguage.GetOr("tr")
    ensures r.history == stored.history.GetOr([])
    ensures r.settings.Keys == DefaultSettings.Keys + stored.settings.GetOr(map[]).Keys
    ensures forall k :: k in r.settings ==>
      r.settings[k] == if k in stored.settings.GetOr(map[]) then stored.settings.value[k] else DefaultSettings[k]
  {
    Snapshot(
      if stored.mode.Some? && stored.mode.value != "" then stored.mode.value else DefaultState.mode,
      None,
      stored.ocrText.GetOr(DefaultState.ocrText),
      stored.translationText.GetOr(DefaultState.translationText),
      stored.ocrLanguage.GetOr(DefaultState.ocrLanguage),
      stored.sourceLanguage.GetOr(DefaultState.sourceLanguage),
      stored.targetLanguage.GetOr(DefaultState.targetLanguage),
      stored.history.GetOr(DefaultState.history),
      DefaultState.settings + stored.settings.GetOr(map[]),
      if stored.themePreset.Some? && stored.themePreset.value != "" then stored.themePreset.value else DefaultState.themePreset)
  }

  /** With nothing stored the store starts from the defaults. */
  lemma {:induction false} FirstStart()
    ensures InitialState(NothingStored) == DefaultState
  {
    assert DefaultSettings + map[] == DefaultSettings;
  }

  /** What a later load reads back from a saved snapshot: every field present. */
  function Reload(saved: Snapshot): Stored {
    Stored(Some(saved.mode), Some(saved.ocrText), Some(saved.translationText), Some(saved.ocrLanguage),
      Some(saved.sourceLanguage), Some(saved.targetLanguage), Some(saved.history), Some(saved.settings),
      Some(saved.themePreset))
  }

  /**
   * Reloading a saved snapshot restores it, without the file, as long as its mode and preset
   * are not empty and its settings still hold every default key; otherwise the fallbacks show.
   */
  lemma {:induction false} ReloadRestores(s: Snapshot)
    ensures s.mode != "" && s.themePreset != "" && DefaultSettings.Keys <= s.settings.Keys ==>
      InitialState(Reload(s)) == s.(file := None)
    ensures s.mode == "" ==> InitialState(Reload(s)).mode == "dark"
  {
    if s.mode != "" && s.themePreset != "" && DefaultSettings.Keys <= s.settings.Keys {
      var r := InitialState(Reload(s));
      assert r.settings == s.settings;
    }
  }

  /** The history after adding an entry: the entry, then the newest of the old entries, 50 at most in all. */
  function WithEntry(entry: JsValue, history: seq<JsValue>): (r: seq<JsValue>)
    ensures |r| == if |history| < MaxHistory then |history| + 1 else MaxHistory
    ensures r[0] == entry
    ensures r[1..] == history[..|r| - 1]
  {
    var added := [entry] + history;
    added[..if |added| < MaxHistory then |added| else MaxHistory]
  }

  /**
   * Entries leave the history only from its old end: after k additions the newest old entries
   * are still there, behind the k new ones in reverse order of addition.
   */
  lemma {:induction false} HistoryKeepsNewest(entries: seq<JsValue>, history: seq<JsValue>, i: nat)
    requires |entries| <= MaxHistory && i < |history| && |entries| + i < MaxHistory
    ensures var h := AddAll(entries, history);
      |entries| + i < |h| && h[|entries| + i] == history[i]
    decreases |entries|
  {
    if entries != [] {
      var init := entries[..|entries| - 1];
      HistoryKeepsNewest(init, history, i);
      var h := AddAll(init, history);
      var e := entries[|entries| - 1];
      assert AddAll(entries, history) == WithEntry(e, h);
      assert WithEntry(e, h)[1..][|init| + i] == h[|init| + i];
    }
  }

  /** The history after adding `entries` one after the other. */
  function AddAll(entries: seq<JsValue>, history: seq<JsValue>): seq<JsValue>
    decreases |entries|
  {
    if entries == [] then history else WithEntry(entries[|entries| - 1], AddAll(entries[..|entries| - 1], history))
  }

  /** The store: its data fields, and the last snapshot it saved (None before its first save). */
  class Store {
    var mode: string
    var file: Option<FileRef>
    var ocrText: string
    var translationText: string
    var ocrLanguage: string
    var sourceLanguage: string
    var targetLanguage: string
    var history: seq<JsValue>
    var settings: map<string, JsValue>
    var themePreset: string
    var saved: Option<Snapshot>

    /** The data fields as a snapshot (`get()` without the actions). */
    function State(): Snapshot
      reads this
    {
      Snapshot(mode, file, ocrText, translationText, ocrLanguage, sourceLanguage, targetLanguage,
        history, settings, themePreset)
    }

    /** The store as created in a session that found `stored` under the storage key. */
    constructor(stored: Stored)
      ensures State() == InitialState(stored) && saved == None
    {
      var s := InitialState(stored);
      mode, file, ocrText, translationText := s.mode, s.file, s.ocrText, s.translationText;
      ocrLanguage, sourceLanguage, targetLanguage := s.ocrLanguage, s.sourceLanguage, s.targetLanguage;
      history, settings, themePreset := s.history, s.settings, s.themePreset;
      saved := None;
    }

    /**
     * `persist(next)`: save `{ ...get(), ...next, file: null }`. Every caller passes the field
     * it has just set, so that is the current state with no file.
     */
    method Persist()
      modifies this`saved
      ensures saved == Some(State().(file := None))
    {
      saved := Some(State().(file := None));
    }

    method SetMode(value: string)
      modifies this
      ensures State() == old(State()).(mode := value)
      ensures saved == Some(State().(file := None))
    {
      mode := value;
      Persist();
    }

    /** The saved snapshot never holds the file, whatever was picked. */
    method SetFile(value: Option<FileRef>)
      modifies this
      ensures State() == old(State()).(file := value)
      ensures saved.Some? && saved.value.file == None && saved == Some(State().(file := None))
    {
      file := value;
      Persist();
    }

    method SetOcrResult(text: string)
      modifies this
      ensures State() == old(State()).(ocrText := text)
      ensures saved == Some(State().(file := None))
    {
      ocrText := text;
      Persist();
    }

    method SetTranslation(text: string)
      modifies this
      ensures State() == old(State()).(translationText := text)
      ensures saved == Some(State().(file := None))
    {
      translationText := text;
      Persist();
    }

    method SetOcrLanguage(language: string)
      modifies this
      ensures State() == old(State()).(ocrLanguage := language)
      ensures saved == Some(State().(file := None))
    {
      ocrLanguage := language;
      Persist();
    }

    method SetSourceLanguage(language: string)
      modifies this
      ensures State() == old(State()).(sourceLanguage := language)
      ensures saved == Some(State().(file := None))
    {
      sourceLanguage := language;
      Persist();
    }

    method SetTargetLanguage(language: string)
      modifies this
      ensures State() == old(State()).(targetLanguage := language)
      ensures saved == Some(State().(file := None))
    {
      targetLanguage := language;
      Persist();
    }

    /** `updateSettings(settings)` replaces the whole settings object. */
    method UpdateSettings(value: map<string, JsValue>)
      modifies this
      ensures State() == old(State()).(settings := value)
      ensures saved == Some(State().(file := None))
    {
      settings := value;
      Persist();
    }

    method SetThemePreset(value: string)
      modifies this
      ensures State() == old(State()).(themePreset := value)
      ensures saved == Some(State().(file := None))
    {
      themePreset := value;
      Persist();
    }

    /** `addHistory(entry)`: the entry goes first, the oldest entries beyond 50 drop off. */
    method AddHistory(entry: JsValue)
      modifies this
      ensures State() == old(State()).(history := WithEntry(entry, old(history)))
      ensures saved == Some(State().(file := None))
    {
      history := ([entry] + history)[..if |history| + 1 < MaxHistory then |history| + 1 else MaxHistory];
      Persist();
    }

    method ClearHistory()
      modifies this
      ensures State() == old(State()).(history := [])
      ensures saved == Some(State().(file := None))
    {
      history := [];
      Persist();
    }
  }
}
