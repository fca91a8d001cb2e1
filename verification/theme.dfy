/**
 * The front end's colour scheme: the mode, preset and custom colours it accepts, and the
 * palette `getTheme` hands to the UI toolkit (the toolkit's own theme building is not modelled).
 */
module Theme {
  import opened Wrappers
  import opened JsValues

  /** A pair of main colours. */
  datatype Colors = Colors(primary: string, secondary: string)

  const Ocean: Colors := Colors("#5B8CFF", "#30C48D")
  const Sunset: Colors := Colors("#FF8F5B", "#F04438")
  const Violet: Colors := Colors("#8B5CF6", "#EC4899")
  const Emerald: Colors := Colors("#10B981", "#06B6D4")

  /** The named presets. */
  const PresetPalettes: map<string, Colors> :=
    map["ocean" := Ocean, "sunset" := Sunset, "violet" := Violet, "emerald" := Emerald]

  /** The fixed status colours of the base palette. */
  const SuccessMain: string := "#30C48D"
  const WarningMain: string := "#FFB020"
  const ErrorMain: string := "#F04438"

  /** `normalizeMode(value)`: "light" or "dark" as given, anything else "dark". */
  function NormalizeMode(value: JsValue): (r: string)
    ensures r == "light" || r == "dark"
    ensures value == Str("light") || value == Str("dark") ==> Str(r) == value
    ensures value != Str("light") ==> r == "dark"
  {
    if value == Str("light") || value == Str("dark") then value.s else "dark"
  }

  /** `normalizePreset(value)`: a non-empty string as given, anything else "ocean". */
  function NormalizePreset(value: JsValue): (r: string)
    ensures r != ""
    ensures value.Str? && value.s != "" ==> r == value.s
    ensures !value.Str? || value.s == "" ==> r == "ocean"
  {
    if value.Str? && |value.s| > 0 then value.s else "ocean"
  }

  /** `normalizeColor(value)`: a non-empty string as given, anything else `null` (None). */
  function NormalizeColor(value: JsValue): (r: Option<string>)
    ensures r.Some? <==> value.Str? && value.s != ""
    ensures r.Some? ==> r.value == value.s
  {
    if value.Str? && |value.s| > 0 then Some(value.s) else None
  }

  /**
   * The names every JavaScript object inherits from `Object.prototype`; indexing the preset
   * table with one of them finds that member, not `undefined`.
   */
  const InheritedNames: set<string> := {
    "constructor", "hasOwnProperty", "isPrototypeOf", "propertyIsEnumerable", "toLocaleString",
    "toString", "valueOf", "__proto__", "__defineGetter__", "__defineSetter__",
    "__lookupGetter__", "__lookupSetter__"
  }

  /**
   * `presetPalettes[name] || presetPalettes.ocean` as written: a preset's colours, the ocean
   * colours for an unknown name, but for an inherited name a truthy member without colours
   * (None: `colors.primary` and `colors.secondary` are undefined).
   */
  function PresetColorsAsWritten(name: string): (r: Option<Colors>)
    ensures name in PresetPalettes ==> r == Some(PresetPalettes[name])
    ensures name !in PresetPalettes && name !in InheritedNames ==> r == Some(Ocean)
    ensures name in InheritedNames ==> r.None?
  {
    if name in PresetPalettes then Some(PresetPalettes[name])
    else if name in InheritedNames then None
    else Some(Ocean)
  }

  /** The preset lookup as intended: a preset's colours, and the ocean colours for every other name. */
  function PresetColors(name: string): (r: Colors)
    ensures name in PresetPalettes ==> r == PresetPalettes[name]
    ensures name !in PresetPalettes ==> r == Ocean
    ensures r in PresetPalettes.Values
  {
    if name in PresetPalettes then PresetPalettes[name] else assert PresetPalettes["ocean"] == Ocean; Ocean
  }

  /** The preset "toString" yields no colours as written, where the ocean colours were intended. */
  lemma {:induction false} InheritedPresetHasNoColors()
    ensures PresetColorsAsWritten(NormalizePreset(Str("toString"))).None?
    ensures PresetColors(NormalizePreset(Str("toString"))) == Ocean
  {
    assert NormalizePreset(Str("toString")) == "toString";
    assert "toString" !in PresetPalettes;
  }

  /** Apart from the inherited names, the lookup as written and the intended one agree. */
  lemma {:induction false} PresetLookupsAgree(name: string)
    requires name !in InheritedNames
    ensures PresetColorsAsWritten(name) == Some(PresetColors(name))
  {
  }

  /** What `getTheme` puts in the palette. */
  datatype Palette = Palette(
    mode: string,
    primary: string, secondary: string,
    success: string, warning: string, error: string,
    background: string, paper: string,
    textPrimary: string, textSecondary: string)

  /** The page and surface background and the two text colours of a mode. */
  function Surfaces(mode: string): (string, string, string, string) {
    if mode == "dark" then ("#0B1120", "#111827", "#F9FAFB", "#9CA3AF")
    else ("#F7F8FC", "#FFFFFF", "#111827", "#4B5563")
  }

  /**
   * `getTheme(mode, preset, primaryColor, secondaryColor)` (an omitted argument is
   * `Undefined`, which normalises like the default): custom colours only when both are
   * non-empty strings, else the preset's colours (the ocean colours for an unknown preset).
   */
  function GetTheme(mode: JsValue, preset: JsValue, primaryColor: JsValue, secondaryColor: JsValue): (r: Palette)
    ensures r.mode == NormalizeMode(mode)
    ensures NormalizeColor(primaryColor).Some? && NormalizeColor(secondaryColor).Some? ==>
      r.primary == primaryColor.s && r.secondary == secondaryColor.s
    ensures NormalizeColor(primaryColor).None? || NormalizeColor(secondaryColor).None? ==>
      Colors(r.primary, r.secondary) in PresetPalettes.Values &&
      (NormalizePreset(preset) in PresetPalettes ==> Colors(r.primary, r.secondary) == PresetPalettes[NormalizePreset(preset)]) &&
      (NormalizePreset(preset) !in PresetPalettes ==> Colors(r.primary, r.secondary) == Ocean)
    ensures r.success == SuccessMain && r.warning == WarningMain && r.error == ErrorMain
    ensures (r.background, r.paper, r.textPrimary, r.textSecondary) ==
      if NormalizeMode(mode) == "dark" then ("#0B1120", "#111827", "#F9FAFB", "#9CA3AF")
      else ("#F7F8FC", "#FFFFFF", "#111827", "#4B5563")
  {
    var safeMode := NormalizeMode(mode);
    var safePrimary := NormalizeColor(primaryColor);
    var safeSecondary := NormalizeColor(secondaryColor);
    var colors :=
      if safePrimary.Some? && safeSecondary.Some? then Colors(safePrimary.value, safeSecondary.value)
      else PresetColors(NormalizePreset(preset));
    var surfaces := Surfaces(safeMode);
    Palette(safeMode, colors.primary, colors.secondary, SuccessMain, WarningMain, ErrorMain,
      surfaces.0, surfaces.1, surfaces.2, surfaces.3)
  }

  /**
   * The backgrounds and text colours depend on the normalised mode alone: two calls whose
   * modes normalise alike agree on them whatever their presets and colours, and the dark and
   * light schemes differ in each.
   */
  lemma {:induction false} SurfacesFollowMode(m1: JsValue, p1: JsValue, a1: JsValue, b1: JsValue,
                                             m2: JsValue, p2: JsValue, a2: JsValue, b2: JsValue)
    ensures var t1, t2 := GetTheme(m1, p1, a1, b1), GetTheme(m2, p2, a2, b2);
      (NormalizeMode(m1) == NormalizeMode(m2) <==>
        (t1.background, t1.paper, t1.textPrimary, t1.textSecondary) ==
        (t2.background, t2.paper, t2.textPrimary, t2.textSecondary))
  {
    var t1, t2 := GetTheme(m1, p1, a1, b1), GetTheme(m2, p2, a2, b2);
    assert t1.mode == "dark" || t1.mode == "light";
    assert t2.mode == "dark" || t2.mode == "light";
  }

  /** With no arguments (all undefined) the theme is the dark ocean one. */
  lemma {:induction false} DefaultTheme()
    ensures var t := GetTheme(Undefined, Undefined, Undefined, Undefined);
      t.mode == "dark" && Colors(t.primary, t.secondary) == Ocean && t.background == "#0B1120"
  {
    assert PresetPalettes["ocean"] == Ocean;
  }
}
