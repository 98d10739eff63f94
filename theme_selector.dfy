/** The theme and settings panel (client/src/components/ThemeSelector.tsx):
    component state for the chosen theme and settings, and the updates the
    panel submits. */
module ThemeSelector {
  import opened Wrappers
  import opened Schema
  import Storage

  datatype Direction = Up | Down

  /** `Partial<PresentationSettings>`. */
  datatype SettingsPatch = SettingsPatch(ratio: Option<Ratio>, fontSize: Option<FontSize>, animations: Option<bool>)

  /** The font sizes in order, as the panel's `sizes` array lists them. */
  const FontSizes: seq<FontSize> := [Small, Medium, Large]

  /** `sizes.indexOf(fontSize)`. */
  function IndexOf(f: FontSize): (i: nat)
    ensures i < |FontSizes| && FontSizes[i] == f
  {
    match f
    case Small => 0
    case Medium => 1
    case Large => 2
  }

  /** One step along small < medium < large, stopping at either end. */
  function StepFontSize(f: FontSize, direction: Direction): FontSize
  {
    match (f, direction)
    case (Small, Up) => Medium
    case (Medium, Up) => Large
    case (Large, Up) => Large
    case (Small, Down) => Small
    case (Medium, Down) => Small
    case (Large, Down) => Medium
  }

  /** The index arithmetic of `adjustFontSize`: step the index, then clamp
      it into [0, 2]. */
  method NextFontSize(current: FontSize, direction: Direction) returns (r: FontSize)
    ensures r == StepFontSize(current, direction)
  {
    var sizes := FontSizes;
    var currentIndex: int := IndexOf(current);
    var newIndex: int := if direction == Up then currentIndex + 1 else currentIndex - 1;
    newIndex := Max(0, Min(|sizes| - 1, newIndex));
    r := sizes[newIndex];
  }

  function Max(a: int, b: int): int { if a < b then b else a }

  function Min(a: int, b: int): int { if a < b then a else b }

  /** "up" from large stays large and "down" from small stays small. */
  lemma StepStopsAtEnds()
    ensures StepFontSize(Large, Up) == Large && StepFontSize(Small, Down) == Small
  {
  }

  /** Away from an end a step moves exactly one position, so it can be undone. */
  lemma StepMovesOne(f: FontSize, direction: Direction)
    ensures direction == Up && f != Large ==> IndexOf(StepFontSize(f, direction)) == IndexOf(f) + 1
    ensures direction == Down && f != Small ==> IndexOf(StepFontSize(f, direction)) == IndexOf(f) - 1
    ensures f != Large ==> StepFontSize(StepFontSize(f, Up), Down) == f
    ensures f != Small ==> StepFontSize(StepFontSize(f, Down), Up) == f
  {
  }

  /** `{ ...settings, ...patch }`: each supplied key overrides, the others stay. */
  function MergeSettings(s: PresentationSettings, patch: SettingsPatch): (r: PresentationSettings)
    ensures r.ratio == (if patch.ratio.Some? then patch.ratio.value else s.ratio)
    ensures r.fontSize == (if patch.fontSize.Some? then patch.fontSize.value else s.fontSize)
    ensures r.animations == (if patch.animations.Some? then patch.animations.value else s.animations)
  {
    PresentationSettings(patch.ratio.GetOr(s.ratio), patch.fontSize.GetOr(s.fontSize), patch.animations.GetOr(s.animations))
  }

  /** `presentation?.theme || "professional"`. */
  function InitialTheme(presentation: Option<Presentation>): (t: string)
    ensures t != ""
    ensures presentation.Some? && presentation.value.theme != "" ==> t == presentation.value.theme
    ensures presentation.None? ==> t == DefaultTheme
    ensures presentation.Some? && presentation.value.theme == "" ==> t == DefaultTheme
  {
    if presentation.Some? && presentation.value.theme != "" then presentation.value.theme else DefaultTheme
  }

  /** `presentation?.settings || { 16:9, medium, true }`. */
  function InitialSettings(presentation: Option<Presentation>): (s: PresentationSettings)
    ensures presentation.Some? ==> s == presentation.value.settings
    ensures presentation.None? ==> s == DefaultSettings
  {
    match presentation
    case Some(p) => p.settings
    case None => DefaultSettings
  }

  /** An update that supplies only `theme`. */
  function ThemeOnly(theme: string): (u: PresentationUpdate)
    ensures u.theme == Some(theme)
    ensures u.title.None? && u.prompt.None? && u.slides.None? && u.settings.None?
  {
    NoChanges.(theme := Some(theme))
  }

  /** An update that supplies only `settings`. */
  function SettingsOnly(settings: PresentationSettings): (u: PresentationUpdate)
    ensures u.settings == Some(settings)
    ensures u.title.None? && u.prompt.None? && u.slides.None? && u.theme.None?
  {
    NoChanges.(settings := Some(settings))
  }

  /** A theme update changes only the theme once merged by the store, and a
      settings update replaces the whole settings object and nothing else. */
  lemma PanelUpdatesTouchOneField(p: Presentation, theme: string, settings: PresentationSettings)
    ensures Storage.ApplyUpdate(p, ThemeOnly(theme)) == p.(theme := theme)
    ensures Storage.ApplyUpdate(p, SettingsOnly(settings)) == p.(settings := settings)
  {
  }

  /** The panel's state. `presentation` is the prop it was mounted with;
      the state starts from it and the panel submits only when it has an id. */
  class ThemePanel {
    const presentation: Option<Presentation>
    var selectedTheme: string
    var settings: PresentationSettings

    /** `presentation?.id`: loaded, with an id that is not the falsy 0. */
    predicate CanSubmit(): (c: bool)
      ensures c <==> !(presentation.None? || presentation.value.id == 0)
    {
      presentation.Some? && presentation.value.id != 0
    }

    constructor (presentation: Option<Presentation>)
      ensures this.presentation == presentation
      ensures selectedTheme == InitialTheme(presentation) && settings == InitialSettings(presentation)
    {
      this.presentation := presentation;
      selectedTheme := InitialTheme(presentation);
      settings := InitialSettings(presentation);
    }

    method HandleThemeChange(themeId: string) returns (submitted: Option<PresentationUpdate>)
      modifies this
      ensures selectedTheme == themeId && settings == old(settings)
      ensures submitted == if CanSubmit() then Some(ThemeOnly(themeId)) else None
    {
      selectedTheme := themeId;
      submitted := if CanSubmit() then Some(ThemeOnly(themeId)) else None;
    }

    /** Merges the patch into the panel's settings and submits the whole merged object. */
    method HandleSettingsChange(patch: SettingsPatch) returns (submitted: Option<PresentationUpdate>)
      modifies this
      ensures settings == MergeSettings(old(settings), patch) && selectedTheme == old(selectedTheme)
      ensures submitted == if CanSubmit() then Some(SettingsOnly(settings)) else None
    {
      var updatedSettings := MergeSettings(settings, patch);
      settings := updatedSettings;
      submitted := if CanSubmit() then Some(SettingsOnly(updatedSettings)) else None;
    }

    method AdjustFontSize(direction: Direction) returns (submitted: Option<PresentationUpdate>)
      modifies this
      ensures settings == old(settings).(fontSize := StepFontSize(old(settings).fontSize, direction))
      ensures selectedTheme == old(selectedTheme)
      ensures submitted == if CanSubmit() then Some(SettingsOnly(settings)) else None
    {
      var size := NextFontSize(settings.fontSize, direction);
      submitted := HandleSettingsChange(SettingsPatch(None, Some(size), None));
    }
  }
}
