/** Light/dark theme (script.js, `updateThemeToggleUI`, `applyTheme`,
    `toggleTheme`, `initTheme` and the `DOMContentLoaded` resync).

    The state is the root element's `data-theme` attribute, the stored `theme`
    preference, and the `#themeToggle` button's `aria-pressed`, `aria-label` and
    `title`. Storage access may fail; a failed write leaves the stored value as it
    was, a failed read reads as nothing stored. */
module Theme {
  import opened Wrappers

  const Light := "light"
  const Dark := "dark"

  /** The button's label and tooltip while the dark theme is on. */
  const SwitchToLightLabel := "Cambiar a modo claro"
  /** The button's label and tooltip otherwise. */
  const SwitchToDarkLabel := "Cambiar a modo oscuro"

  datatype ThemeState = ThemeState(
    root: Option<string>,    // data-theme on the document element
    stored: Option<string>,  // the stored preference under the key "theme"
    ariaPressed: string,     // aria-pressed of #themeToggle
    ariaLabel: string,       // aria-label of #themeToggle
    title: string)           // title of #themeToggle

  /** The theme the toggle switches to from the current `data-theme`. */
  function NextTheme(current: Option<string>): string {
    if current == Some(Light) then Dark else Light
  }

  function IsDark(theme: Option<string>): bool { theme == Some(Dark) }

  /** `aria-pressed` for a theme. */
  function PressedFor(theme: Option<string>): string { if IsDark(theme) then "true" else "false" }

  /** `aria-label` and `title` for a theme. */
  function LabelFor(theme: Option<string>): string {
    if IsDark(theme) then SwitchToLightLabel else SwitchToDarkLabel
  }

  /** The label that announces a switch to `target`. */
  function AnnouncedSwitch(target: string): string {
    if target == Light then SwitchToLightLabel else SwitchToDarkLabel
  }

  /** `updateThemeToggleUI(theme)`: rewrites the button's attributes, if there is a button. */
  function UpdateToggleUI(s: ThemeState, theme: Option<string>, buttonPresent: bool): ThemeState {
    if !buttonPresent then s
    else s.(ariaPressed := PressedFor(theme), ariaLabel := LabelFor(theme), title := LabelFor(theme))
  }

  /** `applyTheme(theme)`; `storageOk` says whether the write to storage succeeds. */
  function Apply(s: ThemeState, theme: string, buttonPresent: bool, storageOk: bool): ThemeState {
    var s1 := s.(root := Some(theme));
    var s2 := if storageOk then s1.(stored := Some(theme)) else s1;
    UpdateToggleUI(s2, Some(theme), buttonPresent)
  }

  /** `toggleTheme()`. */
  function Toggle(s: ThemeState, buttonPresent: bool, storageOk: bool): ThemeState {
    Apply(s, NextTheme(s.root), buttonPresent, storageOk)
  }

  /** The theme `initTheme` chooses: a non-empty stored value verbatim, otherwise
      light when the platform can answer the media query and prefers light. */
  function InitialTheme(stored: Option<string>, hasMatchMedia: bool, prefersLight: bool): string {
    if stored.Some? && stored.value != "" then stored.value
    else if hasMatchMedia && prefersLight then Light
    else Dark
  }

  /** `initTheme()`; `readOk` and `writeOk` say whether storage access succeeds. */
  function Init(s: ThemeState, buttonPresent: bool, readOk: bool, writeOk: bool,
                hasMatchMedia: bool, prefersLight: bool): ThemeState
  {
    var stored := if readOk then s.stored else None;
    Apply(s, InitialTheme(stored, hasMatchMedia, prefersLight), buttonPresent, writeOk)
  }

  /** The `DOMContentLoaded` listener: redraws the button from `data-theme`. */
  function Resync(s: ThemeState, buttonPresent: bool): ThemeState {
    UpdateToggleUI(s, s.root, buttonPresent)
  }

  /** The button describes the theme on the root element. */
  predicate ButtonSynced(s: ThemeState) {
    s.ariaPressed == PressedFor(s.root) && s.ariaLabel == LabelFor(s.root) && s.title == s.ariaLabel
  }

  /** The toggle sends "light" to "dark" and every other value, absent included,
      to "light". */
  lemma NextThemeCases(current: Option<string>)
    ensures NextTheme(current) == Dark <==> current == Some(Light)
    ensures NextTheme(current) == Light <==> current != Some(Light)
  {
  }

  /** Two toggles restore the original value exactly when it was "light" or "dark". */
  lemma ToggleTwiceRestores(current: Option<string>)
    ensures Some(NextTheme(Some(NextTheme(current)))) == current
        <==> current == Some(Light) || current == Some(Dark)
  {
  }

  /** What applying a theme does to each part of the state. */
  lemma ApplyEffects(s: ThemeState, theme: string, buttonPresent: bool, storageOk: bool)
    ensures var r := Apply(s, theme, buttonPresent, storageOk);
      r.root == Some(theme) &&
      r.stored == (if storageOk then Some(theme) else s.stored) &&
      (storageOk ==> r.stored == r.root) &&
      (buttonPresent ==> (r.ariaPressed == "true" <==> theme == Dark)) &&
      (buttonPresent ==> r.ariaLabel == r.title == (if theme == Dark then SwitchToLightLabel else SwitchToDarkLabel)) &&
      (buttonPresent ==> ButtonSynced(r)) &&
      (!buttonPresent ==> r.ariaPressed == s.ariaPressed && r.ariaLabel == s.ariaLabel && r.title == s.title)
  {
  }

  /** Applying a theme a second time changes nothing beyond what one application
      with either storage attempt succeeding would have done; with the same
      storage outcome, twice is once. */
  lemma ApplyIdempotent(s: ThemeState, theme: string, buttonPresent: bool, ok1: bool, ok2: bool)
    ensures Apply(Apply(s, theme, buttonPresent, ok1), theme, buttonPresent, ok2)
         == Apply(s, theme, buttonPresent, ok1 || ok2)
    ensures Apply(Apply(s, theme, buttonPresent, ok1), theme, buttonPresent, ok1)
         == Apply(s, theme, buttonPresent, ok1)
  {
  }

  /** Toggling leaves "light" or "dark" on the root, the opposite of a light or dark
      start, and two toggles from "light" or "dark" restore the root attribute. */
  lemma ToggleEffects(s: ThemeState, buttonPresent: bool, ok1: bool, ok2: bool)
    ensures var r := Toggle(s, buttonPresent, ok1);
      (r.root == Some(Light) || r.root == Some(Dark)) &&
      (s.root == Some(Light) ==> r.root == Some(Dark)) &&
      (s.root == Some(Dark) ==> r.root == Some(Light))
    ensures s.root == Some(Light) || s.root == Some(Dark) ==>
      Toggle(Toggle(s, buttonPresent, ok1), buttonPresent, ok2).root == s.root
  {
    ToggleTwiceRestores(s.root);
  }

  /** For "light" and "dark", and only for them, the button's label announces the
      theme the next toggle switches to. */
  lemma LabelAnnouncesToggle(current: Option<string>)
    ensures LabelFor(current) == AnnouncedSwitch(NextTheme(current))
        <==> current == Some(Light) || current == Some(Dark)
  {
  }

  /** The initial choice: a non-empty stored value verbatim, whatever it is;
      otherwise "light" exactly when the media query is available and matches. */
  lemma InitialThemeChoice(stored: Option<string>, hasMatchMedia: bool, prefersLight: bool)
    ensures stored.Some? && stored.value != "" ==>
      InitialTheme(stored, hasMatchMedia, prefersLight) == stored.value
    ensures stored == None || stored == Some("") ==>
      (InitialTheme(stored, hasMatchMedia, prefersLight) == Light <==> hasMatchMedia && prefersLight) &&
      (InitialTheme(stored, hasMatchMedia, prefersLight) == Dark <==> !(hasMatchMedia && prefersLight))
  {
  }

  /** Initialisation puts the initial choice for what storage yields on the root.
      With a readable non-empty preference that is the preference itself, and it
      leaves the stored value as it was, whether or not the write succeeds; with
      nothing readable it is "light" or "dark". */
  lemma InitEffects(s: ThemeState, buttonPresent: bool, readOk: bool, writeOk: bool,
                    hasMatchMedia: bool, prefersLight: bool)
    ensures var r := Init(s, buttonPresent, readOk, writeOk, hasMatchMedia, prefersLight);
      r.root == Some(InitialTheme(if readOk then s.stored else None, hasMatchMedia, prefersLight)) &&
      (readOk && s.stored.Some? && s.stored.value != "" ==> r.root == s.stored && r.stored == s.stored) &&
      (!readOk || s.stored == None || s.stored == Some("") ==> r.root == Some(Light) || r.root == Some(Dark)) &&
      (buttonPresent ==> ButtonSynced(r))
  {
  }

  /** The resync always leaves the button describing the root attribute, and after
      an application (the inline bootstrap case) it changes nothing. */
  lemma ResyncHarmless(s: ThemeState, theme: string, buttonPresent: bool, storageOk: bool)
    ensures buttonPresent ==> ButtonSynced(Resync(s, buttonPresent))
    ensures Resync(Apply(s, theme, buttonPresent, storageOk), buttonPresent)
         == Apply(s, theme, buttonPresent, storageOk)
  {
  }
}
