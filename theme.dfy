/**
 * The colour theme: the `theme` value, the document's `data-theme`
 * attribute, the stored 'theme' key and the `disabled` flags of the two
 * highlight.js stylesheets. The composable falls back to 'dark' when nothing
 * is stored; `script.js` runs the same setter with a 'light' fallback.
 */
module Theme {
  import opened Wrappers

  const Dark: string := "dark"
  const Light: string := "light"

  /** The two highlight stylesheets, when both are in the document. */
  datatype Sheets = Missing | Sheets(lightDisabled: bool, darkDisabled: bool)

  datatype ThemeState = ThemeState(theme: string, attribute: Option<string>, stored: Option<string>, sheets: Sheets)

  /** `localStorage.getItem('theme') || fallback`: a missing or empty value gives the fallback. */
  function InitialTheme(stored: Option<string>, fallback: string): (t: string)
    ensures stored.Some? && stored.value != "" ==> t == stored.value
    ensures stored.None? || stored.value == "" ==> t == fallback
  {
    if stored.Some? && stored.value != "" then stored.value else fallback
  }

  /** The state before mount: the theme is chosen, the document is not yet touched. */
  function Initial(stored: Option<string>, fallback: string, sheetsPresent: bool): ThemeState {
    ThemeState(InitialTheme(stored, fallback), None, stored,
      if sheetsPresent then Sheets(false, false) else Missing)
  }

  function SetTheme(s: ThemeState, t: string): ThemeState {
    s.(theme := t, attribute := Some(t), stored := Some(t),
       sheets := if s.sheets.Missing? then Missing else Sheets(t == Dark, t != Dark))
  }

  /** `theme === 'dark' ? 'light' : 'dark'`. */
  function Toggled(t: string): string {
    if t == Dark then Light else Dark
  }

  function ToggleTheme(s: ThemeState): ThemeState {
    SetTheme(s, Toggled(s.theme))
  }

  /**
   * The `script.js` toggle button decides from the document's attribute
   * rather than from a stored value.
   */
  function ToggleFromAttribute(s: ThemeState): ThemeState {
    SetTheme(s, if s.attribute == Some(Dark) then Light else Dark)
  }

  /** The mount hook re-applies the current theme. */
  function Mount(s: ThemeState): ThemeState {
    SetTheme(s, s.theme)
  }

  /** `setTheme(t)` makes the value, the attribute and the stored key all `t`. */
  lemma SetThemeAgrees(s: ThemeState, t: string)
    ensures var r := SetTheme(s, t);
      && r.theme == t && r.attribute == Some(t) && r.stored == Some(t)
      && (s.sheets.Sheets? ==> r.sheets.Sheets? && (r.sheets.lightDisabled <==> t == Dark) && (r.sheets.darkDisabled <==> t != Dark))
      && (s.sheets.Missing? ==> r.sheets.Missing?)
  {
  }

  /** When both sheets exist, exactly one of them is enabled after `setTheme`. */
  lemma ExactlyOneSheetEnabled(s: ThemeState, t: string)
    requires s.sheets.Sheets?
    ensures var r := SetTheme(s, t).sheets; r.Sheets? && r.lightDisabled != r.darkDisabled
  {
  }

  /**
   * A toggle maps 'dark' to 'light' and everything else to 'dark', so two
   * toggles restore 'dark' and 'light' but turn any other value into 'light'.
   */
  lemma ToggleTwice(t: string)
    ensures t == Dark || t == Light ==> Toggled(Toggled(t)) == t
    ensures t != Dark && t != Light ==> Toggled(Toggled(t)) == Light
    ensures Toggled(t) != t
  {
  }

  /**
   * Once a theme has been applied, the attribute-driven toggle of `script.js`
   * and the value-driven toggle of the composable agree; before that the
   * attribute is unset and the attribute-driven toggle always picks 'dark'.
   */
  lemma TogglesAgreeAfterSet(s: ThemeState, t: string)
    ensures ToggleFromAttribute(SetTheme(s, t)) == ToggleTheme(SetTheme(s, t))
    ensures s.attribute.None? ==> ToggleFromAttribute(s).theme == Dark
  {
  }

  /** Page load in `script.js`: the stored theme, or 'light', applied to everything. */
  lemma ScriptStartup(stored: Option<string>)
    ensures var s := Mount(Initial(stored, Light, true));
      && s.theme == InitialTheme(stored, Light)
      && s.attribute == Some(s.theme) && s.stored == Some(s.theme)
      && s.sheets == Sheets(s.theme == Dark, s.theme != Dark)
  {
  }

  /** Re-applying at mount is idempotent. */
  lemma MountIdempotent(s: ThemeState)
    ensures Mount(Mount(s)) == Mount(s)
    ensures Mount(s).theme == s.theme
  {
  }

  /** What `setTheme` stores is what the next page load starts from. */
  lemma PersistRoundTrip(s: ThemeState, t: string, fallback: string, sheetsPresent: bool)
    requires t != ""
    ensures Initial(SetTheme(s, t).stored, fallback, sheetsPresent).theme == t
  {
  }

  /** The theme composable's refs and the document state it writes. */
  class ThemeSwitch {
    var theme: string
    var dataTheme: Option<string>
    var storedTheme: Option<string>
    var sheets: Sheets

    function Model(): ThemeState
      reads this
    {
      ThemeState(theme, dataTheme, storedTheme, sheets)
    }

    /** `fallback` is 'dark' in the composable and 'light' in `script.js`. */
    constructor (stored: Option<string>, fallback: string, sheetsPresent: bool)
      ensures Model() == Initial(stored, fallback, sheetsPresent)
    {
      theme := if stored.Some? && stored.value != "" then stored.value else fallback;
      dataTheme := None;
      storedTheme := stored;
      sheets := if sheetsPresent then Sheets(false, false) else Missing;
    }

    method SetThemeTo(newTheme: string)
      modifies this
      ensures Model() == SetTheme(old(Model()), newTheme)
    {
      theme := newTheme;
      dataTheme := Some(newTheme);
      storedTheme := Some(newTheme);
      if sheets.Sheets? {
        sheets := Sheets(newTheme == Dark, newTheme != Dark);
      }
    }

    method Toggle()
      modifies this
      ensures Model() == ToggleTheme(old(Model()))
    {
      SetThemeTo(if theme == Dark then Light else Dark);
    }

    /** The `script.js` toggle button. */
    method ToggleByAttribute()
      modifies this
      ensures Model() == ToggleFromAttribute(old(Model()))
    {
      SetThemeTo(if dataTheme == Some(Dark) then Light else Dark);
    }

    method OnMounted()
      modifies this
      ensures Model() == Mount(old(Model()))
    {
      SetThemeTo(theme);
    }
  }
}
