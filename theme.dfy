/** The light/dark theme of the page: the `data-theme` attribute of the
    document body, mirrored in local storage. */
module Theme {
  import opened Options

  const Light: string := "light"
  const Dark: string := "dark"

  /** The theme a stored or attribute value stands for: a missing or empty
      value counts as light. */
  function Effective(value: Option<string>): (theme: string)
    ensures theme != ""
    ensures theme == Light || value == Some(theme)
    ensures value.Some? && value.value != "" ==> theme == value.value
  {
    if value.None? || value.value == "" then Light else value.value
  }

  /** The theme after a toggle: dark when the page is light, light for
      anything else. */
  function NextTheme(current: Option<string>): (theme: string)
    ensures theme == Light || theme == Dark
    ensures theme == Dark <==> Effective(current) == Light
  {
    if Effective(current) == Light then Dark else Light
  }

  /** Two toggles from either theme come back to it. */
  lemma ToggleTwice(theme: string)
    requires theme == Light || theme == Dark
    ensures NextTheme(Some(NextTheme(Some(theme)))) == theme
  {
  }

  /** A page with no theme set behaves as a light page. */
  lemma MissingIsLight()
    ensures NextTheme(None) == Dark
    ensures NextTheme(Some("")) == Dark
    ensures NextTheme(Some(Light)) == Dark && NextTheme(Some(Dark)) == Light
  {
  }

  /** The body attribute and the stored preference. */
  class Page {
    var dataTheme: Option<string>
    var storedTheme: Option<string>

    /** Page start: the stored preference, light when there is none, is put
        on the body. */
    constructor (saved: Option<string>)
      ensures storedTheme == saved
      ensures dataTheme == Some(Effective(saved))
    {
      storedTheme := saved;
      dataTheme := Some(Effective(saved));
    }

    /** The theme button: flips the body's theme and stores the new one. */
    method ToggleTheme()
      modifies this
      ensures dataTheme == Some(NextTheme(old(dataTheme)))
      ensures storedTheme == dataTheme
      ensures dataTheme.value == Dark <==> Effective(old(dataTheme)) == Light
    {
      var currentTheme := Effective(dataTheme);
      var newTheme := if currentTheme == Light then Dark else Light;
      dataTheme := Some(newTheme);
      storedTheme := Some(newTheme);
    }
  }
}
