/** The application providers (`app/components/Providers.tsx`): the theme applied to
    the root element when the app mounts. */
module Providers {
  import opened Options
  import Navbar

  /** `savedTheme || (prefersDark ? "dark" : "light")`. */
  function ResolveTheme(saved: Option<string>, prefersDark: bool): (r: string)
    ensures saved.Some? && saved.value != "" ==> r == saved.value
    ensures saved.None? || saved.value == "" ==> r == Navbar.ThemeName(prefersDark)
    ensures r != ""
  {
    if saved.Some? && saved.value != "" then saved.value else Navbar.ThemeName(prefersDark)
  }

  /** The root element after mounting: its `data-theme` and whether it has the "dark" class. */
  datatype Root = Root(dataTheme: string, darkClass: bool)

  function MountRoot(saved: Option<string>, prefersDark: bool): (r: Root)
    ensures r.dataTheme == ResolveTheme(saved, prefersDark)
    ensures r.darkClass <==> r.dataTheme == "dark"
  {
    var theme := ResolveTheme(saved, prefersDark);
    Root(theme, theme == "dark")
  }

  /** Both mount effects put the "dark" class on the root in exactly the same cases,
      whatever is stored. */
  lemma DarkClassAgreesWithNavbar(saved: Option<string>, prefersDark: bool)
    ensures MountRoot(saved, prefersDark).darkClass == Navbar.MountTheme(saved, prefersDark).darkClass
  {
  }

  /** Their `data-theme` values agree exactly when the stored value is absent, empty,
      "dark" or "light"; any other stored value is kept here and read as light there. */
  lemma DataThemeAgreesWithNavbar(saved: Option<string>, prefersDark: bool)
    ensures MountRoot(saved, prefersDark).dataTheme == Navbar.MountTheme(saved, prefersDark).dataTheme
        <==> saved.None? || saved.value in {"", "dark", "light"}
  {
  }
}
