/** The navigation bar (`app/components/Navbar.tsx`): the first name shown for a
    signed-in user, the initial theme and the theme toggle. */
module Navbar {
  import opened Options
  import opened Text

  // ---- First name ----

  /** `s.replace(/[0-9]+$/, "")`: the run of ASCII digits at the end removed. */
  function StripTrailingDigits(s: string): (r: string)
    ensures |r| <= |s| && r == s[..|r|]
    ensures AllDigits(s[|r|..])
    ensures |r| == 0 || !IsDigit(r[|r| - 1])
  {
    if |s| > 0 && IsDigit(s[|s| - 1]) then
      var r := StripTrailingDigits(s[..|s| - 1]);
      assert s[|r|..] == s[..|s| - 1][|r|..] + [s[|s| - 1]];
      r
    else s
  }

  /** `s.charAt(0).toUpperCase() + s.slice(1)` for ASCII letters. */
  function Capitalize(s: string): (r: string)
    ensures |r| == |s|
    ensures |s| > 0 ==> r[0] == ToUpperAscii(s[0]) && r[1..] == s[1..]
  {
    if |s| == 0 then "" else [ToUpperAscii(s[0])] + s[1..]
  }

  /** The part of an address `extractFirstName` works on: before the first "@", then
      before the first ".". */
  function MainPart(email: string): (r: string)
    ensures '@' !in r && '.' !in r
    ensures |r| <= |email| && r == email[..|r|]
  {
    var user := BeforeFirst(email, '@');
    BeforeFirst(user, '.')
  }

  /** `extractFirstName`: the local part of the address up to its first ".", without
      trailing digits, first letter upper-cased. */
  function ExtractFirstName(email: string): (r: string)
    ensures '@' !in r && '.' !in r
    ensures |r| == 0 || !IsDigit(r[|r| - 1])
    ensures |r| <= |email|
    ensures |r| <= |MainPart(email)|
    ensures |r| > 0 ==> r[0] == ToUpperAscii(MainPart(email)[0]) && r[1..] == MainPart(email)[1..|r|]
    ensures AllDigits(MainPart(email)[|r|..])
  {
    var main := MainPart(email);
    var cleaned := StripTrailingDigits(main);
    var r := Capitalize(cleaned);
    assert forall i :: 0 <= i < |r| ==> r[i] == ToUpperAscii(cleaned[0]) || r[i] == main[i];
    if |r| > 0 then
      assert r[1..] == cleaned[1..] == main[1..|r|];
      assert forall i :: 0 <= i < |r| ==> r[i] != '@' && r[i] != '.';
      r
    else r
  }

  /** A name already extracted is its own first name. */
  lemma ExtractFirstNameIdempotent(email: string)
    ensures ExtractFirstName(ExtractFirstName(email)) == ExtractFirstName(email)
  {
    var r := ExtractFirstName(email);
    assert MainPart(r) == r;
    assert StripTrailingDigits(r) == r;
    if |r| > 0 {
      assert ToUpperAscii(r[0]) == r[0];
      assert Capitalize(r) == [r[0]] + r[1..] == r;
    }
  }

  /** For an address `first.rest@domain` whose first word has no trailing digit, the
      name is that word capitalised: everything after the first dot is ignored. */
  lemma FirstWordOfDottedAddress(first: string, rest: string, domain: string)
    requires '@' !in first && '.' !in first && '@' !in rest
    requires |first| == 0 || !IsDigit(first[|first| - 1])
    ensures ExtractFirstName(first + "." + rest + "@" + domain) == Capitalize(first)
  {
    var user := first + "." + rest;
    assert '@' !in user;
    assert first + "." + rest + "@" + domain == user + ['@'] + domain;
    SplitJoin(user, '@', domain);
    SplitJoin(first, '.', rest);
    assert MainPart(first + "." + rest + "@" + domain) == first;
  }

  /** The name in the profile menu: the session's name when it has one, else the first
      name taken from the address, else nothing. */
  function DisplayName(name: Option<string>, email: Option<string>): (r: string)
    ensures name.Some? && name.value != "" ==> r == name.value
    ensures (name.None? || name.value == "") && email.Some? && email.value != "" ==> r == ExtractFirstName(email.value)
    ensures (name.None? || name.value == "") && (email.None? || email.value == "") ==> r == ""
  {
    if name.Some? && name.value != "" then name.value
    else if email.Some? && email.value != "" then ExtractFirstName(email.value)
    else ""
  }

  // ---- Theme ----

  function ThemeName(dark: bool): (r: string)
    ensures r == "dark" <==> dark
  {
    if dark then "dark" else "light"
  }

  /** The initial rule: dark when the stored theme is "dark", or when nothing (or the
      empty string) is stored and the system prefers dark. */
  function InitialDark(saved: Option<string>, prefersDark: bool): (r: bool)
    ensures saved == Some("dark") ==> r
    ensures saved.Some? && saved.value != "" && saved.value != "dark" ==> !r
    ensures saved.None? || saved.value == "" ==> (r <==> prefersDark)
  {
    saved == Some("dark") || ((saved.None? || saved.value == "") && prefersDark)
  }

  /** What the bar controls: its flag, the stored theme, the root element's `data-theme`
      and whether the root carries the "dark" class. */
  datatype ThemeState = ThemeState(isDark: bool, saved: Option<string>, dataTheme: string, darkClass: bool)

  /** The page shows what the flag says. */
  predicate Displays(st: ThemeState)
  {
    st.dataTheme == ThemeName(st.isDark) && st.darkClass == st.isDark
  }

  /** The mount effect: the flag from the initial rule, applied to the root; storage untouched. */
  function MountTheme(saved: Option<string>, prefersDark: bool): (st: ThemeState)
    ensures Displays(st)
    ensures st.saved == saved
    ensures st.isDark == InitialDark(saved, prefersDark)
  {
    var dark := InitialDark(saved, prefersDark);
    ThemeState(dark, saved, ThemeName(dark), dark)
  }

  /** `toggleTheme`: flip the flag, store and apply the new theme, and announce it. */
  function ToggleTheme(st: ThemeState): (r: (ThemeState, string))
    ensures r.0.isDark == !st.isDark
    ensures Displays(r.0)
    ensures r.0.saved == Some(r.0.dataTheme)
    ensures r.1 == "Switched to " + r.0.dataTheme + " mode"
  {
    var dark := !st.isDark;
    var theme := ThemeName(dark);
    (ThemeState(dark, Some(theme), theme, dark), "Switched to " + theme + " mode")
  }

  /** Toggling twice gives back the theme on display, now also stored. */
  lemma ToggleTwiceRestores(st: ThemeState)
    requires Displays(st)
    ensures ToggleTheme(ToggleTheme(st).0).0 == st.(saved := Some(st.dataTheme))
  {
  }

  /** After the first toggle, storage always agrees with the display, so reloading the
      page (with any system preference) shows the same theme. */
  lemma ToggledThemeSurvivesReload(st: ThemeState, prefersDark: bool)
    ensures MountTheme(ToggleTheme(st).0.saved, prefersDark) == ToggleTheme(st).0
  {
  }
}
