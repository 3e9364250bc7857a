/** The theme provider: a single in-memory colour-scheme string, seeded from
    the system setting and flipped on demand. */
module Theme {
  import opened Js

  const Dark: string := "dark"
  const Light: string := "light"

  /** `systemColorScheme || 'dark'`: the system scheme whenever it is truthy,
      otherwise dark. */
  function InitialTheme(system: Option<string>): (t: string)
    ensures Truthy(system) ==> t == system.value
    ensures !Truthy(system) ==> t == Dark
    ensures t != ""
  {
    Or(system, Some(Dark)).value
  }

  /** `prev === 'dark' ? 'light' : 'dark'`. */
  function ToggleTheme(prev: string): (t: string)
    ensures t == Light || t == Dark
    ensures t == Light <==> prev == Dark
  {
    if prev == Dark then Light else Dark
  }

  /** On the two recognised values the toggle is an involution. */
  lemma ToggleTwiceRestores(t: string)
    requires t == Light || t == Dark
    ensures ToggleTheme(ToggleTheme(t)) == t
  {
  }

  /** Outside the two recognised values it is not: any other truthy system
      scheme becomes dark after one toggle and light after two. */
  lemma ToggleTwiceNormalises(t: string)
    requires t != Light && t != Dark
    ensures ToggleTheme(t) == Dark
    ensures ToggleTheme(ToggleTheme(t)) == Light != t
  {
  }

  /** Whatever the system reports, one toggle lands on a recognised value and
      from then on every pair of toggles is the identity. */
  lemma ToggledThemeIsStable(system: Option<string>)
    ensures var t := ToggleTheme(InitialTheme(system));
            (t == Light || t == Dark) && ToggleTheme(ToggleTheme(t)) == t
  {
  }
}
