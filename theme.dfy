/**
 * The theme store (`ThemeProvider`, src/components/ThemeProvider.jsx).
 *
 * The theme is a string held in memory, mirrored into browser storage under
 * the key "theme" and into a `dark` class on the document root.  Storage is a
 * map from keys to strings and the root class a boolean.
 */
module ThemeProvider {
  import opened Util

  const StorageKey: string := "theme"

  /**
   * The theme chosen on start-up: the stored value when it is a non-empty
   * string, whatever that string is, and "dark" otherwise.
   */
  function InitialTheme(storage: map<string, string>): (r: string)
    ensures r != ""
    ensures StorageKey in storage && storage[StorageKey] != "" ==> r == storage[StorageKey]
    ensures !(StorageKey in storage && storage[StorageKey] != "") ==> r == "dark"
  {
    if StorageKey in storage && storage[StorageKey] != "" then storage[StorageKey] else "dark"
  }

  /** The toggle's updater: "light" becomes "dark", anything else becomes "light". */
  function Toggled(theme: string): (r: string)
    ensures r == "light" || r == "dark"
    ensures r == "dark" <==> theme == "light"
  {
    if theme == "light" then "dark" else "light"
  }

  /** The theme after `k` toggles. */
  function Toggles(theme: string, k: nat): string
  {
    if k == 0 then theme else Toggled(Toggles(theme, k - 1))
  }

  /** From "light" or "dark", toggling twice restores the theme. */
  lemma ToggleTwiceRestores(theme: string)
    requires theme == "light" || theme == "dark"
    ensures Toggled(Toggled(theme)) == theme
  {
  }

  /** A stored value other than "light" or "dark" is not restored by two toggles. */
  lemma UnexpectedThemeNotRestored(theme: string)
    requires theme != "light" && theme != "dark"
    ensures Toggled(Toggled(theme)) == "dark" != theme
  {
  }

  /**
   * From "light" or "dark", the theme after `k` toggles depends only on the
   * parity of `k`; after at least one toggle it is "light" or "dark" whatever
   * it started as.
   */
  lemma {:induction false} TogglesByParity(theme: string, k: nat)
    ensures k > 0 ==> Toggles(theme, k) == "light" || Toggles(theme, k) == "dark"
    ensures theme == "light" || theme == "dark" ==>
              Toggles(theme, k) == if k % 2 == 0 then theme else Toggled(theme)
    decreases k
  {
    if k > 0 {
      TogglesByParity(theme, k - 1);
    }
  }

  /** The provider: the theme, the browser storage and the root `dark` class. */
  class ThemeStore {
    var theme: string
    var storage: map<string, string>
    var rootDark: bool

    /** The effect's postcondition: storage and the root class reflect the theme. */
    ghost predicate Mirrored()
      reads this
    {
      StorageKey in storage && storage[StorageKey] == theme && rootDark == (theme == "dark")
    }

    /** Mounting: the initial theme, then the effect's first run. */
    constructor (stored: map<string, string>, rootWasDark: bool)
      ensures theme == InitialTheme(stored)
      ensures storage == stored[StorageKey := theme]
      ensures Mirrored()
    {
      theme := InitialTheme(stored);
      storage := stored;
      rootDark := rootWasDark;
      new;
      Persist();
    }

    /** The effect run after every change of theme. */
    method Persist()
      modifies this`storage, this`rootDark
      ensures theme == old(theme)
      ensures storage == old(storage)[StorageKey := theme]
      ensures Mirrored()
    {
      rootDark := theme == "dark";
      storage := storage[StorageKey := theme];
    }

    /** `toggleTheme` followed by the effect it triggers. */
    method ToggleTheme()
      modifies this
      ensures theme == Toggled(old(theme))
      ensures storage == old(storage)[StorageKey := theme]
      ensures Mirrored()
    {
      theme := Toggled(theme);
      Persist();
    }
  }
}
