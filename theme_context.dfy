/**
 * The site-wide colour theme: read once from the store under "tema", flipped by
 * the toggle, and written back as "dark" or "light" whenever it changes.
 * The class set on the document root is outside the model.
 */
module ThemeContext {
  import opened Js
  import opened BrowserStorage

  /** `localStorage.getItem("tema") || "dark"`: a missing or empty stored value means dark. */
  function InitialTheme(stored: Option<string>): (r: string)
    ensures Truthy(stored) ==> r == stored.value
    ensures !Truthy(stored) ==> r == "dark"
    ensures r != ""
  {
    OrDefault(stored, "dark")
  }

  /** `toggleTheme`: dark becomes light, anything else becomes dark. */
  function ToggleTheme(theme: string): (r: string)
    ensures r == "light" <==> theme == "dark"
    ensures r == "dark" <==> theme != "dark"
  {
    if theme == "dark" then "light" else "dark"
  }

  /** The value the effect writes: only "dark" is stored as dark; every other theme is stored as light. */
  function PersistedTheme(theme: string): (r: string)
    ensures r == "dark" || r == "light"
    ensures r == "dark" <==> theme == "dark"
  {
    if theme == "dark" then "dark" else "light"
  }

  /** Toggling twice gives back dark or light; any other stored theme ends up light. */
  lemma ToggleTwice(theme: string)
    ensures theme == "dark" || theme == "light" ==> ToggleTheme(ToggleTheme(theme)) == theme
    ensures theme != "dark" ==> ToggleTheme(ToggleTheme(theme)) == "light"
  {
  }

  /** A reload reads back what was written: the reloaded theme is the persisted one and persists as itself. */
  lemma ReloadKeepsTheme(theme: string)
    ensures InitialTheme(Some(PersistedTheme(theme))) == PersistedTheme(theme)
    ensures PersistedTheme(InitialTheme(Some(PersistedTheme(theme)))) == PersistedTheme(theme)
  {
  }

  /** The provider: the theme in memory and the store it persists to. */
  class ThemeProvider {
    const store: LocalStorage
    var theme: string

    /** The store holds the persisted form of the current theme. */
    ghost predicate Valid()
      reads this, store
    {
      StoredTheme(store.entries) == Some(PersistedTheme(theme))
    }

    /** Mounting: the initial theme, then the effect's first write. */
    constructor (store: LocalStorage)
      modifies store
      ensures this.store == store
      ensures theme == InitialTheme(StoredTheme(old(store.entries)))
      ensures store.entries == old(store.entries)[ThemeKey := Text(PersistedTheme(theme))]
      ensures Valid()
    {
      this.store := store;
      theme := InitialTheme(StoredTheme(store.entries));
      new;
      store.SetItem(ThemeKey, Text(PersistedTheme(theme)));
    }

    /** The toggle and the effect it triggers. */
    method Toggle()
      requires Valid()
      modifies this, store
      ensures theme == ToggleTheme(old(theme))
      ensures store.entries == old(store.entries)[ThemeKey := Text(PersistedTheme(theme))]
      ensures Valid()
    {
      theme := ToggleTheme(theme);
      store.SetItem(ThemeKey, Text(PersistedTheme(theme)));
    }
  }
}
