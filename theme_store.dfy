// The theme store: the chosen daisyUI theme, read from the browser's local
// storage when the store is created and written back on every change.
module Theme {

  const ThemeKey := "chat-theme"
  const DefaultTheme := "coffee"

  /** The browser's `localStorage`: string keys to string values. */
  class LocalStorage {
    var items: map<string, string>

    constructor (items: map<string, string>)
      ensures this.items == items
    {
      this.items := items;
    }

    /** `setItem`. */
    method SetItem(key: string, value: string)
      modifies this
      ensures items == old(items)[key := value]
    {
      items := items[key := value];
    }
  }

  /** `localStorage.getItem("chat-theme") || "coffee"`: a missing or empty stored value falls back to the default. */
  function InitialTheme(items: map<string, string>): (theme: string)
    ensures theme != ""
    ensures ThemeKey in items && items[ThemeKey] != "" ==> theme == items[ThemeKey]
    ensures ThemeKey !in items || items[ThemeKey] == "" ==> theme == DefaultTheme
  {
    if ThemeKey in items && items[ThemeKey] != "" then items[ThemeKey] else DefaultTheme
  }

  class ThemeStore {
    var theme: string

    /** The store's creation: the stored theme, or `coffee`. */
    constructor (storage: LocalStorage)
      ensures theme == InitialTheme(storage.items)
    {
      theme := InitialTheme(storage.items);
    }

    /** `setTheme`: write the key, then the field. */
    method SetTheme(storage: LocalStorage, t: string)
      modifies this, storage
      ensures theme == t
      ensures storage.items == old(storage.items)[ThemeKey := t]
    {
      storage.SetItem(ThemeKey, t);
      theme := t;
    }
  }

  /** After `setTheme(t)`, a fresh store starts with `t`, or with `coffee` when `t` is empty. */
  lemma RoundTrip(items: map<string, string>, t: string)
    ensures InitialTheme(items[ThemeKey := t]) == if t != "" then t else DefaultTheme
  {
  }

  /** `setTheme` writes the theme key and no other. */
  lemma OtherKeysUntouched(items: map<string, string>, t: string, key: string)
    requires key != ThemeKey
    ensures key in items[ThemeKey := t] <==> key in items
    ensures key in items ==> items[ThemeKey := t][key] == items[key]
  {
  }

  /** Applying `setTheme(t)` twice leaves the same storage as applying it once. */
  lemma SetThemeIdempotent(items: map<string, string>, t: string)
    ensures items[ThemeKey := t][ThemeKey := t] == items[ThemeKey := t]
  {
  }

  /** Setting a theme twice, then reloading: the field, the storage and a fresh store agree. */
  method ReloadScenario(items: map<string, string>, t: string) returns (current: string, reloaded: string, stored: map<string, string>)
    requires t != ""
    ensures current == t && reloaded == t
    ensures stored == items[ThemeKey := t]
  {
    var storage := new LocalStorage(items);
    var store := new ThemeStore(storage);
    store.SetTheme(storage, t);
    store.SetTheme(storage, t);
    current := store.theme;
    stored := storage.items;
    var reopened := new ThemeStore(storage);
    reloaded := reopened.theme;
  }
}
