/**
 * The theme preference store (src/stores/theme.ts): a light/dark mode chosen
 * at start-up from the saved preference or the system preference, changed by
 * the store's actions, and after every change applied to the document root
 * and saved in local storage.
 */
module Theme {
  import opened Js

  datatype ThemeMode = Light | Dark

  /** The local storage key of the saved preference. */
  const STORAGE_KEY: string := "github-star-organizer:theme"

  /** The text of a mode, as saved and as written to `colorScheme`. */
  function ModeName(mode: ThemeMode): string {
    match mode
    case Light => "light"
    case Dark => "dark"
  }

  /** A saved text names a mode only when it is exactly `light` or `dark`. */
  function ParseMode(s: string): (r: Option<ThemeMode>)
    ensures r.Some? <==> s == "light" || s == "dark"
    ensures r.Some? ==> ModeName(r.value) == s
  {
    if s == "light" then Some(Light)
    else if s == "dark" then Some(Dark)
    else None
  }

  /** Reading back the text of a mode gives the mode. */
  lemma ParseModeName(mode: ThemeMode)
    ensures ParseMode(ModeName(mode)) == Some(mode)
  {
  }

  /**
   * resolveInitialTheme. Without a window the mode is light. Otherwise a
   * saved `light` or `dark` wins; any other saved text, or none, leaves the
   * choice to the system preference: dark when it prefers dark, else light.
   * `stored` is None when nothing is saved or reading the storage fails.
   */
  function ResolveInitialTheme(hasWindow: bool, stored: Option<string>, prefersDark: bool): (r: ThemeMode)
    ensures !hasWindow ==> r == Light
    ensures hasWindow && stored.Some? && ParseMode(stored.value).Some? ==> r == ParseMode(stored.value).value
    ensures hasWindow && (stored.None? || ParseMode(stored.value).None?) ==> (r == Dark <==> prefersDark)
  {
    if !hasWindow then Light
    else if stored.Some? && ParseMode(stored.value).Some? then ParseMode(stored.value).value
    else if prefersDark then Dark
    else Light
  }

  /** A saved preference is restored as it was saved, whatever the system prefers. */
  lemma SavedModeRestored(mode: ThemeMode, prefersDark: bool)
    ensures ResolveInitialTheme(true, Some(ModeName(mode)), prefersDark) == mode
  {
    ParseModeName(mode);
  }

  /** `toggleMode`: the other mode. */
  function Toggled(mode: ThemeMode): (r: ThemeMode)
    ensures r != mode
  {
    if mode == Dark then Light else Dark
  }

  /** Toggling twice gives back the mode toggled. */
  lemma ToggledTwice(mode: ThemeMode)
    ensures Toggled(Toggled(mode)) == mode
  {
  }

  /**
   * The store in a browser. `storageAvailable` is false when local storage
   * refuses access: reads and writes then fail and are ignored.
   */
  class ThemeStore {
    var mode: ThemeMode
    /** The `dark` class of the document root. */
    var darkClass: bool
    /** `style.colorScheme` of the document root. */
    var colorScheme: string
    /** Local storage. */
    var storage: map<string, string>
    const storageAvailable: bool

    /** The watcher's effect is in place: the root shows the mode and the storage holds it. */
    predicate Valid()
      reads this
    {
      && (darkClass <==> mode == Dark)
      && colorScheme == ModeName(mode)
      && (storageAvailable ==> STORAGE_KEY in storage && storage[STORAGE_KEY] == ModeName(mode))
    }

    /** `isDark` */
    function IsDark(): (r: bool)
      reads this
      ensures r <==> mode == Dark
    {
      mode == Dark
    }

    /**
     * Creating the store: the initial mode is resolved from the storage and
     * the system preference, and the immediate watcher applies and saves it.
     */
    constructor(storage: map<string, string>, storageAvailable: bool, prefersDark: bool)
      ensures Valid()
      ensures mode == ResolveInitialTheme(true,
        if storageAvailable && STORAGE_KEY in storage then Some(storage[STORAGE_KEY]) else None, prefersDark)
      ensures this.storageAvailable == storageAvailable
      ensures this.storage == if storageAvailable then storage[STORAGE_KEY := ModeName(mode)] else storage
    {
      var stored := if storageAvailable && STORAGE_KEY in storage then Some(storage[STORAGE_KEY]) else None;
      this.mode := ResolveInitialTheme(true, stored, prefersDark);
      this.storage := storage;
      this.storageAvailable := storageAvailable;
      new;
      Apply();
    }

    /** The watcher's callback: apply the mode to the root, then try to save it. */
    method Apply()
      modifies this
      ensures Valid()
      ensures mode == old(mode)
      ensures storage == if storageAvailable then old(storage)[STORAGE_KEY := ModeName(mode)] else old(storage)
    {
      darkClass := mode == Dark;
      colorScheme := ModeName(mode);
      if storageAvailable {
        storage := storage[STORAGE_KEY := ModeName(mode)];
      }
    }

    /** `setMode`: the mode becomes `value`; the watcher runs only when it changes. */
    method SetMode(value: ThemeMode)
      requires Valid()
      modifies this
      ensures Valid()
      ensures mode == value
      ensures storage == if storageAvailable then old(storage)[STORAGE_KEY := ModeName(value)] else old(storage)
    {
      if value != mode {
        mode := value;
        Apply();
      } else {
        assert storageAvailable ==> storage[STORAGE_KEY := ModeName(value)] == storage;
      }
    }

    /** `toggleMode`: the other mode, applied and saved. */
    method ToggleMode()
      requires Valid()
      modifies this
      ensures Valid()
      ensures mode == Toggled(old(mode))
      ensures IsDark() <==> !old(IsDark())
      ensures storage == if storageAvailable then old(storage)[STORAGE_KEY := ModeName(mode)] else old(storage)
    {
      mode := if IsDark() then Light else Dark;
      Apply();
    }

    /** Toggling twice restores the mode, the root and the saved preference. */
    method ToggleTwice()
      requires Valid()
      modifies this
      ensures Valid()
      ensures mode == old(mode) && darkClass == old(darkClass) && colorScheme == old(colorScheme)
      ensures storage == old(storage)
    {
      ToggleMode();
      ToggleMode();
    }
  }

  /**
   * A preference saved by one store is the one the next store starts with,
   * whatever the system prefers.
   */
  method Reload(store: ThemeStore, prefersDark: bool) returns (next: ThemeStore)
    requires store.Valid() && store.storageAvailable
    ensures fresh(next) && next.Valid()
    ensures next.mode == store.mode
  {
    next := new ThemeStore(store.storage, true, prefersDark);
    SavedModeRestored(store.mode, prefersDark);
  }
}
