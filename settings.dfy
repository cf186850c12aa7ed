/**
 * The settings store (src/stores/settings.ts): the user's name, theme and
 * locale, held as one record and mirrored into local storage under
 * "userSettings" whenever it changes.
 */
module Settings {
  import opened Wrappers
  import opened Types
  import opened Storage

  const SettingsKey: string := "userSettings"

  /** `DEFAULT_SETTINGS`. */
  const DefaultSettings: UserSettings := UserSettings("User", Light, En)

  /**
   * `loadSettings()`: the record stored under "userSettings"; the defaults when
   * the key is missing, holds the empty string, or its text does not parse.
   */
  function LoadSettings(entries: map<string, Stored>): UserSettings {
    match Present(entries, SettingsKey)
    case Some(StoredSettings(settings)) => settings
    case _ => DefaultSettings
  }

  /** The theme `toggleTheme` switches to: dark after light, light after dark. */
  function Flipped(t: Theme): (r: Theme)
    ensures r != t
  {
    if t == Light then Dark else Light
  }

  /** Flipping twice gives the theme back. */
  lemma FlippedTwice(t: Theme)
    ensures Flipped(Flipped(t)) == t
  {
  }

  /** What is persisted is what loads back. */
  lemma LoadPersisted(entries: map<string, Stored>, s: UserSettings)
    ensures LoadSettings(entries[SettingsKey := StoredSettings(s)]) == s
  {
  }

  /** A missing key, an empty string and unparseable text all load as the defaults. */
  lemma LoadFallback(entries: map<string, Stored>)
    requires SettingsKey !in entries || entries[SettingsKey] == EmptyText || entries[SettingsKey] == Corrupt
    ensures LoadSettings(entries) == UserSettings("User", Light, En)
  {
  }

  class SettingsStore {
    var settings: UserSettings
    const storage: LocalStorage

    /** Store creation: `ref(loadSettings())`. Nothing is written until the first change. */
    constructor (storage: LocalStorage)
      ensures this.storage == storage
      ensures settings == LoadSettings(storage.entries)
    {
      this.storage := storage;
      settings := LoadSettings(storage.entries);
    }

    /** The `userName` getter. */
    function UserName(): string
      reads this
    {
      settings.name
    }

    /** The `currentTheme` getter. */
    function CurrentTheme(): Theme
      reads this
    {
      settings.theme
    }

    /** The `currentLocale` getter. */
    function CurrentLocale(): Locale
      reads this
    {
      settings.locale
    }

    /** Storage holds the current record, so reloading gives it back. */
    predicate Saved()
      reads this, storage
    {
      LoadSettings(storage.entries) == settings
    }

    /**
     * Installs the record; the deep watcher writes it to storage only when it
     * differs from the current one, since assigning a field the value it
     * already has is not a change.
     */
    method Assign(next: UserSettings)
      modifies this, storage
      ensures settings == next
      ensures storage.entries ==
        if next == old(settings) then old(storage.entries)
        else old(storage.entries)[SettingsKey := StoredSettings(next)]
      ensures old(Saved()) ==> Saved()
    {
      if next != settings {
        settings := next;
        storage.SetItem(SettingsKey, StoredSettings(settings));
      }
    }

    /** `updateName(newName)`: the name becomes exactly `newName`, untrimmed; theme and locale stay. */
    method UpdateName(newName: string)
      modifies this, storage
      ensures UserName() == newName
      ensures CurrentTheme() == old(CurrentTheme()) && CurrentLocale() == old(CurrentLocale())
      ensures storage.entries ==
        if newName == old(settings.name) then old(storage.entries)
        else old(storage.entries)[SettingsKey := StoredSettings(settings)]
      ensures old(Saved()) ==> Saved()
    {
      Assign(settings.(name := newName));
    }

    /** `updateTheme(newTheme)`: only the theme changes. */
    method UpdateTheme(newTheme: Theme)
      modifies this, storage
      ensures CurrentTheme() == newTheme
      ensures UserName() == old(UserName()) && CurrentLocale() == old(CurrentLocale())
      ensures storage.entries ==
        if newTheme == old(settings.theme) then old(storage.entries)
        else old(storage.entries)[SettingsKey := StoredSettings(settings)]
      ensures old(Saved()) ==> Saved()
    {
      Assign(settings.(theme := newTheme));
    }

    /** `updateLocale(newLocale)`: only the locale changes. */
    method UpdateLocale(newLocale: Locale)
      modifies this, storage
      ensures CurrentLocale() == newLocale
      ensures UserName() == old(UserName()) && CurrentTheme() == old(CurrentTheme())
      ensures storage.entries ==
        if newLocale == old(settings.locale) then old(storage.entries)
        else old(storage.entries)[SettingsKey := StoredSettings(settings)]
      ensures old(Saved()) ==> Saved()
    {
      Assign(settings.(locale := newLocale));
    }

    /** `toggleTheme()`: the other theme, always a change, so the record is always written. */
    method ToggleTheme()
      modifies this, storage
      ensures CurrentTheme() == Flipped(old(CurrentTheme()))
      ensures UserName() == old(UserName()) && CurrentLocale() == old(CurrentLocale())
      ensures storage.entries == old(storage.entries)[SettingsKey := StoredSettings(settings)]
      ensures Saved()
    {
      UpdateTheme(Flipped(CurrentTheme()));
    }
  }

  /** Toggling twice restores the theme and leaves the record as it was. */
  method ToggleTwice(store: SettingsStore)
    modifies store, store.storage
    ensures store.settings == old(store.settings)
  {
    store.ToggleTheme();
    store.ToggleTheme();
    FlippedTwice(old(store.settings.theme));
  }
}
