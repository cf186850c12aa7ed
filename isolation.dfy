/** Each store owns its own storage key: writing one leaves what the others load unchanged. */
module Isolation {
  import opened Types
  import opened Storage
  import Todos
  import Settings
  import Weather

  /** A todo-list write changes neither the settings nor the city that load. */
  lemma TodoWriteIsolated(entries: map<string, Stored>, v: Stored)
    ensures Settings.LoadSettings(entries[Todos.TodoKey := v]) == Settings.LoadSettings(entries)
    ensures Weather.LoadState(entries[Todos.TodoKey := v]) == Weather.LoadState(entries)
  {
  }

  /** A settings write changes neither the todo list nor the city that load. */
  lemma SettingsWriteIsolated(entries: map<string, Stored>, v: Stored)
    ensures Todos.LoadTodos(entries[Settings.SettingsKey := v]) == Todos.LoadTodos(entries)
    ensures Weather.LoadState(entries[Settings.SettingsKey := v]) == Weather.LoadState(entries)
  {
  }

  /** Saving or clearing the city changes neither the todo list nor the settings that load. */
  lemma CityWriteIsolated(entries: map<string, Stored>, v: Stored)
    ensures Todos.LoadTodos(entries[Weather.CityKey := v]) == Todos.LoadTodos(entries)
    ensures Settings.LoadSettings(entries[Weather.CityKey := v]) == Settings.LoadSettings(entries)
    ensures Todos.LoadTodos(entries - {Weather.CityKey}) == Todos.LoadTodos(entries)
    ensures Settings.LoadSettings(entries - {Weather.CityKey}) == Settings.LoadSettings(entries)
  {
  }
}
