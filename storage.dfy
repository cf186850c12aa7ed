/**
 * The browser's string-keyed local storage, holding each store's value under
 * its own key. Serialisation is abstracted away: a key holds either the value
 * the store wrote, the empty string, or text that does not parse.
 */
module Storage {
  import opened Wrappers
  import opened Types

  datatype Stored =
    | StoredTodos(todos: seq<TodoRecord>)
    | StoredSettings(settings: UserSettings)
    | StoredCity(city: CityData)
    | EmptyText   // the empty string, which the loaders' `if (stored)` treats as missing
    | Corrupt     // text on which `JSON.parse` throws

  class LocalStorage {
    var entries: map<string, Stored>

    constructor (entries: map<string, Stored>)
      ensures this.entries == entries
    {
      this.entries := entries;
    }

    method SetItem(key: string, value: Stored)
      modifies this
      ensures entries == old(entries)[key := value]
    {
      entries := entries[key := value];
    }

    method RemoveItem(key: string)
      modifies this
      ensures entries == old(entries) - {key}
    {
      entries := entries - {key};
    }
  }

  /**
   * `localStorage.getItem(key)` as the loaders test it with `if (stored)`: a
   * missing key (null) and the empty string both read as nothing.
   */
  function Present(entries: map<string, Stored>, key: string): Option<Stored>
  {
    if key in entries && entries[key] != EmptyText then Some(entries[key]) else None
  }
}
