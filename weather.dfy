/**
 * The weather-city store (src/stores/weather.ts): the city saved as the
 * default for the weather lookup, or none, kept under "weather_store_city".
 */
module Weather {
  import opened Wrappers
  import opened Types
  import opened Storage

  const CityKey: string := "weather_store_city"

  /**
   * `loadState()`: the city stored under "weather_store_city"; none when the key
   * is missing, holds the empty string, or its text does not parse.
   */
  function LoadState(entries: map<string, Stored>): Option<CityData> {
    match Present(entries, CityKey)
    case Some(StoredCity(city)) => Some(city)
    case _ => None
  }

  /** `saveState(city)`: a city is written under the key, none removes the key; no other key is touched. */
  method SaveState(storage: LocalStorage, city: Option<CityData>)
    modifies storage
    ensures storage.entries ==
      match city
      case Some(c) => old(storage.entries)[CityKey := StoredCity(c)]
      case None => old(storage.entries) - {CityKey}
    ensures LoadState(storage.entries) == city
  {
    match city
    case Some(c) => storage.SetItem(CityKey, StoredCity(c));
    case None => storage.RemoveItem(CityKey);
  }

  /** A missing key, an empty string and unparseable text all load as no city. */
  lemma LoadFallback(entries: map<string, Stored>)
    requires CityKey !in entries || entries[CityKey] == EmptyText || entries[CityKey] == Corrupt
    ensures LoadState(entries).None?
  {
  }

  /** Every key other than "weather_store_city" is the same after a save. */
  lemma SaveTouchesOnlyCityKey(entries: map<string, Stored>, city: Option<CityData>, key: string)
    requires key != CityKey
    ensures var after := match city
      case Some(c) => entries[CityKey := StoredCity(c)]
      case None => entries - {CityKey};
      (key in after <==> key in entries) && (key in entries ==> after[key] == entries[key])
  {
  }

  class WeatherStore {
    var savedCity: Option<CityData>
    const storage: LocalStorage

    /** Store creation: `state: loadState`. */
    constructor (storage: LocalStorage)
      ensures this.storage == storage
      ensures savedCity == LoadState(storage.entries)
    {
      this.storage := storage;
      savedCity := LoadState(storage.entries);
    }

    /** The `getSavedCity` getter. */
    function GetSavedCity(): Option<CityData>
      reads this
    {
      savedCity
    }

    /**
     * `saveWeatherCity(city)`: the state and the storage key both take the new
     * value, so a fresh store loaded from storage starts with the same city.
     */
    method SaveWeatherCity(city: Option<CityData>)
      modifies this, storage
      ensures GetSavedCity() == city
      ensures storage.entries ==
        match city
        case Some(c) => old(storage.entries)[CityKey := StoredCity(c)]
        case None => old(storage.entries) - {CityKey}
      ensures LoadState(storage.entries) == city
    {
      savedCity := city;
      SaveState(storage, city);
    }
  }

  /** Saving and then creating the store again from the same storage gives back the saved city. */
  method SaveThenReload(store: WeatherStore, city: Option<CityData>) returns (reloaded: WeatherStore)
    modifies store, store.storage
    ensures reloaded.GetSavedCity() == city
  {
    store.SaveWeatherCity(city);
    reloaded := new WeatherStore(store.storage);
  }
}
