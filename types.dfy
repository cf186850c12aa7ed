/** The data shapes shared by the stores (src/stores/types.ts). */
module Types {

  datatype Theme = Light | Dark

  datatype Locale = En | Fa

  /** The single persisted user profile. */
  datatype UserSettings = UserSettings(name: string, theme: Theme, locale: Locale)

  /** A todo entry as plain data: what a list item holds and what storage keeps. */
  datatype TodoRecord = TodoRecord(id: int, text: string, isDone: bool)

  /**
   * A coordinate of a city, an opaque value standing for the JavaScript number.
   * The store only passes it through and never interprets it.
   */
  datatype Coordinate = Coordinate(value: string)

  datatype CityData = CityData(nameEn: string, nameFa: string, latitude: Coordinate, longitude: Coordinate)
}
