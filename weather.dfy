/**
 * The decoded reply of the weather service and the `Weather` record the app
 * builds from it. Floating-point quantities are kept as opaque `real` values:
 * the record only moves them around, it never computes with them.
 */
module WeatherModel {

  /** The `coord` object of a reply. */
  datatype Coord = Coord(lon: real, lat: real)

  /** The `main` object of a reply: temperature in Kelvin, pressure in hPa, humidity in percent. */
  datatype Main = Main(temp: real, pressure: real, humidity: real)

  /** One entry of the reply's `weather` list; only its icon name is decoded. */
  datatype Condition = Condition(icon: string)

  /** The `wind` object of a reply. */
  datatype Wind = Wind(speed: real, deg: real)

  /** A decoded reply of the weather service. */
  datatype WeatherResponse = WeatherResponse(
    coord: Coord,
    main: Main,
    name: string,
    weather: seq<Condition>,
    wind: Wind,
    visibility: real)

  /** An image: either decoded from downloaded bytes, or an asset bundled with the app. */
  datatype Image = Decoded(data: seq<bv8>) | Asset(name: string)

  /** The record shown to the user. */
  datatype Weather = Weather(
    id: int,
    city: string,
    lat: real,
    lon: real,
    temp: real,
    pressure: real,
    humidity: real,
    windSpeed: real,
    windDeg: real,
    visibility: real,
    icon: Image)

  /** Every record carries the same fixed identifier. */
  const WeatherId: int := 0

  /** Builds the record from a reply and an already chosen icon. */
  function FromResponse(response: WeatherResponse, icon: Image): (w: Weather)
    ensures w.id == 0
    ensures w.city == response.name
    ensures w.lat == response.coord.lat && w.lon == response.coord.lon
    ensures w.temp == response.main.temp
    ensures w.pressure == response.main.pressure
    ensures w.humidity == response.main.humidity
    ensures w.windSpeed == response.wind.speed && w.windDeg == response.wind.deg
    ensures w.visibility == response.visibility
    ensures w.icon == icon
  {
    Weather(WeatherId, response.name, response.coord.lat, response.coord.lon,
            response.main.temp, response.main.pressure, response.main.humidity,
            response.wind.speed, response.wind.deg, response.visibility, icon)
  }

  /**
   * The reply a record came from, given the condition list the record drops.
   * It is the inverse of `FromResponse`, used to state that the projection
   * loses nothing but the condition list.
   */
  function ToResponse(w: Weather, conditions: seq<Condition>): (r: WeatherResponse)
    ensures r.weather == conditions
  {
    WeatherResponse(Coord(w.lon, w.lat), Main(w.temp, w.pressure, w.humidity),
                    w.city, conditions, Wind(w.windSpeed, w.windDeg), w.visibility)
  }

  /** Rebuilding the reply from its record gives the reply back. */
  lemma ResponseRoundTrip(response: WeatherResponse, icon: Image)
    ensures ToResponse(FromResponse(response, icon), response.weather) == response
  {
  }

  /** Every record with the fixed identifier is the projection of a reply. */
  lemma WeatherRoundTrip(w: Weather, conditions: seq<Condition>)
    requires w.id == WeatherId
    ensures FromResponse(ToResponse(w, conditions), w.icon) == w
  {
  }

  /**
   * Two records are equal exactly when the icons are equal and the replies
   * agree on everything except, possibly, their condition lists.
   */
  lemma FromResponseEqual(r1: WeatherResponse, i1: Image, r2: WeatherResponse, i2: Image)
    ensures FromResponse(r1, i1) == FromResponse(r2, i2) <==> i1 == i2 && r1.(weather := r2.weather) == r2
  {
  }
}
