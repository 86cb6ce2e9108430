/** The decoded shapes of the three JSON documents the bridge reads, and the
    decoders that produce them, which the model takes as parameters. */
module Payloads {
  import opened Influx

  datatype Option<+T> = None | Some(value: T)

  /** The outcome of `json.Unmarshal` into a Go struct: the struct, or an error
      for input that is not JSON or whose values do not fit the struct's field
      types. A key absent from the input is not an error: the field keeps its
      zero value inside `value`. */
  datatype Decoded<+T> = Ok(value: T) | Err

  /** The raw bytes of an MQTT message payload. */
  type Bytes = seq<bv8>

  /** The `MT681` object reported by the Tasmota smart-meter reader. */
  datatype MT681Reading = MT681Reading(
    totalIn: Float64,     // "Total_in"
    powerCur: Int64,      // "Power_cur"
    powerP1: Int64,       // "Power_p1"
    powerP2: Int64,       // "Power_p2"
    powerP3: Int64,       // "Power_p3"
    totalOut: Float64,    // "Total_out"
    meterId: string)      // "Meter_id"

  /** A Tasmota `tele/<device>/SENSOR` message. */
  datatype SensorPayload = SensorPayload(
    time: string,         // "Time"
    mt681: MT681Reading)  // "MT681"

  /** The `current_weather` object of the weather service's answer. */
  datatype CurrentWeather = CurrentWeather(
    temperature: Float64,
    windspeed: Float64,
    winddirection: Float64,
    weathercode: Int64,
    time: string)

  /** The weather service's answer. */
  datatype WeatherResponse = WeatherResponse(
    latitude: Float64,
    longitude: Float64,
    generationtimeMs: Float64,      // "generationtime_ms"
    utcOffsetSeconds: Int64,        // "utc_offset_seconds"
    timezone: string,
    timezoneAbbreviation: string,   // "timezone_abbreviation"
    elevation: Float64,
    currentWeather: CurrentWeather) // "current_weather"

  /** A Sonoff temperature/humidity sensor message relayed by zigbee2mqtt. */
  datatype SonoffTemperature = SonoffTemperature(
    battery: Float64,
    humidity: Float64,
    linkquality: Int64,
    temperature: Float64,
    voltage: Int64)

  /** `json.Unmarshal` at the two struct types the message handler decodes into. */
  datatype Json = Json(
    sensor: Bytes -> Decoded<SensorPayload>,
    sonoff: Bytes -> Decoded<SonoffTemperature>)
}
