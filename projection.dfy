/** The three projections from a decoded payload to the point the bridge writes:
    fixed measurement, fixed tag map, renamed fields, and "now" as index time. */
module Projection {
  import opened Influx
  import opened Payloads

  const CounterTag: string := "counter"
  const ServiceTag: string := "service"
  const WeatherService: string := "https://open-meteo.com"

  const MeterMeasurement: string := "MT681"
  const SonoffMeasurement: string := "TemperatureSensor"
  const WeatherMeasurement: string := "Temperature"

  /** Output field names of each projection. */
  const SensorFieldKeys: set<string> := {"counter", "totalIn", "current", "meterId"}
  const TemperatureFieldKeys: set<string> := {"counter", "temperature", "humidity", "batteryf", "voltage"}
  const WeatherFieldKeys: set<string> := {"temperature", "windspeed", "winddirection", "weathercode", "time"}

  /** The tag map of a counter-labelled point. */
  function CounterTags(counter: string): map<string, string>
  {
    map[CounterTag := counter]
  }

  /** Whether a point belongs to the series `measurement` / counter tag `seriesTag`. */
  predicate InSeries(p: Point, measurement: string, seriesTag: string)
  {
    p.measurement == measurement && CounterTag in p.tags && p.tags[CounterTag] == seriesTag
  }

  // ---------------------------------------------------------------------------
  // Tasmota MT681 smart meter

  /** The field map of an MT681 point: the series tag plus three of the
      meter's values under new names. */
  function SensorFields(counter: string, sensor: SensorPayload): (fields: map<string, FieldValue>)
    ensures fields.Keys == SensorFieldKeys
    ensures fields["counter"] == StringField(counter)
    ensures fields["totalIn"] == FloatField(sensor.mt681.totalIn)
    ensures fields["current"] == IntField(sensor.mt681.powerCur)
    ensures fields["meterId"] == StringField(sensor.mt681.meterId)
  {
    map[
      "counter" := StringField(counter),
      "totalIn" := FloatField(sensor.mt681.totalIn),
      "current" := IntField(sensor.mt681.powerCur),
      "meterId" := StringField(sensor.mt681.meterId)]
  }

  /** The point written for an MT681 message. */
  function SensorPoint(counter: string, sensor: SensorPayload, now: Timestamp): (p: Point)
    ensures p.measurement == MeterMeasurement
    ensures p.tags.Keys == {CounterTag} && InSeries(p, MeterMeasurement, counter)
    ensures p.fields.Keys == SensorFieldKeys
    ensures p.fields == SensorFields(counter, sensor)
    ensures p.fields["counter"] == StringField(p.tags[CounterTag])
    ensures p.time == now
  {
    Point(MeterMeasurement, CounterTags(counter), SensorFields(counter, sensor), now)
  }

  /** The payload's own `Time`, the per-phase powers and `Total_out` never
      reach the point: two payloads that agree on `Total_in`, `Power_cur` and
      `Meter_id` give the same point. */
  lemma SensorPointIgnoresOtherFields(counter: string, a: SensorPayload, b: SensorPayload, now: Timestamp)
    requires a.mt681.totalIn == b.mt681.totalIn
    requires a.mt681.powerCur == b.mt681.powerCur
    requires a.mt681.meterId == b.mt681.meterId
    ensures SensorPoint(counter, a, now) == SensorPoint(counter, b, now)
  {
  }

  // ---------------------------------------------------------------------------
  // Sonoff temperature sensor

  /** The field map of a Sonoff point: the series tag plus four of the
      sensor's values, `battery` renamed to `batteryf`. */
  function TemperatureFields(counter: string, sensor: SonoffTemperature): (fields: map<string, FieldValue>)
    ensures fields.Keys == TemperatureFieldKeys
    ensures fields["counter"] == StringField(counter)
    ensures fields["temperature"] == FloatField(sensor.temperature)
    ensures fields["humidity"] == FloatField(sensor.humidity)
    ensures fields["batteryf"] == FloatField(sensor.battery)
    ensures fields["voltage"] == IntField(sensor.voltage)
  {
    map[
      "counter" := StringField(counter),
      "temperature" := FloatField(sensor.temperature),
      "humidity" := FloatField(sensor.humidity),
      "batteryf" := FloatField(sensor.battery),
      "voltage" := IntField(sensor.voltage)]
  }

  /** The point written for a Sonoff message. */
  function TemperaturePoint(counter: string, sensor: SonoffTemperature, now: Timestamp): (p: Point)
    ensures p.measurement == SonoffMeasurement
    ensures p.tags.Keys == {CounterTag} && InSeries(p, SonoffMeasurement, counter)
    ensures p.fields.Keys == TemperatureFieldKeys
    ensures p.fields == TemperatureFields(counter, sensor)
    ensures p.fields["counter"] == StringField(p.tags[CounterTag])
    ensures p.time == now
  {
    Point(SonoffMeasurement, CounterTags(counter), TemperatureFields(counter, sensor), now)
  }

  /** `linkquality` never reaches the point. */
  lemma TemperaturePointIgnoresLinkQuality(counter: string, a: SonoffTemperature, now: Timestamp, lq: Int64)
    ensures TemperaturePoint(counter, a, now) == TemperaturePoint(counter, a.(linkquality := lq), now)
  {
  }

  // ---------------------------------------------------------------------------
  // Weather service

  /** The field map of a weather point: the five values of `current_weather`
      under their JSON names. */
  function WeatherFields(w: CurrentWeather): (fields: map<string, FieldValue>)
    ensures fields.Keys == WeatherFieldKeys
    ensures fields["temperature"] == FloatField(w.temperature)
    ensures fields["windspeed"] == FloatField(w.windspeed)
    ensures fields["winddirection"] == FloatField(w.winddirection)
    ensures fields["weathercode"] == IntField(w.weathercode)
    ensures fields["time"] == StringField(w.time)
  {
    map[
      "temperature" := FloatField(w.temperature),
      "windspeed" := FloatField(w.windspeed),
      "winddirection" := FloatField(w.winddirection),
      "weathercode" := IntField(w.weathercode),
      "time" := StringField(w.time)]
  }

  /** The point written for a weather answer. The service's own `time` is kept
      as a string field; the point's index time is "now". */
  function WeatherPoint(w: WeatherResponse, now: Timestamp): (p: Point)
    ensures p.measurement == WeatherMeasurement
    ensures p.tags.Keys == {ServiceTag} && p.tags[ServiceTag] == WeatherService
    ensures CounterTag !in p.tags
    ensures p.fields.Keys == WeatherFieldKeys
    ensures p.fields == WeatherFields(w.currentWeather)
    ensures p.time == now
  {
    Point(WeatherMeasurement, map[ServiceTag := WeatherService], WeatherFields(w.currentWeather), now)
  }

  /** Only `current_weather` reaches the point. */
  lemma WeatherPointIgnoresLocation(a: WeatherResponse, b: WeatherResponse, now: Timestamp)
    requires a.currentWeather == b.currentWeather
    ensures WeatherPoint(a, now) == WeatherPoint(b, now)
  {
  }
}
