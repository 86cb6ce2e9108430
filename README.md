# Tasmota / zigbee2mqtt → InfluxDB bridge, modelled in Dafny

The bridge (`main.go`) subscribes to MQTT messages from home-automation
devices and writes one InfluxDB point per message it recognises. It also
polls a weather service once a minute and writes the answer as a point.
Four process-wide counters record how many messages of each device were
written successfully.

This project models the part of `main.go` that makes decisions:

- **The message callback `onMessage`.** It matches the topic by exact string
  equality against four topics. Each topic selects a payload struct (MT681
  smart meter or Sonoff temperature sensor), a series label and one of four
  counters. The counter is incremented only when the send function returns
  nil. Every other topic is ignored.
- **The two send functions and the weather closure.** Each decodes, builds
  one point in a batch for database `db0`, and calls the client's `Write`.
  A decode failure returns an error before any write. An error from the HTTP
  client (transport or body decoding) or an error status from the weather
  service skips the cycle.
- **The three projections.** Each builds a point from a decoded struct: a
  fixed measurement, a fixed tag map, a field map with renamed keys, and
  "now" as the index time.

Modules:

- `Influx` (`influx.dfy`): field values, points, batches, and the record of
  one `Write` call.
- `Payloads` (`payloads.dfy`): the Go structs `SensorPayload`,
  `SonoffTemperature` and `WeatherResponse` as datatypes. Decoding is
  abstract: the `Json` record holds two total functions from payload bytes
  to `Ok(struct)` or `Err`.
- `Projection` (`projection.dfy`): the three field maps and points, with
  their exact key sets.
- `Dispatch` (`dispatch.dfy`): the route table, the send functions, the
  callback and the weather poll as functions on an abstract `State`. The
  state holds the four counters and the sequence of `Write` calls. Runs of
  events are also modelled here. The invariant `Consistent` says that each
  counter equals the number of points of its series that the database
  accepted. A series is a measurement plus a `counter` tag.
- `Bridge` (`bridge.dfy`): the class `Router`. It has the four counter
  fields and the `Write` record, and methods that follow `main.go` branch
  by branch. `OnMessage` and `FetchTemperature` are proved to produce the
  state their `Dispatch` functions give and to keep `Consistent`. The two
  send methods are proved to return what `Dispatch`'s send functions
  return and to leave the same `Write` record. `Write` stands for the
  database client's call and only appends to that record.

Inputs that come from outside become parameters:

- the decoder (`Json`);
- whether the database accepted a write (`writeOk`);
- the clock reading (`now`);
- what the HTTP client returned (`FetchOutcome`).

Go's `json.Unmarshal` leaves an absent key at its zero value and reports
success, so the model has no missing-field failure: `Err` stands only for
input that is not JSON or whose values do not fit the struct's field types.

## Model

| member | source | states |
|---|---|---|
| `Projection.SensorFields` | main.go:200-205 | MT681 field map has exactly the keys counter, totalIn, current, meterId; `Total_in` lands under totalIn, `Power_cur` under current, `Meter_id` under meterId, the series label under counter |
| `Projection.SensorPoint` | main.go:194-210 | MT681 point: measurement "MT681", tag map exactly {counter: label}, field map exactly `SensorFields` (the four keys with their renamed values), field counter equal to tag counter, index time equal to "now" |
| `Projection.SensorPointIgnoresOtherFields` | main.go:212-223 | the payload's `Time`, `Power_p1..3` and `Total_out` never influence the point |
| `Projection.TemperatureFields` | main.go:181-187 | Sonoff field map has exactly the keys counter, temperature, humidity, batteryf, voltage; `battery` is renamed batteryf |
| `Projection.TemperaturePoint` | main.go:175-192 | Sonoff point: measurement "TemperatureSensor", tag map exactly {counter: label}, field map exactly `TemperatureFields` (the five keys, `battery` under batteryf), field counter equal to tag counter, index time "now" |
| `Projection.TemperaturePointIgnoresLinkQuality` | main.go:242-248 | `linkquality` is dropped: changing it does not change the point |
| `Projection.WeatherFields` | main.go:112-118 | weather field map has exactly the keys temperature, windspeed, winddirection, weathercode, time, each from `current_weather` |
| `Projection.WeatherPoint` | main.go:109-122 | weather point: measurement "Temperature", tag map exactly {service: "https://open-meteo.com"}, no counter tag, field map exactly `WeatherFields` of `current_weather`, index time "now" (the service's own time is only a field) |
| `Projection.WeatherPointIgnoresLocation` | main.go:225-240 | only `current_weather` reaches the point; latitude, longitude, timezone and the rest do not |
| `Dispatch.RouteOf` | main.go:132-171 | a topic is routed iff it is one of the four exact topic strings; each route's payload kind and label are those of the series its counter counts |
| `Dispatch.EachCounterHasOneTopic` | main.go:133-166 | every counter is fed by some topic, and distinct routed topics feed distinct counters |
| `Dispatch.Increment` | main.go:138 | `Inc()` raises the chosen counter by one and changes nothing else |
| `Dispatch.SendSensorPayload` | main.go:194-210 | returns nil iff the payload decodes and the write succeeds; a decode failure makes no Write call; otherwise exactly one Write of a one-point `db0` batch holding the MT681 point |
| `Dispatch.SendTemperatureSensorPayload` | main.go:175-192 | the same gating for Sonoff payloads and the TemperatureSensor point |
| `Dispatch.SendWritesOwnSeries` | main.go:181-209 | a send writes iff the payload decodes; the batch has one point, and it belongs to the route's own series and to no other counter's series |
| `Dispatch.OnMessage` | main.go:130-173 | unknown topic: state unchanged; known topic: its counter rises by exactly 1 iff decode and write both succeed, every other counter is unchanged, no counter decreases, at most one Write call is appended |
| `Dispatch.ParseErrorChangesNothing` | main.go:195-199 | a payload that does not decode leaves counters and write record unchanged |
| `Dispatch.OnMessageKeepsConsistent` | main.go:136-166 | the callback keeps every counter equal to the number of accepted points of its series |
| `Dispatch.FetchTemperature` | main.go:94-127 | HTTP client error (transport or body decoding) or status ≥ 400: nothing written; otherwise exactly one Write of a one-point `db0` batch holding the weather point; no counter changes whatever the write returns |
| `Dispatch.FetchTemperatureKeepsConsistent` | main.go:120-126 | weather writes belong to no counter's series, so the poll keeps the counters consistent |
| `Dispatch.RunKeepsConsistent` | main.go:130-173 | along any sequence of messages and weather ticks, counters never decrease, the write record only grows, and counters stay consistent |
| `Dispatch.CountersCountStoredPoints` | main.go:21-38 | from process start, each counter equals the number of its series' points that the database accepted |
| `Dispatch.RedeliveryWritesTwice` | main.go:130-167 | delivering one message twice writes two points that differ only in index time and counts twice |
| `Bridge.Router.constructor` | main.go:21-38 | at start all four counters are zero and nothing is written |
| `Bridge.Router.Write` | main.go:209 | the client's Write appends one call to the record and returns its outcome |
| `Bridge.Router.SendSensorPayload` | main.go:194-210 | the method's result and new write record are those of `Dispatch.SendSensorPayload` |
| `Bridge.Router.SendTemperatureSensorPayload` | main.go:175-192 | the method's result and new write record are those of `Dispatch.SendTemperatureSensorPayload` |
| `Bridge.Router.OnMessage` | main.go:130-173 | the new counters and write record are those of `Dispatch.OnMessage`, and the consistency invariant is kept |
| `Bridge.Router.FetchTemperature` | main.go:92-127 | the new state is that of `Dispatch.FetchTemperature`, and the consistency invariant is kept |

## Left out

- MQTT client setup, connection and the `tele/#` and `zigbee2mqtt/#` subscriptions (main.go:70-87): bus-library I/O. Wildcard matching happens in the library; the model starts at the callback.
- InfluxDB client construction (main.go:47-51) and the network behaviour of `Write`: a foreign client. The write is a boolean outcome, recorded with its batch.
- The errors ignored from `influx.NewPoint` and `NewBatchPoints` (main.go:120-121, 188-189, 206-207): library internals. The model assumes both succeed.
- `encoding/json` and resty's body decoding (main.go:96, 177, 196): foreign parsers. They are the abstract `Json` functions and the `FetchOutcome` parameter.
- Dispatch.IsErrorStatus: stands for resty's `IsError`, taken as a status code of 400 or above; resty itself is not part of this model.
- Cron scheduling (`@every 1m`) and the first call at start (main.go:54-64): timer plumbing. Each tick is a `WeatherTick` event.
- The HTTP fetch and its 5-second timeout (main.go:58-59, 95-97): network I/O.
- Prometheus registration, metric names and the `/metrics` endpoint (main.go:21-38, 88-89). The counters are plain naturals, not float64 Prometheus counters.
- Flag parsing, the client-id choice (main.go:41-45, 65-68) and all logrus logging: configuration and output only.
- Float and integer field values: copied verbatim with no arithmetic. A float64 is kept as its bit pattern, and Go's `int` as a 64-bit integer type.
- Concurrent invocation of the callback by the MQTT library: the model runs messages one at a time.
