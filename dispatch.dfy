/** The message handler and the weather poll as functions on an abstract state:
    four event counters and the record of every call of the database client's
    Write. The class in module Bridge is proved to follow these functions. */
module Dispatch {
  import opened Influx
  import opened Payloads
  import opened Projection

  // ---------------------------------------------------------------------------
  // The dispatch table

  /** The four process-wide event counters. */
  datatype CounterId = PowerEvents | HeatingEvents | HeatingSonoffEvents | LivingRoomSonoffEvents

  /** Which struct a topic's payload is decoded into. */
  datatype PayloadKind = MeterPayload | SonoffPayload

  /** What a handled topic selects: payload kind, series tag, counter. */
  datatype Route = Route(kind: PayloadKind, seriesTag: string, counter: CounterId)

  const PowerTopic: string := "tele/tasmota_FA2642/SENSOR"
  const HeatingTopic: string := "tele/tasmota_5BEF46/SENSOR"
  const HeatingSonoffTopic: string := "zigbee2mqtt/0x00124b0029103793"
  const LivingRoomSonoffTopic: string := "zigbee2mqtt/0x00124b00291037a4"

  /** The topics the handler acts on; every other topic is ignored. */
  const Topics: set<string> := {PowerTopic, HeatingTopic, HeatingSonoffTopic, LivingRoomSonoffTopic}

  /** The measurement a payload kind is written to. */
  function KindMeasurement(kind: PayloadKind): string
  {
    match kind
    case MeterPayload => MeterMeasurement
    case SonoffPayload => SonoffMeasurement
  }

  /** The series a counter counts: its measurement and its `counter` tag. */
  function SeriesMeasurement(c: CounterId): string
  {
    match c
    case PowerEvents => MeterMeasurement
    case HeatingEvents => MeterMeasurement
    case HeatingSonoffEvents => SonoffMeasurement
    case LivingRoomSonoffEvents => SonoffMeasurement
  }

  function SeriesLabel(c: CounterId): string
  {
    match c
    case PowerEvents => "Power"
    case HeatingEvents => "Heating"
    case HeatingSonoffEvents => "Heating"
    case LivingRoomSonoffEvents => "LivingRoom"
  }

  /** The topic switch of the message handler, by exact string equality. */
  function RouteOf(topic: string): (r: Option<Route>)
    ensures r.Some? <==> topic in Topics
    ensures r.Some? ==> KindMeasurement(r.value.kind) == SeriesMeasurement(r.value.counter)
    ensures r.Some? ==> r.value.seriesTag == SeriesLabel(r.value.counter)
  {
    if topic == PowerTopic then Some(Route(MeterPayload, "Power", PowerEvents))
    else if topic == HeatingTopic then Some(Route(MeterPayload, "Heating", HeatingEvents))
    else if topic == HeatingSonoffTopic then Some(Route(SonoffPayload, "Heating", HeatingSonoffEvents))
    else if topic == LivingRoomSonoffTopic then Some(Route(SonoffPayload, "LivingRoom", LivingRoomSonoffEvents))
    else None
  }

  /** Every counter is fed by exactly one topic. */
  lemma EachCounterHasOneTopic(c: CounterId)
    ensures exists t :: t in Topics && RouteOf(t).Some? && RouteOf(t).value.counter == c
    ensures forall t1, t2 :: RouteOf(t1).Some? && RouteOf(t2).Some? && t1 != t2 ==>
      RouteOf(t1).value.counter != RouteOf(t2).value.counter
  {
  }

  // ---------------------------------------------------------------------------
  // State: counters and the write record

  datatype State = State(
    powerEvents: nat,
    heatingEvents: nat,
    heatingSonoffEvents: nat,
    livingRoomSonoffEvents: nat,
    writes: seq<WriteCall>)

  /** The state at process start. */
  const Initial: State := State(0, 0, 0, 0, [])

  function Count(s: State, c: CounterId): nat
  {
    match c
    case PowerEvents => s.powerEvents
    case HeatingEvents => s.heatingEvents
    case HeatingSonoffEvents => s.heatingSonoffEvents
    case LivingRoomSonoffEvents => s.livingRoomSonoffEvents
  }

  /** A counter's `Inc()`: that counter rises by one, nothing else changes. */
  function Increment(s: State, c: CounterId): (s': State)
    ensures Count(s', c) == Count(s, c) + 1
    ensures forall d :: d != c ==> Count(s', d) == Count(s, d)
    ensures s'.writes == s.writes
  {
    match c
    case PowerEvents => s.(powerEvents := s.powerEvents + 1)
    case HeatingEvents => s.(heatingEvents := s.heatingEvents + 1)
    case HeatingSonoffEvents => s.(heatingSonoffEvents := s.heatingSonoffEvents + 1)
    case LivingRoomSonoffEvents => s.(livingRoomSonoffEvents := s.livingRoomSonoffEvents + 1)
  }

  /** The points the database accepted: those of the successful Write calls, in order. */
  function Stored(ws: seq<WriteCall>): seq<Point>
  {
    if ws == [] then []
    else (if ws[0].succeeded then ws[0].batch.points else []) + Stored(ws[1..])
  }

  /** How many of `ps` belong to a series. */
  function CountSeries(ps: seq<Point>, measurement: string, seriesTag: string): nat
  {
    if ps == [] then 0
    else (if InSeries(ps[0], measurement, seriesTag) then 1 else 0) + CountSeries(ps[1..], measurement, seriesTag)
  }

  /** Each counter equals the number of stored points of its series: it counts
      confirmed writes, never attempts. */
  ghost predicate Consistent(s: State)
  {
    forall c :: Count(s, c) == CountSeries(Stored(s.writes), SeriesMeasurement(c), SeriesLabel(c))
  }

  lemma {:induction false} StoredAppend(ws: seq<WriteCall>, w: WriteCall)
    ensures Stored(ws + [w]) == Stored(ws) + (if w.succeeded then w.batch.points else [])
  {
    if ws == [] {
      assert ws + [w] == [w];
      assert Stored([w][1..]) == [];
    } else {
      assert (ws + [w])[1..] == ws[1..] + [w];
      StoredAppend(ws[1..], w);
    }
  }

  lemma {:induction false} CountSeriesConcat(a: seq<Point>, b: seq<Point>, measurement: string, seriesTag: string)
    ensures CountSeries(a + b, measurement, seriesTag) == CountSeries(a, measurement, seriesTag) + CountSeries(b, measurement, seriesTag)
  {
    if a == [] {
      assert a + b == b;
    } else {
      assert (a + b)[1..] == a[1..] + b;
      CountSeriesConcat(a[1..], b, measurement, seriesTag);
    }
  }

  /** Appending one Write call adds to each series the points of that call's
      batch, if it succeeded. */
  lemma SeriesAfterWrite(ws: seq<WriteCall>, w: WriteCall, measurement: string, seriesTag: string)
    ensures CountSeries(Stored(ws + [w]), measurement, seriesTag)
         == CountSeries(Stored(ws), measurement, seriesTag)
          + (if w.succeeded then CountSeries(w.batch.points, measurement, seriesTag) else 0)
  {
    StoredAppend(ws, w);
    CountSeriesConcat(Stored(ws), if w.succeeded then w.batch.points else [], measurement, seriesTag);
  }

  // ---------------------------------------------------------------------------
  // The two send functions

  /** The result of a send function: the Write call it made, if any, and
      whether it returned nil. */
  datatype SendResult = SendResult(call: Option<WriteCall>, ok: bool)

  /** The write record after a send. */
  function Logged(ws: seq<WriteCall>, r: SendResult): seq<WriteCall>
  {
    match r.call
    case None => ws
    case Some(w) => ws + [w]
  }

  /** `sendSensorPayload`: decode an MT681 message; on failure return an error
      without writing; otherwise write the one-point batch and return the
      client's answer. */
  function SendSensorPayload(counter: string, payload: Bytes, unmarshal: Bytes -> Decoded<SensorPayload>,
                             now: Timestamp, writeOk: bool): (r: SendResult)
    ensures r.ok <==> unmarshal(payload).Ok? && writeOk
    ensures r.call.None? <==> unmarshal(payload).Err?
    ensures r.call.Some? ==> r.call.value.succeeded == r.ok
    ensures r.call.Some? ==> r.call.value.batch == SingleBatch(SensorPoint(counter, unmarshal(payload).value, now))
  {
    match unmarshal(payload)
    case Err => SendResult(None, false)
    case Ok(sensor) => SendResult(Some(WriteCall(SingleBatch(SensorPoint(counter, sensor, now)), writeOk)), writeOk)
  }

  /** `sendTemperatureSensorPayload`: the same for a Sonoff message. */
  function SendTemperatureSensorPayload(counter: string, payload: Bytes, unmarshal: Bytes -> Decoded<SonoffTemperature>,
                                        now: Timestamp, writeOk: bool): (r: SendResult)
    ensures r.ok <==> unmarshal(payload).Ok? && writeOk
    ensures r.call.None? <==> unmarshal(payload).Err?
    ensures r.call.Some? ==> r.call.value.succeeded == r.ok
    ensures r.call.Some? ==> r.call.value.batch == SingleBatch(TemperaturePoint(counter, unmarshal(payload).value, now))
  {
    match unmarshal(payload)
    case Err => SendResult(None, false)
    case Ok(sensor) => SendResult(Some(WriteCall(SingleBatch(TemperaturePoint(counter, sensor, now)), writeOk)), writeOk)
  }

  /** The send function a route selects. */
  function Send(route: Route, payload: Bytes, json: Json, now: Timestamp, writeOk: bool): SendResult
  {
    match route.kind
    case MeterPayload => SendSensorPayload(route.seriesTag, payload, json.sensor, now, writeOk)
    case SonoffPayload => SendTemperatureSensorPayload(route.seriesTag, payload, json.sonoff, now, writeOk)
  }

  /** Whether the payload decodes into the struct of a payload kind. */
  predicate Decodes(kind: PayloadKind, payload: Bytes, json: Json)
  {
    match kind
    case MeterPayload => json.sensor(payload).Ok?
    case SonoffPayload => json.sonoff(payload).Ok?
  }

  /** A successful send writes exactly one point, of the route's own series. */
  lemma SendWritesOwnSeries(route: Route, payload: Bytes, json: Json, now: Timestamp, writeOk: bool, c: CounterId)
    requires KindMeasurement(route.kind) == SeriesMeasurement(route.counter)
    requires route.seriesTag == SeriesLabel(route.counter)
    ensures var r := Send(route, payload, json, now, writeOk);
      r.call.Some? <==> Decodes(route.kind, payload, json)
    ensures var r := Send(route, payload, json, now, writeOk);
      r.call.Some? ==>
        |r.call.value.batch.points| == 1 &&
        CountSeries(r.call.value.batch.points, SeriesMeasurement(c), SeriesLabel(c)) == (if c == route.counter then 1 else 0)
  {
  }

  // ---------------------------------------------------------------------------
  // The message handler

  /** `onMessage`: route the topic; for a handled topic run its send function
      and increment its counter exactly when the send returned nil. */
  function OnMessage(s: State, topic: string, payload: Bytes, json: Json, now: Timestamp, writeOk: bool): (s': State)
    ensures topic !in Topics ==> s' == s
    ensures topic in Topics ==>
      var route := RouteOf(topic).value;
      var sent := Send(route, payload, json, now, writeOk);
      && s'.writes == Logged(s.writes, sent)
      && Count(s', route.counter) == Count(s, route.counter) + (if sent.ok then 1 else 0)
      && (sent.ok <==> Decodes(route.kind, payload, json) && writeOk)
    ensures forall c :: (topic !in Topics || c != RouteOf(topic).value.counter) ==> Count(s', c) == Count(s, c)
    ensures forall c :: Count(s, c) <= Count(s', c)
    ensures s.writes <= s'.writes && |s'.writes| <= |s.writes| + 1
  {
    match RouteOf(topic)
    case None => s
    case Some(route) =>
      var sent := Send(route, payload, json, now, writeOk);
      var logged := s.(writes := Logged(s.writes, sent));
      if sent.ok then Increment(logged, route.counter) else logged
  }

  /** A payload that does not decode is never written and changes no counter. */
  lemma ParseErrorChangesNothing(s: State, topic: string, payload: Bytes, json: Json, now: Timestamp, writeOk: bool)
    requires topic in Topics && !Decodes(RouteOf(topic).value.kind, payload, json)
    ensures OnMessage(s, topic, payload, json, now, writeOk) == s
  {
  }

  /** The handler keeps every counter equal to the stored points of its series. */
  lemma OnMessageKeepsConsistent(s: State, topic: string, payload: Bytes, json: Json, now: Timestamp, writeOk: bool)
    requires Consistent(s)
    ensures Consistent(OnMessage(s, topic, payload, json, now, writeOk))
  {
    var s' := OnMessage(s, topic, payload, json, now, writeOk);
    if topic in Topics {
      var route := RouteOf(topic).value;
      var sent := Send(route, payload, json, now, writeOk);
      forall c
        ensures Count(s', c) == CountSeries(Stored(s'.writes), SeriesMeasurement(c), SeriesLabel(c))
      {
        SendWritesOwnSeries(route, payload, json, now, writeOk, c);
        if sent.call.Some? {
          SeriesAfterWrite(s.writes, sent.call.value, SeriesMeasurement(c), SeriesLabel(c));
        }
      }
    }
  }

  // ---------------------------------------------------------------------------
  // The weather poll

  /** What the HTTP client returned: an error (transport or body decoding), or
      a status code with the decoded body (the zero struct when nothing was
      decoded). */
  datatype FetchOutcome = FetchFailed | Fetched(statusCode: int, result: WeatherResponse)

  /** The HTTP client's classification of a response as an error: status 400 or above. */
  predicate IsErrorStatus(statusCode: int)
  {
    statusCode > 399
  }

  /** One run of the weather poll: skip the cycle on a transport error or an
      error status, otherwise write one weather point; the Write's error is
      only logged and no counter is touched. */
  function FetchTemperature(s: State, fetch: FetchOutcome, now: Timestamp, writeOk: bool): (s': State)
    ensures forall c :: Count(s', c) == Count(s, c)
    ensures fetch.FetchFailed? || IsErrorStatus(fetch.statusCode) ==> s' == s
    ensures fetch.Fetched? && !IsErrorStatus(fetch.statusCode) ==>
      s'.writes == s.writes + [WriteCall(SingleBatch(WeatherPoint(fetch.result, now)), writeOk)]
  {
    match fetch
    case FetchFailed => s
    case Fetched(code, weather) =>
      if IsErrorStatus(code) then s
      else s.(writes := s.writes + [WriteCall(SingleBatch(WeatherPoint(weather, now)), writeOk)])
  }

  /** Weather points belong to no counter's series, so the poll keeps the counters consistent. */
  lemma FetchTemperatureKeepsConsistent(s: State, fetch: FetchOutcome, now: Timestamp, writeOk: bool)
    requires Consistent(s)
    ensures Consistent(FetchTemperature(s, fetch, now, writeOk))
  {
    if fetch.Fetched? && !IsErrorStatus(fetch.statusCode) {
      var w := WriteCall(SingleBatch(WeatherPoint(fetch.result, now)), writeOk);
      forall c
        ensures CountSeries(Stored(s.writes + [w]), SeriesMeasurement(c), SeriesLabel(c))
             == CountSeries(Stored(s.writes), SeriesMeasurement(c), SeriesLabel(c))
      {
        SeriesAfterWrite(s.writes, w, SeriesMeasurement(c), SeriesLabel(c));
        assert w.batch.points[1..] == [];
      }
    }
  }

  // ---------------------------------------------------------------------------
  // Runs of the process

  /** An input to the process: an MQTT message or a tick of the weather timer,
      each with the clock reading and the database's answer. */
  datatype Event =
    | Message(topic: string, payload: Bytes, now: Timestamp, writeOk: bool)
    | WeatherTick(fetch: FetchOutcome, now: Timestamp, writeOk: bool)

  function Step(s: State, json: Json, e: Event): State
  {
    match e
    case Message(topic, payload, now, writeOk) => OnMessage(s, topic, payload, json, now, writeOk)
    case WeatherTick(fetch, now, writeOk) => FetchTemperature(s, fetch, now, writeOk)
  }

  function Run(s: State, json: Json, events: seq<Event>): State
    decreases |events|
  {
    if events == [] then s else Run(Step(s, json, events[0]), json, events[1..])
  }

  /** Along any run, counters never decrease, the write record only grows, and
      every counter stays equal to the stored points of its series. */
  lemma {:induction false} RunKeepsConsistent(s: State, json: Json, events: seq<Event>)
    requires Consistent(s)
    ensures Consistent(Run(s, json, events))
    ensures forall c :: Count(s, c) <= Count(Run(s, json, events), c)
    ensures s.writes <= Run(s, json, events).writes
    decreases |events|
  {
    if events != [] {
      var s1 := Step(s, json, events[0]);
      match events[0] {
        case Message(topic, payload, now, writeOk) => OnMessageKeepsConsistent(s, topic, payload, json, now, writeOk);
        case WeatherTick(fetch, now, writeOk) => FetchTemperatureKeepsConsistent(s, fetch, now, writeOk);
      }
      RunKeepsConsistent(s1, json, events[1..]);
    }
  }

  /** From process start, each counter is the number of its series' points the
      database accepted. */
  lemma CountersCountStoredPoints(json: Json, events: seq<Event>, c: CounterId)
    ensures Count(Run(Initial, json, events), c)
         == CountSeries(Stored(Run(Initial, json, events).writes), SeriesMeasurement(c), SeriesLabel(c))
  {
    assert Consistent(Initial);
    RunKeepsConsistent(Initial, json, events);
  }

  /** Delivering the same message twice writes two points that differ only in
      their index time, and counts twice: the handler is not idempotent. */
  lemma RedeliveryWritesTwice(s: State, topic: string, payload: Bytes, json: Json, t1: Timestamp, t2: Timestamp)
    requires topic in Topics && Decodes(RouteOf(topic).value.kind, payload, json)
    ensures var s2 := OnMessage(OnMessage(s, topic, payload, json, t1, true), topic, payload, json, t2, true);
      |s2.writes| == |s.writes| + 2 &&
      Count(s2, RouteOf(topic).value.counter) == Count(s, RouteOf(topic).value.counter) + 2
    ensures var s2 := OnMessage(OnMessage(s, topic, payload, json, t1, true), topic, payload, json, t2, true);
      var p1, p2 := s2.writes[|s.writes|].batch.points[0], s2.writes[|s.writes| + 1].batch.points[0];
      p1.time == t1 && p2.time == t2 && p1 == p2.(time := t1)
  {
  }
}
