/** The running bridge: the four process-wide event counters, the database
    client's record of Write calls, the MQTT message callback and the weather
    poll, each proved to follow its function in module Dispatch. */
module Bridge {
  import opened Influx
  import opened Payloads
  import opened Projection
  import opened Dispatch

  class Router {
    var powerEventsReceived: nat
    var heatingEventsReceived: nat
    var heatingSonoffEventsReceived: nat
    var livingRoomSonoffEventsReceived: nat
    /** Every call of the database client's Write, in order, with its outcome. */
    var sink: seq<WriteCall>

    /** The abstract value of the object. */
    function Snapshot(): State
      reads this
    {
      State(powerEventsReceived, heatingEventsReceived, heatingSonoffEventsReceived,
            livingRoomSonoffEventsReceived, sink)
    }

    /** Each counter equals the number of stored points of its series. */
    ghost predicate Valid()
      reads this
    {
      Consistent(Snapshot())
    }

    /** Process start: all counters zero, nothing written. */
    constructor ()
      ensures Valid() && Snapshot() == Initial
    {
      powerEventsReceived, heatingEventsReceived := 0, 0;
      heatingSonoffEventsReceived, livingRoomSonoffEventsReceived := 0, 0;
      sink := [];
    }

    /** The database client's Write: record the call; `ok` is its nil error. */
    method Write(batch: Batch, writeOk: bool) returns (ok: bool)
      modifies this`sink
      ensures sink == old(sink) + [WriteCall(batch, writeOk)]
      ensures ok == writeOk
    {
      sink := sink + [WriteCall(batch, writeOk)];
      ok := writeOk;
    }

    /** `sendSensorPayload`. */
    method SendSensorPayload(counter: string, payload: Bytes, json: Json, now: Timestamp, writeOk: bool)
      returns (ok: bool)
      modifies this`sink
      ensures var r := Dispatch.SendSensorPayload(counter, payload, json.sensor, now, writeOk);
        ok == r.ok && sink == Logged(old(sink), r)
    {
      var decoded := json.sensor(payload);
      if decoded.Err? {
        return false;
      }
      var p := SensorPoint(counter, decoded.value, now);
      ok := Write(SingleBatch(p), writeOk);
    }

    /** `sendTemperatureSensorPayload`. */
    method SendTemperatureSensorPayload(counter: string, payload: Bytes, json: Json, now: Timestamp, writeOk: bool)
      returns (ok: bool)
      modifies this`sink
      ensures var r := Dispatch.SendTemperatureSensorPayload(counter, payload, json.sonoff, now, writeOk);
        ok == r.ok && sink == Logged(old(sink), r)
    {
      var decoded := json.sonoff(payload);
      if decoded.Err? {
        return false;
      }
      var p := TemperaturePoint(counter, decoded.value, now);
      ok := Write(SingleBatch(p), writeOk);
    }

    /** The MQTT message callback `onMessage`. */
    method OnMessage(topic: string, payload: Bytes, json: Json, now: Timestamp, writeOk: bool)
      requires Valid()
      modifies this
      ensures Valid()
      ensures Snapshot() == Dispatch.OnMessage(old(Snapshot()), topic, payload, json, now, writeOk)
    {
      OnMessageKeepsConsistent(Snapshot(), topic, payload, json, now, writeOk);
      if topic == PowerTopic {
        var ok := SendSensorPayload("Power", payload, json, now, writeOk);
        if ok {
          powerEventsReceived := powerEventsReceived + 1;
        }
      } else if topic == HeatingTopic {
        var ok := SendSensorPayload("Heating", payload, json, now, writeOk);
        if ok {
          heatingEventsReceived := heatingEventsReceived + 1;
        }
      } else if topic == HeatingSonoffTopic {
        var ok := SendTemperatureSensorPayload("Heating", payload, json, now, writeOk);
        if ok {
          heatingSonoffEventsReceived := heatingSonoffEventsReceived + 1;
        }
      } else if topic == LivingRoomSonoffTopic {
        var ok := SendTemperatureSensorPayload("LivingRoom", payload, json, now, writeOk);
        if ok {
          livingRoomSonoffEventsReceived := livingRoomSonoffEventsReceived + 1;
        }
      }
    }

    /** The closure returned by `getTemparatureFunc`, run once at start and on
        every timer tick. */
    method FetchTemperature(fetch: FetchOutcome, now: Timestamp, writeOk: bool)
      requires Valid()
      modifies this
      ensures Valid()
      ensures Snapshot() == Dispatch.FetchTemperature(old(Snapshot()), fetch, now, writeOk)
    {
      FetchTemperatureKeepsConsistent(Snapshot(), fetch, now, writeOk);
      if fetch.FetchFailed? {
        return;
      }
      if IsErrorStatus(fetch.statusCode) {
        return;
      }
      var p := WeatherPoint(fetch.result, now);
      var _ := Write(SingleBatch(p), writeOk);
    }
  }
}
