/** Points and batches as the bridge hands them to the InfluxDB 1.x client. */
module Influx {

  /** A Go float64, kept as its bit pattern: the bridge copies such values
      from a payload into a point and never computes with them. */
  datatype Float64 = Float64(bits: bv64)

  /** Go's `int` on a 64-bit platform. */
  newtype Int64 = x: int | -0x8000_0000_0000_0000 <= x < 0x8000_0000_0000_0000

  /** The wall-clock instant at which a point is built (nanoseconds since the epoch). */
  type Timestamp = int

  /** The dynamic type of a value in a point's field map. */
  datatype FieldValue = FloatField(f: Float64) | IntField(i: Int64) | StringField(s: string)

  /** One time-series point: measurement, indexed tags, fields, and index time. */
  datatype Point = Point(
    measurement: string,
    tags: map<string, string>,
    fields: map<string, FieldValue>,
    time: Timestamp)

  /** A batch of points addressed to one logical database. */
  datatype Batch = Batch(database: string, points: seq<Point>)

  /** The database every point of the bridge is written to. */
  const Database: string := "db0"

  /** The batch built around a single point, as every write path of the bridge does. */
  function SingleBatch(p: Point): Batch
  {
    Batch(Database, [p])
  }

  /** One call of the client's Write: the batch it was given and whether it
      returned a nil error. */
  datatype WriteCall = WriteCall(batch: Batch, succeeded: bool)
}
