/** The record shapes that flow through the receiver: pkg/general/Point.go
    (the current point), pkg/influx/Point.go (the legacy point whose timestamp
    is still text) and the point groups built by splitting on the measurement. */
module Points {

  /** The dynamic types the parser stores in a field map: Go's `int` (from
      Atoi), `int64` (from a digit run with an `i`/`u` marker), `float64` and
      `string`.  A float keeps the literal it was read from; its numeric value
      is not modelled. */
  datatype FieldValue =
    | Int(i: int)
    | Int64(i: int)
    | Float(literal: string)
    | Str(s: string)

  /** general.Point; the timestamp is a count of nanoseconds since the epoch. */
  datatype Point = Point(
    measurement: string,
    fields: map<string, FieldValue>,
    tags: map<string, string>,
    timestamp: int)

  /** influx.Point, the older shape whose timestamp is unparsed text. */
  datatype LegacyPoint = LegacyPoint(
    measurement: string,
    fields: map<string, FieldValue>,
    tags: map<string, string>,
    timestamp: string)

  /** The tag map of each point shape, for code that only looks at tags. */
  function PointTags(p: Point): map<string, string> { p.tags }

  function LegacyTags(p: LegacyPoint): map<string, string> { p.tags }

  /** The measurement of each point shape, for code that groups by it. */
  function PointName(p: Point): string { p.measurement }

  function LegacyName(p: LegacyPoint): string { p.measurement }

  /** general.PointGroup and the legacy `Ret` struct: one measurement and its points. */
  datatype Group<P> = Group(measurement: string, points: seq<P>)

  type PointGroup = Group<Point>
}
