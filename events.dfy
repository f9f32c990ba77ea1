/** The `history` table's caller-supplied columns and the per-event parameter
    tuple the handlers build from a request body. */
module Events {

  /** A value bound to a positional parameter. A field the request body does
      not carry is `undefined`, which the driver sends as SQL NULL. */
  datatype Param = Null | Text(s: string) | Number(n: int)

  /** The eight caller-supplied fields of an event (the backend assigns `id`). */
  datatype Event = Event(
    title: Param,
    description: Param,
    year: Param,
    period: Param,
    month: Param,
    day: Param,
    country: Param,
    city: Param)

  /** The table the statements address; it is a constant, never taken from a request. */
  const TableName: string := "history"

  /** The insert column list, in the order the statements name the columns. */
  const Columns: seq<string> :=
    ["title", "description", "year", "period", "month", "day", "country", "city"]

  /** Number of parameters each event contributes. */
  const Width: nat := 8

  /** Property access by column name, as object destructuring reads it; a
      name that is not a field reads as `undefined`. */
  function FieldNamed(e: Event, name: string): Param
  {
    match name
    case "title" => e.title
    case "description" => e.description
    case "year" => e.year
    case "period" => e.period
    case "month" => e.month
    case "day" => e.day
    case "country" => e.country
    case "city" => e.city
    case _ => Null
  }

  /** The parameter tuple of one event: position `k` carries the field that
      the column list names at position `k`. */
  function Tuple(e: Event): (t: seq<Param>)
    ensures |t| == |Columns| == Width
    ensures forall k :: 0 <= k < Width ==> t[k] == FieldNamed(e, Columns[k])
  {
    [e.title, e.description, e.year, e.period, e.month, e.day, e.country, e.city]
  }
}
