/** Values shared by every part of the adaptor: optional values, timestamps,
    the loosely typed dictionaries that the handlers return, and the reply
    envelope of an HTTP handler. */
module Values {

  /** An optional value; `None` also stands for the exception a Python
      conversion raises, so that `:-` propagates it. */
  datatype Option<+T> = None | Some(value: T)
  {
    predicate IsFailure() { None? }

    function PropagateFailure<U>(): Option<U>
      requires None?
    {
      None
    }

    function Extract(): T
      requires Some?
    {
      value
    }
  }

  /** A broker timestamp: calendar date and time of day, microsecond resolution.
      Every timestamp in the terminal's files carries the +08:00 offset, so the
      offset itself is not stored. */
  datatype DateTime = DateTime(year: int, month: int, day: int,
                               hour: int, minute: int, second: int, micro: int)
  {
    /** Same calendar day as `other` (the `year`, `month`, `day` comparison). */
    predicate SameDay(other: DateTime) {
      year == other.year && month == other.month && day == other.day
    }

    /** The ranges a Python `datetime` keeps its fields in. */
    predicate Valid() {
      1 <= year <= 9999 && 1 <= month <= 12 && 1 <= day <= 31
      && 0 <= hour < 24 && 0 <= minute < 60 && 0 <= second < 60 && 0 <= micro < 1000000
    }
  }

  /** The values a handler puts into its result dictionaries. A timestamp is
      kept as a `DateTime`; its rendering as text is not modelled. */
  datatype Value =
    | Null
    | Int(i: int)
    | Real(r: real)
    | Str(s: string)
    | Time(t: DateTime)
    | Dict(d: map<string, Value>)
    | List(l: seq<Value>)

  /** What a handler returns: a status code, a message and optional data, or an
      exception that escapes it. */
  datatype Reply =
    | Reply(status: int, msg: string, data: Option<Value>)
    | Raised(error: string)
}
