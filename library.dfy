/**
 * The parts of Go's standard library that the client calls but that are not
 * modelled: the JSON text parser, strconv.ParseFloat, time.Parse and the URL
 * check inside http.NewRequest. They are carried as function-valued fields, so
 * a theorem holds for every behaviour of the library unless it names the
 * library facts it assumes (Sound below, or a parser reading back its text).
 */
module Library {
  import opened Wrappers
  import opened Json

  /** The two timestamp layouts the client uses: time.RFC3339 and time.RFC3339Nano. */
  datatype Layout = Rfc3339 | Rfc3339Nano

  /** An instant, as nanoseconds since Go's zero time (January 1, year 1, 00:00:00 UTC). */
  datatype Time = Time(nanos: int)

  /** time.Time{}, which time.Parse returns together with its error. */
  const ZeroTime: Time := Time(0)

  datatype Runtime = Runtime(
    /** json.Unmarshal of a text into interface{}; None when the text is not JSON. */
    parseJson: string -> Option<Json>,
    /** strconv.ParseFloat(s, 64); None when it reports an error. */
    parseFloat: string -> Option<real>,
    /** time.Parse(layout, s); None when it reports an error. */
    parseTime: (Layout, string) -> Option<Time>,
    /** Whether http.NewRequest("GET", url, nil) accepts the URL. */
    urlAccepted: string -> bool)

  /**
   * The facts about the library that some properties depend on: "" is
   * neither a number for strconv.ParseFloat nor a timestamp for time.Parse.
   */
  predicate Sound(rt: Runtime)
  {
    && rt.parseFloat("") == None
    && rt.parseTime(Rfc3339, "") == None
    && rt.parseTime(Rfc3339Nano, "") == None
  }
}
