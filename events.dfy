/** One calendar event: the dictionary decoded from the vendor page, which
    `format_event` enriches in place and `event_tostring` renders. */
module Events {
  import opened Failures
  import opened Text
  import opened TimeFormat

  /** The values an event dictionary holds: strings and integers from the
      page, the zoned datetime `format_event` stores, and any other decoded
      JSON value, carried with the text Python's `str()` gives it. */
  datatype Value = Str(s: string) | Int(i: int) | Time(instant: int) | Other(text: string)

  /** `str(v)`, as an f-string substitutes it. A `Time` is only ever stored
      under `start_datetime`, which `event_tostring` does not read and no
      page value can be, so its rendering is never reached by the
      descriptions; it is kept so that `Show` is total. */
  function Show(v: Value): string {
    match v
    case Str(s) => s
    case Int(i) => IntText(i)
    case Time(t) => IsoText(t)
    case Other(text) => text
  }

  /** The distance and travel-time texts of the first leg of a route. */
  datatype Route = Route(distance: string, duration: string)

  /** Stand-in for the directions service: origin, the event's
      `streetaddress` value and the departure instant give a route, or none. */
  type Directions = (string, Value, int) -> Option<Route>

  /** The keys `format_event` adds to an event. */
  const ADDED_KEYS: set<string> := {"start_datetime", "date", "distance", "traveltime"}

  /** Every key `format_event` writes. */
  const WRITTEN_KEYS: set<string> := ADDED_KEYS + {"starttime", "endtime"}

  /** The dictionary after `format_event`, and the exception it raised, if
      any; on an exception the updates made before it are kept. */
  datatype Formatting = Formatting(fields: map<string, Value>, error: Option<Error>)

  /** `datetime.fromtimestamp(event[key], UTC-4)`, as the instant it reads. */
  function ReadInstant(m: map<string, Value>, key: string): (r: Result<int>)
    ensures r.Ok? <==> key in m && m[key].Int? && Convertible(m[key].i)
    ensures r.Ok? ==> r.value == m[key].i
  {
    if key !in m then Err(KeyError(key))
    else match m[key]
      case Int(t) => if Convertible(t) then Ok(t) else Err(TimestampOutOfRange(t))
      case _ => Err(TypeError(key))
  }

  /** What `format_event` does to the dictionary `m`, step by step: read the
      start instant and store it as `start_datetime`, ... */
  function FormatFields(m: map<string, Value>, source: string, directions: Directions): Formatting {
    match ReadInstant(m, "starttime")
    case Err(e) => Formatting(m, Some(e))
    case Ok(start) =>
      StoreStart(m["start_datetime" := Time(start)], Split(StartStamp(start)), start, source, directions)
  }

  /** ... store the two words of its `%m/%d %H:%M` rendering as `date` and
      `starttime`, ... */
  function StoreStart(m: map<string, Value>, parts: seq<string>, start: int, source: string,
                      directions: Directions): Formatting
  {
    if |parts| != 2 then Formatting(m, Some(UnpackError))
    else RenderEnd(m["date" := Str(parts[0])]["starttime" := Str(parts[1])], start, source, directions)
  }

  /** ... replace `endtime` by its `%H:%M` rendering, ... */
  function RenderEnd(m: map<string, Value>, start: int, source: string, directions: Directions): Formatting {
    match ReadInstant(m, "endtime")
    case Err(e) => Formatting(m, Some(e))
    case Ok(end) => AddRoute(m["endtime" := Str(ClockText(end))], start, source, directions)
  }

  /** ... and store the distance and travel time of the route to the event. */
  function AddRoute(m: map<string, Value>, start: int, source: string, directions: Directions): Formatting {
    if "streetaddress" !in m then Formatting(m, Some(KeyError("streetaddress")))
    else match directions(source, m["streetaddress"], start)
      case None => Formatting(m, Some(NoRoute))
      case Some(route) =>
        Formatting(m["distance" := Str(route.distance)]["traveltime" := Str(route.duration)], None)
  }

  /** What an event needs for `format_event` to finish. */
  predicate Formattable(m: map<string, Value>, source: string, directions: Directions) {
    && "starttime" in m && m["starttime"].Int? && Convertible(m["starttime"].i)
    && "endtime" in m && m["endtime"].Int? && Convertible(m["endtime"].i)
    && "streetaddress" in m
    && directions(source, m["streetaddress"], m["starttime"].i).Some?
  }

  /** The dictionary a successful `format_event` leaves, in one expression. */
  function Enriched(m: map<string, Value>, source: string, directions: Directions): map<string, Value>
    requires Formattable(m, source, directions)
  {
    var start := m["starttime"].i;
    var route := directions(source, m["streetaddress"], start).value;
    m["start_datetime" := Time(start)]
     ["date" := Str(DateText(start))]
     ["starttime" := Str(ClockText(start))]
     ["endtime" := Str(ClockText(m["endtime"].i))]
     ["distance" := Str(route.distance)]
     ["traveltime" := Str(route.duration)]
  }

  lemma AddRouteOutcome(m: map<string, Value>, start: int, source: string, directions: Directions)
    ensures var r := AddRoute(m, start, source, directions);
      r.error.None? <==> "streetaddress" in m && directions(source, m["streetaddress"], start).Some?
  {
  }

  lemma RenderEndOutcome(m: map<string, Value>, start: int, source: string, directions: Directions)
    ensures var r := RenderEnd(m, start, source, directions);
      r.error.None? <==> && ReadInstant(m, "endtime").Ok? && "streetaddress" in m
                         && directions(source, m["streetaddress"], start).Some?
  {
    var end := ReadInstant(m, "endtime");
    if end.Ok? {
      var m3 := m["endtime" := Str(ClockText(end.value))];
      AddRouteOutcome(m3, start, source, directions);
      assert "streetaddress" in m3 <==> "streetaddress" in m;
    }
  }

  lemma StoreStartOutcome(m: map<string, Value>, parts: seq<string>, start: int, source: string,
                          directions: Directions)
    requires |parts| == 2
    ensures var r := StoreStart(m, parts, start, source, directions);
      r.error.None? <==> && ReadInstant(m, "endtime").Ok? && "streetaddress" in m
                         && directions(source, m["streetaddress"], start).Some?
  {
    var m2 := m["date" := Str(parts[0])]["starttime" := Str(parts[1])];
    RenderEndOutcome(m2, start, source, directions);
    assert ReadInstant(m2, "endtime") == ReadInstant(m, "endtime");
  }

  /** `format_event` raises nothing exactly when the event is formattable;
      in particular the split of the start stamp always has two parts. */
  lemma FormatSucceedsIff(m: map<string, Value>, source: string, directions: Directions)
    ensures FormatFields(m, source, directions).error.None? <==> Formattable(m, source, directions)
  {
    KeyNames();
    var start := ReadInstant(m, "starttime");
    if start.Ok? {
      StartStampSplits(start.value);
      var m1 := m["start_datetime" := Time(start.value)];
      StoreStartOutcome(m1, Split(StartStamp(start.value)), start.value, source, directions);
      assert ReadInstant(m1, "endtime") == ReadInstant(m, "endtime");
    }
  }

  lemma AddRouteResult(m: map<string, Value>, start: int, source: string, directions: Directions)
    requires "streetaddress" in m && directions(source, m["streetaddress"], start).Some?
    ensures var route := directions(source, m["streetaddress"], start).value;
      AddRoute(m, start, source, directions).fields
        == m["distance" := Str(route.distance)]["traveltime" := Str(route.duration)]
  {
  }

  lemma RenderEndResult(m: map<string, Value>, start: int, source: string, directions: Directions)
    requires ReadInstant(m, "endtime").Ok? && "streetaddress" in m
    requires directions(source, m["streetaddress"], start).Some?
    ensures var route := directions(source, m["streetaddress"], start).value;
      RenderEnd(m, start, source, directions).fields
        == m["endtime" := Str(ClockText(m["endtime"].i))]
            ["distance" := Str(route.distance)]["traveltime" := Str(route.duration)]
  {
    var m3 := m["endtime" := Str(ClockText(m["endtime"].i))];
    assert m3["streetaddress"] == m["streetaddress"];
    AddRouteResult(m3, start, source, directions);
  }

  lemma StoreStartResult(m: map<string, Value>, parts: seq<string>, start: int, source: string,
                         directions: Directions)
    requires |parts| == 2 && ReadInstant(m, "endtime").Ok? && "streetaddress" in m
    requires directions(source, m["streetaddress"], start).Some?
    ensures var route := directions(source, m["streetaddress"], start).value;
      StoreStart(m, parts, start, source, directions).fields
        == m["date" := Str(parts[0])]["starttime" := Str(parts[1])]
            ["endtime" := Str(ClockText(m["endtime"].i))]
            ["distance" := Str(route.distance)]["traveltime" := Str(route.duration)]
  {
    var m2 := m["date" := Str(parts[0])]["starttime" := Str(parts[1])];
    assert ReadInstant(m2, "endtime") == ReadInstant(m, "endtime");
    assert m2["streetaddress"] == m["streetaddress"];
    RenderEndResult(m2, start, source, directions);
  }

  lemma FormatResult(m: map<string, Value>, source: string, directions: Directions)
    requires Formattable(m, source, directions)
    ensures FormatFields(m, source, directions) == Formatting(Enriched(m, source, directions), None)
  {
    FormatSucceedsIff(m, source, directions);
    var start := m["starttime"].i;
    StartStampSplits(start);
    var m1 := m["start_datetime" := Time(start)];
    assert ReadInstant(m1, "endtime") == ReadInstant(m, "endtime");
    assert m1["streetaddress"] == m["streetaddress"];
    StoreStartResult(m1, Split(StartStamp(start)), start, source, directions);
  }

  /** The enriched dictionary: the four new keys, the rendered start and
      end times, and every other key exactly as before. */
  lemma EnrichedFields(m: map<string, Value>, source: string, directions: Directions)
    requires Formattable(m, source, directions)
    ensures var f := Enriched(m, source, directions);
      var start := m["starttime"].i;
      var route := directions(source, m["streetaddress"], start).value;
      && f.Keys == m.Keys + ADDED_KEYS
      && f["start_datetime"] == Time(start)
      && f["date"] == Str(DateText(start))
      && f["starttime"] == Str(ClockText(start))
      && f["endtime"] == Str(ClockText(m["endtime"].i))
      && f["distance"] == Str(route.distance)
      && f["traveltime"] == Str(route.duration)
      && forall k :: k in m && k !in WRITTEN_KEYS ==> f[k] == m[k]
  {
    KeyNames();
    EnrichedKeys(m, source, directions);
  }

  lemma EnrichedKeys(m: map<string, Value>, source: string, directions: Directions)
    requires Formattable(m, source, directions)
    ensures var f := Enriched(m, source, directions);
      && f.Keys == m.Keys + ADDED_KEYS
      && forall k :: k in m && k !in WRITTEN_KEYS ==> f[k] == m[k]
  {
  }

  /** After a successful `format_event`: the four new keys, the rendered
      start and end times, and every other key exactly as before. */
  lemma FormattedFields(m: map<string, Value>, source: string, directions: Directions)
    requires Formattable(m, source, directions)
    ensures var f := FormatFields(m, source, directions).fields;
      var start := m["starttime"].i;
      var route := directions(source, m["streetaddress"], start).value;
      && f.Keys == m.Keys + ADDED_KEYS
      && f["start_datetime"] == Time(start)
      && f["date"] == Str(DateText(start))
      && f["starttime"] == Str(ClockText(start))
      && f["endtime"] == Str(ClockText(m["endtime"].i))
      && f["distance"] == Str(route.distance)
      && f["traveltime"] == Str(route.duration)
      && forall k :: k in m && k !in WRITTEN_KEYS ==> f[k] == m[k]
  {
    FormatResult(m, source, directions);
    EnrichedFields(m, source, directions);
  }

  lemma FormatTouchesOnlyItsKeys(m: map<string, Value>, source: string, directions: Directions)
    ensures var f := FormatFields(m, source, directions).fields;
      && m.Keys <= f.Keys <= m.Keys + ADDED_KEYS
      && forall k :: k in m && k !in WRITTEN_KEYS ==> f[k] == m[k]
  {
    var start := ReadInstant(m, "starttime");
    if start.Ok? {
      StoreStartKeys(m["start_datetime" := Time(start.value)], Split(StartStamp(start.value)),
                     start.value, source, directions);
    }
  }

  lemma StoreStartKeys(m: map<string, Value>, parts: seq<string>, start: int, source: string,
                       directions: Directions)
    ensures var f := StoreStart(m, parts, start, source, directions).fields;
      && m.Keys <= f.Keys <= m.Keys + {"date", "starttime", "distance", "traveltime"}
      && forall k :: k in m && k !in WRITTEN_KEYS - {"start_datetime"} ==> f[k] == m[k]
  {
    if |parts| == 2 {
      RenderEndKeys(m["date" := Str(parts[0])]["starttime" := Str(parts[1])], start, source, directions);
    }
  }

  lemma RenderEndKeys(m: map<string, Value>, start: int, source: string, directions: Directions)
    ensures var f := RenderEnd(m, start, source, directions).fields;
      && m.Keys <= f.Keys <= m.Keys + {"distance", "traveltime"}
      && forall k :: k in m && k != "endtime" && k != "distance" && k != "traveltime" ==> f[k] == m[k]
  {
    var end := ReadInstant(m, "endtime");
    if end.Ok? {
      AddRouteKeys(m["endtime" := Str(ClockText(end.value))], start, source, directions);
    }
  }

  lemma AddRouteKeys(m: map<string, Value>, start: int, source: string, directions: Directions)
    ensures var f := AddRoute(m, start, source, directions).fields;
      && m.Keys <= f.Keys <= m.Keys + {"distance", "traveltime"}
      && forall k :: k in m && k != "distance" && k != "traveltime" ==> f[k] == m[k]
  {
  }

  /** `event_tostring`: the one-line description of a formatted event; a
      missing key raises `KeyError`, the keys looked up in the order of the
      f-string. */
  function EventToString(m: map<string, Value>): (r: Result<string>)
    ensures r.Ok? <==> {"shortstreet", "distance", "traveltime", "starttime", "endtime"} <= m.Keys
    ensures r.Err? ==> && r.error.KeyError? && r.error.key !in m
                       && r.error.key in {"shortstreet", "distance", "traveltime", "starttime", "endtime"}
  {
    if "shortstreet" !in m then Err(KeyError("shortstreet"))
    else if "distance" !in m then Err(KeyError("distance"))
    else if "traveltime" !in m then Err(KeyError("traveltime"))
    else if "starttime" !in m then Err(KeyError("starttime"))
    else if "endtime" !in m then Err(KeyError("endtime"))
    else Ok("@ " + Show(m["shortstreet"]) + ", " + Show(m["distance"]) + " ("
            + Show(m["traveltime"]) + ") away. Event from " + Show(m["starttime"])
            + " to " + Show(m["endtime"]))
  }

  /** The description of a formatted event, in terms of the original event
      and the route the directions service gave. */
  function Description(m: map<string, Value>, source: string, directions: Directions): string
    requires Formattable(m, source, directions) && "shortstreet" in m
  {
    var start := m["starttime"].i;
    var route := directions(source, m["streetaddress"], start).value;
    "@ " + Show(m["shortstreet"]) + ", " + route.distance + " (" + route.duration
      + ") away. Event from " + ClockText(start) + " to " + ClockText(m["endtime"].i)
  }

  lemma EnrichedDescription(m: map<string, Value>, source: string, directions: Directions)
    requires Formattable(m, source, directions)
    ensures var r := EventToString(Enriched(m, source, directions));
      && (r.Ok? <==> "shortstreet" in m)
      && (r.Ok? ==> r == Ok(Description(m, source, directions)))
  {
    EnrichedFields(m, source, directions);
    KeyNames();
  }

  /** The key names `format_event` reads and writes, told apart. */
  lemma KeyNames()
    ensures "shortstreet" !in WRITTEN_KEYS && "shortstreet" !in ADDED_KEYS
    ensures "streetaddress" !in WRITTEN_KEYS
    ensures "distance" in ADDED_KEYS && "traveltime" in ADDED_KEYS
    ensures "start_datetime" in ADDED_KEYS && "date" in ADDED_KEYS
    ensures "starttime" in WRITTEN_KEYS && "endtime" in WRITTEN_KEYS
    ensures "starttime" !in ADDED_KEYS && "endtime" !in ADDED_KEYS
  {
  }

  /** Formatting and then describing an event yields `Description`; the
      description fails only for want of a `shortstreet`. */
  lemma FormattedDescription(m: map<string, Value>, source: string, directions: Directions)
    requires Formattable(m, source, directions)
    ensures var r := EventToString(FormatFields(m, source, directions).fields);
      && (r.Ok? <==> "shortstreet" in m)
      && (r.Ok? ==> r == Ok(Description(m, source, directions)))
  {
    FormatResult(m, source, directions);
    EnrichedDescription(m, source, directions);
  }

  /** The start and end clocks can be read back from the last fourteen
      characters of a description. */
  lemma DescriptionEndsWithTimes(m: map<string, Value>, source: string, directions: Directions)
    requires Formattable(m, source, directions) && "shortstreet" in m
    ensures var s := Description(m, source, directions);
      var start := m["starttime"].i;
      var end := m["endtime"].i;
      && |s| >= 14
      && ParsePair(s[|s| - 14..|s| - 9], ':') == Some((Hour(start), Minute(start)))
      && ParsePair(s[|s| - 5..], ':') == Some((Hour(end), Minute(end)))
  {
    var s := Description(m, source, directions);
    var start := m["starttime"].i;
    var end := m["endtime"].i;
    ClockTextRoundTrip(start);
    ClockTextRoundTrip(end);
    var head := "@ " + Show(m["shortstreet"]) + ", "
      + directions(source, m["streetaddress"], start).value.distance + " ("
      + directions(source, m["streetaddress"], start).value.duration + ") away. Event from ";
    assert s == head + ClockText(start) + " to " + ClockText(end);
    assert s[|s| - 14..|s| - 9] == ClockText(start);
    assert s[|s| - 5..] == ClockText(end);
  }

  /** An event dictionary, updated in place by `format_event`. */
  class Event {
    var fields: map<string, Value>

    constructor (fields: map<string, Value>)
      ensures this.fields == fields
    {
      this.fields := fields;
    }

    /** `format_event(self, source)`: each step updates the dictionary in the
        order the script does, and an exception leaves the earlier updates. */
    method Format(source: string, directions: Directions) returns (error: Option<Error>)
      modifies this
      ensures var f := FormatFields(old(fields), source, directions);
        fields == f.fields && error == f.error
    {
      var start := ReadInstant(fields, "starttime");
      if start.Err? {
        return Some(start.error);
      }
      fields := fields["start_datetime" := Time(start.value)];
      var parts := Split(StartStamp(start.value));
      if |parts| != 2 {
        return Some(UnpackError);
      }
      fields := fields["date" := Str(parts[0])];
      fields := fields["starttime" := Str(parts[1])];
      var end := ReadInstant(fields, "endtime");
      if end.Err? {
        return Some(end.error);
      }
      fields := fields["endtime" := Str(ClockText(end.value))];
      if "streetaddress" !in fields {
        return Some(KeyError("streetaddress"));
      }
      var route := directions(source, fields["streetaddress"], start.value);
      if route.None? {
        return Some(NoRoute);
      }
      fields := fields["distance" := Str(route.value.distance)];
      fields := fields["traveltime" := Str(route.value.duration)];
      return None;
    }
  }
}
