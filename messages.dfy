/** `build_daily_message` and `build_weekly_message`: each formats the
    events in page order, in place, and appends one line per event it
    lists to a fixed banner. */
module Messages {
  import opened Failures
  import opened Text
  import opened TimeFormat
  import opened Events
  import opened Schedule

  const BANNER := "**!!!     __EmpanadaBot Alert__     !!!**\n\n"
  const DAILY_HEADER := BANNER + "_In the next 24 hours, The Naked Empanada is..._"
  const WEEKLY_HEADER := BANNER + "_The Naked Empanada Upcoming Events..._"
  const NOT_SCHEDULED := "\n\tnot scheduled :("

  function DailyLine(date: string, text: string): string {
    "\n\t " + date + " " + text
  }

  function WeeklyLine(date: string, text: string): string {
    "\n\t" + date + ": " + text
  }

  /** What one pass of either loop makes of one event: an exception that
      ends the builder, an event outside the window, or the `date` field
      and the `event_tostring` text of a listed event. */
  datatype Step = Abort(error: Error) | Skip | Take(date: string, text: string)

  /** Format the event, shift its start back `days` days, compare with
      `now`, and describe it when it is inside the window. */
  function Examine(m: map<string, Value>, days: nat, source: string, directions: Directions,
                   now: int): Step
  {
    var formatting := FormatFields(m, source, directions);
    if formatting.error.Some? then Abort(formatting.error.value)
    else
      FormatSucceedsIff(m, source, directions);
      FormattedFields(m, source, directions);
      var f := formatting.fields;
      var start := f["start_datetime"].instant;
      if !ShiftConvertible(start, days) then Abort(DateOverflow(start))
      else if !Within(start, now, days) then Skip
      else match EventToString(f)
        case Err(e) => Abort(e)
        case Ok(text) => Take(Show(f["date"]), text)
  }

  /** One pass of either loop over an event: its outcome, and the event's
      dictionary after `format_event`. */
  datatype Pass = Pass(step: Step, fields: map<string, Value>)

  function PassOf(m: map<string, Value>, days: nat, source: string, directions: Directions,
                  now: int): Pass
  {
    Pass(Examine(m, days, source, directions, now), FormatFields(m, source, directions).fields)
  }

  /** The passes over the events `olds`, in page order. */
  function Passes(olds: seq<map<string, Value>>, days: nat, source: string, directions: Directions,
                  now: int): (passes: seq<Pass>)
    ensures |passes| == |olds|
    ensures forall j :: 0 <= j < |olds| ==> passes[j] == PassOf(olds[j], days, source, directions, now)
  {
    seq(|olds|, j requires 0 <= j < |olds| => PassOf(olds[j], days, source, directions, now))
  }

  /** `passes` are the passes over `olds`; stated element by element, and
      only brought to bear where a pass is computed. */
  predicate PassesOf(olds: seq<map<string, Value>>, passes: seq<Pass>, days: nat, source: string,
                     directions: Directions, now: int)
  {
    && |passes| == |olds|
    && forall j {:trigger PassOf(olds[j], days, source, directions, now)} ::
         0 <= j < |olds| ==> passes[j] == PassOf(olds[j], days, source, directions, now)
  }

  /** `PassesOf` pins down exactly `Passes`. */
  lemma PassesOfIff(olds: seq<map<string, Value>>, passes: seq<Pass>, days: nat, source: string,
                    directions: Directions, now: int)
    ensures PassesOf(olds, passes, days, source, directions, now)
        <==> passes == Passes(olds, days, source, directions, now)
  {
    var all := Passes(olds, days, source, directions, now);
    if PassesOf(olds, passes, days, source, directions, now) {
      forall j | 0 <= j < |olds| ensures passes[j] == all[j] {
        assert passes[j] == PassOf(olds[j], days, source, directions, now);
      }
    }
  }

  /** The lines a builder appends, how many events it formatted, and the
      exception it ended with, if any. */
  datatype Scan = Scan(lines: seq<string>, touched: nat, error: Option<Error>)

  /** The daily loop over the passes, up to its `break`. */
  function DailyScan(passes: seq<Pass>): Scan
    decreases |passes|
  {
    if passes == [] then Scan([], 0, None)
    else match passes[0].step
      case Abort(e) => Scan([], 1, Some(e))
      case Skip => Scan([], 1, None)
      case Take(date, text) =>
        var rest := DailyScan(passes[1..]);
        Scan([DailyLine(date, text)] + rest.lines, rest.touched + 1, rest.error)
  }

  /** The weekly loop over the passes: it skips the events outside the
      window and goes on. */
  function WeeklyScan(passes: seq<Pass>): Scan
    decreases |passes|
  {
    if passes == [] then Scan([], 0, None)
    else match passes[0].step
      case Abort(e) => Scan([], 1, Some(e))
      case Skip =>
        var rest := WeeklyScan(passes[1..]);
        Scan(rest.lines, rest.touched + 1, rest.error)
      case Take(date, text) =>
        var rest := WeeklyScan(passes[1..]);
        Scan([WeeklyLine(date, text)] + rest.lines, rest.touched + 1, rest.error)
  }

  /** The daily message, with the placeholder when no event was listed. */
  function DailyText(passes: seq<Pass>): Result<string> {
    var scan := DailyScan(passes);
    if scan.error.Some? then Err(scan.error.value)
    else Ok(DAILY_HEADER + Concat(scan.lines) + (if scan.lines == [] then NOT_SCHEDULED else ""))
  }

  /** The weekly message: the header and every listed line. */
  function WeeklyText(passes: seq<Pass>): Result<string> {
    var scan := WeeklyScan(passes);
    if scan.error.Some? then Err(scan.error.value)
    else Ok(WEEKLY_HEADER + Concat(scan.lines))
  }

  /** What `build_daily_message` returns for the events `olds`. */
  function DailyMessage(olds: seq<map<string, Value>>, source: string, directions: Directions,
                        now: int): Result<string>
  {
    DailyText(Passes(olds, 1, source, directions, now))
  }

  /** What `build_weekly_message` returns for the events `olds`. */
  function WeeklyMessage(olds: seq<map<string, Value>>, source: string, directions: Directions,
                         now: int): Result<string>
  {
    WeeklyText(Passes(olds, 7, source, directions, now))
  }

  /** How `Examine` reads off what one loop pass observes. */
  lemma ExamineObserved(m: map<string, Value>, days: nat, source: string, directions: Directions,
                        now: int)
    ensures var formatting := FormatFields(m, source, directions);
      formatting.error.Some? ==> Examine(m, days, source, directions, now) == Abort(formatting.error.value)
    ensures var formatting := FormatFields(m, source, directions);
      var f := formatting.fields;
      formatting.error.None? ==>
        && "start_datetime" in f && f["start_datetime"].Time? && "date" in f
        && var start := f["start_datetime"].instant;
           Examine(m, days, source, directions, now)
             == if !ShiftConvertible(start, days) then Abort(DateOverflow(start))
                else if !Within(start, now, days) then Skip
                else match EventToString(f)
                  case Err(e) => Abort(e)
                  case Ok(text) => Take(Show(f["date"]), text)
  {
    if FormatFields(m, source, directions).error.None? {
      FormatSucceedsIff(m, source, directions);
      FormattedFields(m, source, directions);
    }
  }

  /** One pass of the daily loop, from position `i`: the loop's invariant
      speaks of the scan of the passes from `i` on, and this unfolds that
      slice by one pass. */
  lemma DailyScanStep(passes: seq<Pass>, i: nat)
    requires i < |passes|
    ensures var rest := DailyScan(passes[i + 1..]);
      DailyScan(passes[i..])
        == match passes[i].step
           case Abort(e) => Scan([], 1, Some(e))
           case Skip => Scan([], 1, None)
           case Take(date, text) => Scan([DailyLine(date, text)] + rest.lines, rest.touched + 1, rest.error)
  {
    assert passes[i..][0] == passes[i] && passes[i..][1..] == passes[i + 1..];
  }

  /** One pass of the weekly loop, from position `i`, unfolding the scan
      of the slice from `i` on by one pass. */
  lemma WeeklyScanStep(passes: seq<Pass>, i: nat)
    requires i < |passes|
    ensures var rest := WeeklyScan(passes[i + 1..]);
      WeeklyScan(passes[i..])
        == match passes[i].step
           case Abort(e) => Scan([], 1, Some(e))
           case Skip => Scan(rest.lines, rest.touched + 1, rest.error)
           case Take(date, text) => Scan([WeeklyLine(date, text)] + rest.lines, rest.touched + 1, rest.error)
  {
    assert passes[i..][0] == passes[i] && passes[i..][1..] == passes[i + 1..];
  }

  /** A scan that lists `line` and then `rest`, seen after `lines`. */
  lemma ScanExtend(total: Scan, lines: seq<string>, here: Scan, rest: Scan, line: string, i: nat)
    requires total == Scan(lines + here.lines, i + here.touched, here.error)
    requires here == Scan([line] + rest.lines, rest.touched + 1, rest.error)
    ensures total == Scan((lines + [line]) + rest.lines, i + 1 + rest.touched, rest.error)
  {
    assert lines + ([line] + rest.lines) == (lines + [line]) + rest.lines;
  }

  /** What the daily loop's invariant becomes after the pass at `i`. */
  lemma DailyAdvance(passes: seq<Pass>, lines: seq<string>, i: nat)
    requires i < |passes|
    requires var rest := DailyScan(passes[i..]);
      DailyScan(passes) == Scan(lines + rest.lines, i + rest.touched, rest.error)
    ensures var rest := DailyScan(passes[i + 1..]);
      match passes[i].step
      case Abort(e) => DailyScan(passes) == Scan(lines, i + 1, Some(e))
      case Skip => DailyScan(passes) == Scan(lines, i + 1, None)
      case Take(date, text) =>
        DailyScan(passes) == Scan((lines + [DailyLine(date, text)]) + rest.lines, i + 1 + rest.touched, rest.error)
  {
    DailyScanStep(passes, i);
    match passes[i].step {
      case Abort(e) => assert lines + [] == lines;
      case Skip => assert lines + [] == lines;
      case Take(date, text) =>
        ScanExtend(DailyScan(passes), lines, DailyScan(passes[i..]), DailyScan(passes[i + 1..]), DailyLine(date, text), i);
    }
  }

  /** What the weekly loop's invariant becomes after the pass at `i`. */
  lemma WeeklyAdvance(passes: seq<Pass>, lines: seq<string>, i: nat)
    requires i < |passes|
    requires var rest := WeeklyScan(passes[i..]);
      WeeklyScan(passes) == Scan(lines + rest.lines, i + rest.touched, rest.error)
    ensures var rest := WeeklyScan(passes[i + 1..]);
      match passes[i].step
      case Abort(e) => WeeklyScan(passes) == Scan(lines, i + 1, Some(e))
      case Skip => WeeklyScan(passes) == Scan(lines + rest.lines, i + 1 + rest.touched, rest.error)
      case Take(date, text) =>
        WeeklyScan(passes) == Scan((lines + [WeeklyLine(date, text)]) + rest.lines, i + 1 + rest.touched, rest.error)
  {
    WeeklyScanStep(passes, i);
    match passes[i].step {
      case Abort(e) => assert lines + [] == lines;
      case Skip =>
      case Take(date, text) =>
        ScanExtend(WeeklyScan(passes), lines, WeeklyScan(passes[i..]), WeeklyScan(passes[i + 1..]), WeeklyLine(date, text), i);
    }
  }

  /** Appending one line keeps the message equal to the header and the
      lines so far. */
  lemma AppendLine(header: string, lines: seq<string>, line: string)
    ensures header + Concat(lines) + line == header + Concat(lines + [line])
  {
    ConcatAppend(lines, line);
  }

  /** The weekly scan once the loop has run to the end without an
      exception: exactly the lines so far. */
  lemma WeeklyStop(passes: seq<Pass>, lines: seq<string>, i: nat)
    requires i == |passes|
    requires var rest := WeeklyScan(passes[i..]);
      WeeklyScan(passes) == Scan(lines + rest.lines, i + rest.touched, rest.error)
    ensures WeeklyScan(passes) == Scan(lines, i, None)
  {
    // Off the end the rest of the scan is empty.
    assert passes[|passes|..] == [] && lines + [] == lines;
  }

  /** Where the daily loop stops without an exception, at its `break` or at
      the end of the events, it has scanned everything it will. */
  lemma DailyStop(passes: seq<Pass>, lines: seq<string>, i: nat, touched: nat)
    requires i <= |passes|
    requires i == |passes| ==> var rest := DailyScan(passes[i..]);
      DailyScan(passes) == Scan(lines + rest.lines, i + rest.touched, rest.error)
    requires i < |passes| ==> DailyScan(passes) == Scan(lines, touched, None)
    requires i == |passes| ==> touched == i
    ensures DailyScan(passes) == Scan(lines, touched, None)
  {
    // Off the end the rest of the scan is empty.
    assert passes[|passes|..] == [] && lines + [] == lines;
  }

  /** The daily message once the loop has stopped without an exception. */
  lemma DailyClose(passes: seq<Pass>, lines: seq<string>, touched: nat)
    requires DailyScan(passes) == Scan(lines, touched, None)
    ensures DailyText(passes) == Ok(DAILY_HEADER + Concat(lines) + if lines == [] then NOT_SCHEDULED else "")
  {
  }

  /** The dictionaries of the events, in order. */
  function Snapshot(events: seq<Event>): (olds: seq<map<string, Value>>)
    reads events
    ensures |olds| == |events| && forall j :: 0 <= j < |events| ==> olds[j] == events[j].fields
  {
    seq(|events|, j reads events requires 0 <= j < |events| => events[j].fields)
  }

  /** Distinct event objects: formatting one leaves the others alone. */
  predicate Distinct(events: seq<Event>) {
    forall i, j :: 0 <= i < j < |events| ==> events[i] != events[j]
  }

  /** The passes over `olds`, named without unfolding them. */
  lemma AllPasses(olds: seq<map<string, Value>>, days: nat, source: string, directions: Directions,
                  now: int)
    returns (passes: seq<Pass>)
    ensures PassesOf(olds, passes, days, source, directions, now)
  {
    passes := Passes(olds, days, source, directions, now);
  }

  /** The part both loops share, on the event at position `i`:
      `format_event`, then the window test on `start_datetime`, then
      `event_tostring` for an event inside it. */
  method Visit(event: Event, ghost olds: seq<map<string, Value>>, ghost passes: seq<Pass>, ghost i: nat,
               days: nat, source: string, directions: Directions, now: int)
    returns (step: Step)
    requires PassesOf(olds, passes, days, source, directions, now)
    requires i < |olds| && event.fields == olds[i]
    modifies event
    ensures step == passes[i].step && event.fields == passes[i].fields
  {
    assert passes[i] == PassOf(olds[i], days, source, directions, now);
    ExamineObserved(event.fields, days, source, directions, now);
    var error := event.Format(source, directions);
    if error.Some? {
      return Abort(error.value);
    }
    var start := event.fields["start_datetime"].instant;
    if !ShiftConvertible(start, days) {
      return Abort(DateOverflow(start));
    }
    if !(start - days * SECONDS_PER_DAY < now) {
      return Skip;
    }
    var text := EventToString(event.fields);
    if text.Err? {
      return Abort(text.error);
    }
    return Take(Show(event.fields["date"]), text.value);
  }

  /** One pass of the daily loop over the event at position `i`: it lists
      the event (`listed`), or ends the loop with the exception it raised
      or with its `break`. */
  method DailyPass(event: Event, ghost olds: seq<map<string, Value>>, ghost passes: seq<Pass>,
                   ghost lines: seq<string>, ghost i: nat, message: string, source: string,
                   directions: Directions, now: int)
    returns (error: Option<Error>, listed: bool, message': string, ghost lines': seq<string>)
    requires PassesOf(olds, passes, 1, source, directions, now)
    requires i < |olds| && event.fields == olds[i]
    requires message == DAILY_HEADER + Concat(lines)
    requires var rest := DailyScan(passes[i..]);
      DailyScan(passes) == Scan(lines + rest.lines, i + rest.touched, rest.error)
    modifies event
    ensures event.fields == passes[i].fields
    ensures !listed ==> DailyScan(passes) == Scan(lines, i + 1, error) && message' == message && lines' == lines
    ensures listed ==> error == None && lines' != [] && message' == DAILY_HEADER + Concat(lines')
    ensures listed ==> var rest := DailyScan(passes[i + 1..]);
      DailyScan(passes) == Scan(lines' + rest.lines, i + 1 + rest.touched, rest.error)
  {
    var step := Visit(event, olds, passes, i, 1, source, directions, now);
    DailyAdvance(passes, lines, i);
    match step {
      case Abort(e) =>
        return Some(e), false, message, lines;
      case Skip =>
        return None, false, message, lines;
      case Take(date, text) =>
        var line := DailyLine(date, text);
        AppendLine(DAILY_HEADER, lines, line);
        return None, true, message + line, lines + [line];
    }
  }

  /** The loop of `build_daily_message`: it formats and lists the leading
      events inside the window, and stops at the first one outside it or at
      an exception; `touched` events have been formatted. */
  method DailyLoop(events: seq<Event>, ghost olds: seq<map<string, Value>>, ghost passes: seq<Pass>,
                   source: string, directions: Directions, now: int)
    returns (error: Option<Error>, message: string, eventTomorrow: bool, ghost lines: seq<string>,
             ghost touched: nat)
    requires Distinct(events) && PassesOf(olds, passes, 1, source, directions, now)
    requires |olds| == |events| && forall j :: 0 <= j < |events| ==> events[j].fields == olds[j]
    modifies events
    ensures DailyScan(passes) == Scan(lines, touched, error)
    ensures message == DAILY_HEADER + Concat(lines) && (eventTomorrow <==> lines != [])
    ensures forall j :: 0 <= j < |events| ==>
      events[j].fields == if j < touched then passes[j].fields else olds[j]
  {
    lines := [];
    message := DAILY_HEADER;
    eventTomorrow := false;
    error := None;
    var i := 0;
    // Set at the `break`, and when an exception leaves the loop.
    var stopped := false;
    while i < |events| && !stopped
      invariant 0 <= i <= |events|
      invariant forall j :: 0 <= j < i ==> events[j].fields == passes[j].fields
      invariant forall j :: i <= j < |events| ==> events[j].fields == olds[j]
      invariant message == DAILY_HEADER + Concat(lines)
      invariant eventTomorrow <==> lines != []
      invariant !stopped ==> error == None && var rest := DailyScan(passes[i..]);
        DailyScan(passes) == Scan(lines + rest.lines, i + rest.touched, rest.error)
      invariant stopped ==> DailyScan(passes) == Scan(lines, i, error)
    {
      var listed;
      error, listed, message, lines := DailyPass(events[i], olds, passes, lines, i, message, source, directions, now);
      if listed {
        eventTomorrow := true;
      } else {
        stopped := true;
      }
      i := i + 1;
    }
    touched := i;
    if !stopped {
      DailyStop(passes, lines, i, touched);
    }
  }

  /** `build_daily_message(events, source)` at the instant `now`; `passes`
      are the passes over the events as they were (see `PassesOfIff`). */
  method BuildDailyMessage(events: seq<Event>, source: string, directions: Directions, now: int)
    returns (r: Result<string>, ghost passes: seq<Pass>)
    requires Distinct(events)
    modifies events
    ensures PassesOf(old(Snapshot(events)), passes, 1, source, directions, now)
    ensures r == DailyText(passes)
    ensures forall j :: 0 <= j < |events| ==>
      events[j].fields == if j < DailyScan(passes).touched then passes[j].fields else old(events[j].fields)
  {
    ghost var olds := Snapshot(events);
    passes := AllPasses(olds, 1, source, directions, now);
    var error, message, eventTomorrow;
    ghost var lines, touched;
    error, message, eventTomorrow, lines, touched := DailyLoop(events, olds, passes, source, directions, now);
    if error.Some? {
      return Err(error.value), passes;
    }
    DailyClose(passes, lines, touched);
    if !eventTomorrow {
      message := message + NOT_SCHEDULED;
    } else {
      // With a line listed, the placeholder `DailyText` adds is empty.
      assert message == message + "";
    }
    return Ok(message), passes;
  }

  /** One pass of the weekly loop over the event at position `i`: it lists
      the event, passes over it, or ends the loop with its exception. */
  method WeeklyPass(event: Event, ghost olds: seq<map<string, Value>>, ghost passes: seq<Pass>,
                    ghost lines: seq<string>, ghost i: nat, message: string, source: string,
                    directions: Directions, now: int)
    returns (error: Option<Error>, message': string, ghost lines': seq<string>)
    requires PassesOf(olds, passes, 7, source, directions, now)
    requires i < |olds| && event.fields == olds[i]
    requires message == WEEKLY_HEADER + Concat(lines)
    requires var rest := WeeklyScan(passes[i..]);
      WeeklyScan(passes) == Scan(lines + rest.lines, i + rest.touched, rest.error)
    modifies event
    ensures event.fields == passes[i].fields
    ensures error.Some? ==> WeeklyScan(passes) == Scan(lines, i + 1, error) && lines' == lines
    ensures error.None? ==> message' == WEEKLY_HEADER + Concat(lines')
    ensures error.None? ==> var rest := WeeklyScan(passes[i + 1..]);
      WeeklyScan(passes) == Scan(lines' + rest.lines, i + 1 + rest.touched, rest.error)
  {
    var step := Visit(event, olds, passes, i, 7, source, directions, now);
    WeeklyAdvance(passes, lines, i);
    match step {
      case Abort(e) =>
        return Some(e), message, lines;
      case Skip =>
        return None, message, lines;
      case Take(date, text) =>
        var line := WeeklyLine(date, text);
        AppendLine(WEEKLY_HEADER, lines, line);
        return None, message + line, lines + [line];
    }
  }

  /** The loop of `build_weekly_message`: it formats every event and lists
      those inside the window, and stops only at an exception; `touched`
      events have been formatted. */
  method WeeklyLoop(events: seq<Event>, ghost olds: seq<map<string, Value>>, ghost passes: seq<Pass>,
                    source: string, directions: Directions, now: int)
    returns (error: Option<Error>, message: string, ghost lines: seq<string>, ghost touched: nat)
    requires Distinct(events) && PassesOf(olds, passes, 7, source, directions, now)
    requires |olds| == |events| && forall j :: 0 <= j < |events| ==> events[j].fields == olds[j]
    modifies events
    ensures WeeklyScan(passes) == Scan(lines, touched, error)
    ensures error.None? ==> message == WEEKLY_HEADER + Concat(lines)
    ensures forall j :: 0 <= j < |events| ==>
      events[j].fields == if j < touched then passes[j].fields else olds[j]
  {
    lines := [];
    message := WEEKLY_HEADER;
    error := None;
    var i := 0;
    // The loop runs to the end unless an exception leaves it.
    while i < |events| && error.None?
      invariant 0 <= i <= |events|
      invariant forall j :: 0 <= j < i ==> events[j].fields == passes[j].fields
      invariant forall j :: i <= j < |events| ==> events[j].fields == olds[j]
      invariant error.None? ==> message == WEEKLY_HEADER + Concat(lines)
      invariant error.None? ==> var rest := WeeklyScan(passes[i..]);
        WeeklyScan(passes) == Scan(lines + rest.lines, i + rest.touched, rest.error)
      invariant error.Some? ==> WeeklyScan(passes) == Scan(lines, i, error)
    {
      error, message, lines := WeeklyPass(events[i], olds, passes, lines, i, message, source, directions, now);
      i := i + 1;
    }
    touched := i;
    if error.None? {
      WeeklyStop(passes, lines, i);
    }
  }

  /** `build_weekly_message(events, source)` at the instant `now`. */
  method BuildWeeklyMessage(events: seq<Event>, source: string, directions: Directions, now: int)
    returns (r: Result<string>, ghost passes: seq<Pass>)
    requires Distinct(events)
    modifies events
    ensures PassesOf(old(Snapshot(events)), passes, 7, source, directions, now)
    ensures r == WeeklyText(passes)
    ensures forall j :: 0 <= j < |events| ==>
      events[j].fields == if j < WeeklyScan(passes).touched then passes[j].fields else old(events[j].fields)
  {
    ghost var olds := Snapshot(events);
    passes := AllPasses(olds, 7, source, directions, now);
    var error, message;
    ghost var lines, touched;
    error, message, lines, touched := WeeklyLoop(events, olds, passes, source, directions, now);
    if error.Some? {
      return Err(error.value), passes;
    }
    return Ok(message), passes;
  }

  /** The daily loop lists the leading passes that take their event, and
      stops at the first that does not: it formats that one too, and ends
      with its exception, if it raised one. */
  lemma {:induction false} DailyScanShape(passes: seq<Pass>)
    ensures var scan := DailyScan(passes);
      var k := |scan.lines|;
      && k <= |passes|
      && (forall j :: 0 <= j < k ==>
            passes[j].step.Take? && scan.lines[j] == DailyLine(passes[j].step.date, passes[j].step.text))
      && (k == |passes| ==> scan.touched == k && scan.error == None)
      && (k < |passes| ==> && scan.touched == k + 1 && !passes[k].step.Take?
                           && scan.error == if passes[k].step.Abort? then Some(passes[k].step.error) else None)
    decreases |passes|
  {
    if passes != [] && passes[0].step.Take? {
      DailyScanShape(passes[1..]);
    }
  }

  /** The daily message depends only on the passes up to its `break`: once
      the loop stops before the end, any passes that agree with these up to
      the stop give the same scan. */
  lemma {:induction false} DailyScanStops(passes: seq<Pass>, other: seq<Pass>)
    requires |DailyScan(passes).lines| < |passes|
    requires var t := DailyScan(passes).touched; t <= |passes| && t <= |other| && other[..t] == passes[..t]
    ensures DailyScan(other) == DailyScan(passes)
    decreases |passes|
  {
    var t := DailyScan(passes).touched;
    DailyScanShape(passes);
    assert other[0] == other[..t][0] == passes[..t][0] == passes[0];
    if passes[0].step.Take? {
      var rest := DailyScan(passes[1..]);
      assert t == rest.touched + 1;
      assert other[1..][..t - 1] == other[..t][1..] == passes[..t][1..] == passes[1..][..t - 1];
      DailyScanStops(passes[1..], other[1..]);
    }
  }

  /** A daily scan that stops on the last of the first `r` passes, or runs
      through all of them, is the scan of the passes as a whole. */
  lemma DailyScanReached(passes: seq<Pass>, r: nat)
    requires r <= |passes|
    requires var scan := DailyScan(passes[..r]);
      scan.touched == r && (r < |passes| ==> |scan.lines| < r)
    ensures DailyScan(passes) == DailyScan(passes[..r])
  {
    if r < |passes| {
      DailyScanStops(passes[..r], passes);
    } else {
      assert passes[..r] == passes;
    }
  }

  /** The weekly loop stops only at an exception, which is the first one
      the passes raise; without one it formats every event. */
  lemma {:induction false} WeeklyScanShape(passes: seq<Pass>)
    ensures var scan := WeeklyScan(passes);
      && scan.touched <= |passes|
      && (forall j :: 0 <= j < scan.touched - 1 ==> !passes[j].step.Abort?)
      && (scan.error.None? ==> scan.touched == |passes| && forall j :: 0 <= j < |passes| ==> !passes[j].step.Abort?)
      && (scan.error.Some? ==> scan.touched >= 1 && passes[scan.touched - 1].step == Abort(scan.error.value))
    decreases |passes|
  {
    if passes != [] && !passes[0].step.Abort? {
      WeeklyScanShape(passes[1..]);
      var scan := WeeklyScan(passes);
      var rest := WeeklyScan(passes[1..]);
      assert scan.touched == rest.touched + 1 && scan.error == rest.error;
      assert forall j :: 1 <= j < |passes| ==> passes[j] == passes[1..][j - 1];
    }
  }

  /** Both messages open with the banner and their own heading line, and
      what follows is the lines of the listed events, one per event, then
      the daily placeholder when there was none. */
  lemma MessageLayout(passes: seq<Pass>)
    ensures DailyText(passes).Ok? ==>
      var rest := DailyText(passes).value[|DAILY_HEADER|..];
      && DailyText(passes).value[..|BANNER|] == BANNER
      && |DAILY_HEADER| <= |DailyText(passes).value|
      && DailyText(passes).value[..|DAILY_HEADER|] == DAILY_HEADER
      && rest == Concat(DailyScan(passes).lines) + if DailyScan(passes).lines == [] then NOT_SCHEDULED else ""
    ensures WeeklyText(passes).Ok? ==>
      && WeeklyText(passes).value[..|BANNER|] == BANNER
      && |WEEKLY_HEADER| <= |WeeklyText(passes).value|
      && WeeklyText(passes).value[..|WEEKLY_HEADER|] == WEEKLY_HEADER
      && WeeklyText(passes).value[|WEEKLY_HEADER|..] == Concat(WeeklyScan(passes).lines)
  {
    if DailyText(passes).Ok? {
      var m := DailyText(passes).value;
      var tail := Concat(DailyScan(passes).lines) + if DailyScan(passes).lines == [] then NOT_SCHEDULED else "";
      assert m == DAILY_HEADER + tail;
      assert m[..|DAILY_HEADER|] == DAILY_HEADER && m[|DAILY_HEADER|..] == tail;
      assert m[..|BANNER|] == DAILY_HEADER[..|BANNER|];
    }
    if WeeklyText(passes).Ok? {
      var m := WeeklyText(passes).value;
      var tail := Concat(WeeklyScan(passes).lines);
      assert m == WEEKLY_HEADER + tail;
      assert m[..|WEEKLY_HEADER|] == WEEKLY_HEADER && m[|WEEKLY_HEADER|..] == tail;
      assert m[..|BANNER|] == WEEKLY_HEADER[..|BANNER|];
    }
  }

  /** A run of lines that all begin with `p` concatenates to a text that
      begins with `p`. */
  lemma {:induction false} ConcatStartsWith(lines: seq<string>, p: string)
    requires lines != []
    requires forall j :: 0 <= j < |lines| ==> |p| <= |lines[j]| && lines[j][..|p|] == p
    ensures |p| <= |Concat(lines)| && Concat(lines)[..|p|] == p
    decreases |lines|
  {
    var init := lines[..|lines| - 1];
    if init == [] {
      assert Concat(lines) == Concat(init) + lines[0];
    } else {
      ConcatStartsWith(init, p);
      assert Concat(lines) == Concat(init) + lines[|lines| - 1];
      assert Concat(lines)[..|p|] == Concat(init)[..|p|];
    }
  }

  /** The daily message ends in the placeholder exactly when no event was
      listed, that is, when `event_tomorrow` stayed false. */
  lemma DailyPlaceholder(passes: seq<Pass>)
    requires DailyText(passes).Ok?
    ensures DailyText(passes).value == DAILY_HEADER + NOT_SCHEDULED <==> DailyScan(passes).lines == []
  {
    var lines := DailyScan(passes).lines;
    if lines != [] {
      DailyScanShape(passes);
      ConcatStartsWith(lines, "\n\t ");
      var c := Concat(lines);
      assert DailyText(passes).value == DAILY_HEADER + c;
      assert c[..3][2] == ' ' && NOT_SCHEDULED[2] == 'n';
      assert c != NOT_SCHEDULED;
      assert (DAILY_HEADER + c)[|DAILY_HEADER|..] == c;
      assert (DAILY_HEADER + NOT_SCHEDULED)[|DAILY_HEADER|..] == NOT_SCHEDULED;
    }
  }

  /** The start instant an event's page data gives. */
  function StartOf(m: map<string, Value>): int
    requires "starttime" in m && m["starttime"].Int?
  {
    m["starttime"].i
  }

  /** Every event formats and survives the shift back by `days` days, and
      every one inside the window can be described: a loop over them raises
      nothing. */
  predicate Clean(olds: seq<map<string, Value>>, days: nat, source: string, directions: Directions,
                  now: int) {
    forall j :: 0 <= j < |olds| ==>
      && Formattable(olds[j], source, directions)
      && ShiftConvertible(StartOf(olds[j]), days)
      && (Within(StartOf(olds[j]), now, days) ==> "shortstreet" in olds[j])
  }

  /** The start instants of the events. */
  function Starts(olds: seq<map<string, Value>>): (starts: seq<int>)
    requires forall j :: 0 <= j < |olds| ==> "starttime" in olds[j] && olds[j]["starttime"].Int?
    ensures |starts| == |olds| && forall j :: 0 <= j < |olds| ==> starts[j] == StartOf(olds[j])
  {
    seq(|olds|, j requires 0 <= j < |olds| => StartOf(olds[j]))
  }

  /** A clean event is listed exactly when it starts inside the window, with
      its local date and its description; `event_tostring` is not reached
      for an event outside it. */
  lemma ExamineClean(m: map<string, Value>, days: nat, source: string, directions: Directions, now: int)
    requires Formattable(m, source, directions) && ShiftConvertible(StartOf(m), days)
    requires Within(StartOf(m), now, days) ==> "shortstreet" in m
    ensures Examine(m, days, source, directions, now)
      == if Within(StartOf(m), now, days) then Take(DateText(StartOf(m)), Description(m, source, directions))
         else Skip
  {
    FormatSucceedsIff(m, source, directions);
    FormattedFields(m, source, directions);
    FormattedDescription(m, source, directions);
  }

  /** Each pass lists its event, with the given date and text, exactly
      when the event starts inside the window. */
  predicate Follows(passes: seq<Pass>, starts: seq<int>, dates: seq<string>, texts: seq<string>,
                    now: int, days: nat) {
    && |passes| == |starts| == |dates| == |texts|
    && forall j :: 0 <= j < |passes| ==>
         passes[j].step == if Within(starts[j], now, days) then Take(dates[j], texts[j]) else Skip
  }

  /** The daily loop over such passes lists the events `DailyCount` counts
      and formats one more when it stops early. */
  lemma {:induction false} DailyFollows(passes: seq<Pass>, starts: seq<int>, dates: seq<string>,
                                        texts: seq<string>, now: int, i: nat)
    requires Follows(passes, starts, dates, texts, now, 1) && i <= |passes|
    ensures var scan := DailyScan(passes[i..]);
      var k := DailyCount(starts[i..], now);
      && scan.error == None
      && scan.touched == (if k < |passes| - i then k + 1 else k)
      && |scan.lines| == k
      && forall x :: 0 <= x < k ==> scan.lines[x] == DailyLine(dates[i + x], texts[i + x])
    decreases |passes| - i
  {
    if i == |passes| {
      assert passes[i..] == [] && starts[i..] == [];
    } else {
      DailyScanStep(passes, i);
      assert starts[i..][0] == starts[i] && starts[i..][1..] == starts[i + 1..];
      if Within(starts[i], now, 1) {
        DailyFollows(passes, starts, dates, texts, now, i + 1);
        var rest := DailyScan(passes[i + 1..]);
        var scan := DailyScan(passes[i..]);
        assert scan.lines == [DailyLine(dates[i], texts[i])] + rest.lines;
        forall x | 1 <= x < |scan.lines|
          ensures scan.lines[x] == DailyLine(dates[i + x], texts[i + x])
        {
          assert scan.lines[x] == rest.lines[x - 1];
          assert i + 1 + (x - 1) == i + x;
        }
      }
    }
  }

  /** The weekly loop over such passes formats every event and lists the
      ones `Selected` picks, in order. */
  lemma {:induction false} WeeklyFollows(passes: seq<Pass>, starts: seq<int>, dates: seq<string>,
                                         texts: seq<string>, now: int, i: nat)
    requires Follows(passes, starts, dates, texts, now, 7) && i <= |passes|
    ensures var scan := WeeklyScan(passes[i..]);
      var sel := Selected(starts, now, 7, i);
      && scan.error == None
      && scan.touched == |passes| - i
      && |scan.lines| == |sel|
      && forall x :: 0 <= x < |sel| ==> scan.lines[x] == WeeklyLine(dates[sel[x]], texts[sel[x]])
    decreases |passes| - i
  {
    if i == |passes| {
      assert passes[i..] == [];
    } else {
      WeeklyScanStep(passes, i);
      WeeklyFollows(passes, starts, dates, texts, now, i + 1);
      var later := Selected(starts, now, 7, i + 1);
      if Within(starts[i], now, 7) {
        assert Selected(starts, now, 7, i) == [i] + later;
      } else {
        assert Selected(starts, now, 7, i) == later;
      }
    }
  }

  /** ... and so, over all of them, the leading run `DailyCount` counts. */
  lemma DailyFollowsAll(passes: seq<Pass>, starts: seq<int>, dates: seq<string>, texts: seq<string>, now: int)
    requires Follows(passes, starts, dates, texts, now, 1)
    ensures var scan := DailyScan(passes);
      var k := DailyCount(starts, now);
      && scan.error == None
      && scan.touched == (if k < |passes| then k + 1 else k)
      && |scan.lines| == k
      && forall x :: 0 <= x < k ==> scan.lines[x] == DailyLine(dates[x], texts[x])
  {
    DailyFollows(passes, starts, dates, texts, now, 0);
    assert passes[0..] == passes && starts[0..] == starts;
  }

  /** The local dates of the events' starts. */
  function Dates(olds: seq<map<string, Value>>): (dates: seq<string>)
    requires forall j :: 0 <= j < |olds| ==> "starttime" in olds[j] && olds[j]["starttime"].Int?
    ensures |dates| == |olds| && forall j :: 0 <= j < |olds| ==> dates[j] == DateText(StartOf(olds[j]))
  {
    seq(|olds|, j requires 0 <= j < |olds| => DateText(StartOf(olds[j])))
  }

  /** What `event_tostring` renders for each event that can be described. */
  function Texts(olds: seq<map<string, Value>>, source: string, directions: Directions): (texts: seq<string>)
    requires forall j :: 0 <= j < |olds| ==> Formattable(olds[j], source, directions)
    ensures |texts| == |olds|
    ensures forall j :: 0 <= j < |olds| && "shortstreet" in olds[j] ==>
      texts[j] == Description(olds[j], source, directions)
  {
    seq(|olds|, j requires 0 <= j < |olds| =>
      if "shortstreet" in olds[j] then Description(olds[j], source, directions) else "")
  }

  /** Clean events give passes that follow their schedule. */
  lemma CleanFollows(olds: seq<map<string, Value>>, days: nat, source: string, directions: Directions, now: int)
    requires Clean(olds, days, source, directions, now)
    ensures Follows(Passes(olds, days, source, directions, now), Starts(olds), Dates(olds),
                    Texts(olds, source, directions), now, days)
  {
    var passes := Passes(olds, days, source, directions, now);
    forall j | 0 <= j < |olds|
      ensures passes[j].step == if Within(Starts(olds)[j], now, days)
                                then Take(Dates(olds)[j], Texts(olds, source, directions)[j]) else Skip
    {
      ExamineClean(olds[j], days, source, directions, now);
    }
  }

  /** The daily loop lists the first `k` events and stops at the next, if
      any: every event up to that one formats and survives the shift back by
      a day, the first `k` start within the day and can be described, and
      the next starts later. */
  predicate DailyReach(olds: seq<map<string, Value>>, k: nat, source: string, directions: Directions,
                       now: int)
  {
    && k <= |olds|
    && forall j :: 0 <= j <= k && j < |olds| ==>
         && Formattable(olds[j], source, directions)
         && ShiftConvertible(StartOf(olds[j]), 1)
         && (Within(StartOf(olds[j]), now, 1) <==> j < k)
         && (j < k ==> "shortstreet" in olds[j])
  }

  /** The events the daily loop reaches meet its condition on their own. */
  lemma DailyReachPrefix(olds: seq<map<string, Value>>, k: nat, source: string, directions: Directions,
                         now: int, r: nat)
    requires DailyReach(olds, k, source, directions, now)
    requires r == if k < |olds| then k + 1 else k
    ensures DailyReach(olds[..r], k, source, directions, now)
    ensures forall j :: 0 <= j < r ==> olds[..r][j] == olds[j]
  {
  }

  /** Over events that the daily loop reaches to the last, listing the
      leading `k` inside the day: `k` is the `DailyCount` of their starts. */
  lemma DailyFollowsReached(olds: seq<map<string, Value>>, source: string, directions: Directions,
                            now: int, k: nat)
    requires k == |olds| || k + 1 == |olds|
    requires DailyReach(olds, k, source, directions, now)
    ensures var scan := DailyScan(Passes(olds, 1, source, directions, now));
      && scan.error == None
      && scan.touched == |olds|
      && k == DailyCount(Starts(olds), now)
      && |scan.lines| == k
      && forall x :: 0 <= x < k ==>
           scan.lines[x] == DailyLine(DateText(StartOf(olds[x])), Description(olds[x], source, directions))
  {
    DailyReachClean(olds, k, source, directions, now);
    CleanFollows(olds, 1, source, directions, now);
    DailyFollowsAll(Passes(olds, 1, source, directions, now), Starts(olds), Dates(olds),
                    Texts(olds, source, directions), now);
  }

  /** Over the events the daily loop reaches, its condition is their being
      clean, with the first `k` inside the day and the rest outside. */
  lemma DailyReachClean(olds: seq<map<string, Value>>, k: nat, source: string, directions: Directions,
                        now: int)
    requires k == |olds| || k + 1 == |olds|
    requires DailyReach(olds, k, source, directions, now)
    ensures Clean(olds, 1, source, directions, now)
    ensures k == DailyCount(Starts(olds), now)
  {
    DailyCountIs(Starts(olds), now, k);
  }

  /** The passes over a prefix of the events are that prefix of the passes. */
  lemma PassesPrefix(olds: seq<map<string, Value>>, days: nat, source: string, directions: Directions,
                     now: int, r: nat)
    requires r <= |olds|
    ensures Passes(olds[..r], days, source, directions, now) == Passes(olds, days, source, directions, now)[..r]
  {
  }

  /** The daily loop reaches the events up to its `break`. When the `k`
      events it lists start within a day and can be described, and the one
      it stops at, if any, formats and starts outside the day, the message
      lists exactly those `k`, each with its local date and description,
      and raises nothing, whatever the events after the stop hold. */
  lemma DailyFollowsSchedule(olds: seq<map<string, Value>>, source: string, directions: Directions,
                             now: int, k: nat)
    requires DailyReach(olds, k, source, directions, now)
    ensures var scan := DailyScan(Passes(olds, 1, source, directions, now));
      && scan.error == None
      && scan.touched == (if k < |olds| then k + 1 else k)
      && |scan.lines| == k
      && forall x :: 0 <= x < k ==>
           scan.lines[x] == DailyLine(DateText(StartOf(olds[x])), Description(olds[x], source, directions))
  {
    var r := if k < |olds| then k + 1 else k;
    DailyReachPrefix(olds, k, source, directions, now, r);
    DailyFollowsReached(olds[..r], source, directions, now, k);
    PassesPrefix(olds, 1, source, directions, now, r);
    DailyScanReached(Passes(olds, 1, source, directions, now), r);
  }

  /** For clean events the weekly message lists, for each event starting
      within a week, its local date and its description, and raises
      nothing. */
  lemma WeeklyFollowsSchedule(olds: seq<map<string, Value>>, source: string, directions: Directions, now: int)
    requires Clean(olds, 7, source, directions, now)
    ensures var scan := WeeklyScan(Passes(olds, 7, source, directions, now));
      var sel := Selected(Starts(olds), now, 7, 0);
      && scan.error == None
      && |scan.lines| == |sel|
      && forall x :: 0 <= x < |sel| ==>
           scan.lines[x] == WeeklyLine(DateText(StartOf(olds[sel[x]])), Description(olds[sel[x]], source, directions))
  {
    var passes := Passes(olds, 7, source, directions, now);
    CleanFollows(olds, 7, source, directions, now);
    WeeklyFollows(passes, Starts(olds), Dates(olds), Texts(olds, source, directions), now, 0);
    assert passes[0..] == passes;
  }

  /** A pass that does not abort formats its event, survives the shift and,
      when it lists the event, finds `shortstreet`; it lists exactly the
      events inside the window. */
  lemma NoAbortClean(m: map<string, Value>, days: nat, source: string, directions: Directions, now: int)
    requires !Examine(m, days, source, directions, now).Abort?
    ensures Formattable(m, source, directions) && ShiftConvertible(StartOf(m), days)
    ensures Within(StartOf(m), now, days) ==> "shortstreet" in m
    ensures Examine(m, days, source, directions, now).Take? <==> Within(StartOf(m), now, days)
  {
    ExamineObserved(m, days, source, directions, now);
    FormatSucceedsIff(m, source, directions);
    FormattedFields(m, source, directions);
    FormatResult(m, source, directions);
    EnrichedDescription(m, source, directions);
  }

  /** Every weekly message the builder returns comes from clean events, so
      `WeeklyFollowsSchedule` describes each of them. */
  lemma WeeklyOkClean(olds: seq<map<string, Value>>, source: string, directions: Directions, now: int)
    requires WeeklyMessage(olds, source, directions, now).Ok?
    ensures Clean(olds, 7, source, directions, now)
  {
    var passes := Passes(olds, 7, source, directions, now);
    WeeklyScanShape(passes);
    forall j | 0 <= j < |olds|
      ensures && Formattable(olds[j], source, directions)
              && ShiftConvertible(StartOf(olds[j]), 7)
              && (Within(StartOf(olds[j]), now, 7) ==> "shortstreet" in olds[j])
    {
      assert passes[j].step == Examine(olds[j], 7, source, directions, now);
      NoAbortClean(olds[j], 7, source, directions, now);
    }
  }

  /** Every daily message the builder returns comes from events that meet
      `DailyReach` for the number of lines it lists, so
      `DailyFollowsSchedule` describes each of them. */
  lemma DailyOkReach(olds: seq<map<string, Value>>, source: string, directions: Directions, now: int)
    requires DailyMessage(olds, source, directions, now).Ok?
    ensures DailyReach(olds, |DailyScan(Passes(olds, 1, source, directions, now)).lines|,
                       source, directions, now)
  {
    var passes := Passes(olds, 1, source, directions, now);
    var k := |DailyScan(passes).lines|;
    DailyOkSteps(passes);
    forall j | 0 <= j <= k && j < |olds|
      ensures && Formattable(olds[j], source, directions)
              && ShiftConvertible(StartOf(olds[j]), 1)
              && (Within(StartOf(olds[j]), now, 1) <==> j < k)
              && (j < k ==> "shortstreet" in olds[j])
    {
      var step := Examine(olds[j], 1, source, directions, now);
      assert step == passes[j].step;
      assert step.Take? <==> j < k;
      NoAbortClean(olds[j], 1, source, directions, now);
    }
  }

  /** A daily scan without an exception takes its leading passes and skips
      the one it stops at. */
  lemma DailyOkSteps(passes: seq<Pass>)
    requires DailyText(passes).Ok?
    ensures var k := |DailyScan(passes).lines|;
      && k <= |passes|
      && (forall j :: 0 <= j < k ==> passes[j].step.Take?)
      && (k < |passes| ==> passes[k].step.Skip?)
  {
    DailyScanShape(passes);
  }
}
