# EmpanadaBot finder, modelled in Dafny

`finder.py` scrapes the StreetFoodFinder page of The Naked Empanada food truck,
reads the truck's calendar from a JavaScript variable, enriches every event with
local times and a driving route, and posts either a "daily" or a "weekly"
message to Discord. This project models the part of it that decides what the
message says:

- **`get_events`, extraction** (`Extract`). The page's `<script>` texts are
  searched for `sff\.v\.vendor_locations = (.*);`. The capture runs greedily up
  to the last `;` on the line. The last script that matches wins, every `null`
  becomes `""`, and an empty result exits with status 1.
- **`format_event`** (`Events.Event.Format`). The event dictionary is updated
  in place:
  - `start_datetime` is the start instant at the fixed zone UTC−4;
  - `date` and `starttime` come from splitting its `%m/%d %H:%M` rendering;
  - `endtime` becomes its `%H:%M`;
  - `distance` and `traveltime` come from the first leg of a route.
  
  A failing step raises and leaves the earlier updates in place, exactly as
  the script does.
- **Time rendering** (`Civil`, `TimeFormat`). `fromtimestamp` at UTC−4 and the
  `strftime` fields are built from a reference day numbering of the proleptic
  Gregorian calendar, with its inverse proved.
- **`event_tostring`** (`Events.EventToString`). The one-line description. It
  raises `KeyError` for a missing key, checking keys in f-string order.
- **`build_daily_message` / `build_weekly_message`** (`Messages`). Both are
  loops over a sequence of `Event` objects that they format in place.
  - Daily lists events while they start within a day of `now`. It `break`s at
    the first that does not, and adds `"\n\tnot scheduled :("` when it listed
    nothing.
  - Weekly lists every event that starts within seven days, in page order.
- **`Schedule`**. The same selection rules stated over start instants alone.

How the pieces fit:

- The builders are proved against `DailyText` / `WeeklyText` of the *passes*
  over the events as they were. A pass is the outcome of one loop iteration:
  the step taken and the dictionary left behind.
- Each builder sets up its passes and hands the `for` loop to `DailyLoop` /
  `WeeklyLoop`. One iteration of that loop is `DailyPass` / `WeeklyPass`, which
  formats the event through the shared `Visit`. The daily loop's `break`, and
  an exception leaving either loop, end the `while` through its condition.
- `PassesOfIff` ties those passes to `Passes`, a function of the original
  dictionaries, so `DailyMessage`/`WeeklyMessage` give the builders' results as
  functions of their input.
- `DailyScanShape`, `WeeklyScanShape`, `DailyPlaceholder` and `MessageLayout`
  characterise those results.
- `DailyFollowsSchedule` and `WeeklyFollowsSchedule` connect them to
  `Schedule` for events that format cleanly. The daily one asks this only of
  the events its loop reaches. `DailyOkReach` and `WeeklyOkClean` show that
  every message the builders return meets those conditions.

Modules: `Failures` (option, error and result types), `Text` (digits, padding,
`str.split`, concatenation), `Civil`, `TimeFormat`, `Events`, `Extract`,
`Schedule`, `Messages`; one file each.

## Model

| member | source | states |
|---|---|---|
| Civil.CivilFromDays | finder.py:89-91 | the date of a day number is a valid proleptic Gregorian date whose reference number is that day |
| Civil.CivilRoundTrip | finder.py:89-91 | numbering a valid date and converting back gives the same date |
| Civil.DaysFromCivilInjective | finder.py:89-91 | distinct valid dates have distinct day numbers |
| Civil.NextYear | finder.py:89-91 | each year adds 366 days when it is a leap year under the Gregorian rule, else 365 |
| Civil.DayInRangeIff | finder.py:89-91 | a day number lies between 0001-01-01 and 9999-12-31 exactly when its year is 1..9999, the range `datetime` accepts |
| Text.ZeroPad | finder.py:93-97 | the zero-padded decimal digits `strftime` writes: at least the width, and only digits |
| Text.IntText | finder.py:115-118 | `str()` of an integer, never empty |
| Text.IntTextValue | finder.py:115-118 | the text is `n` in decimal: its digits read back as `n`, behind a `-` exactly when `n` is negative, with no leading zero except in `"0"` |
| Text.Split | finder.py:93 | `str.split()` with no separator: the maximal runs of non-space characters (see `SplitTwoWords`) |
| Text.ZeroPadRoundTrip | finder.py:93 | reading a zero-padded rendering back gives the number |
| Text.ZeroPadWidth | finder.py:93 | a number below 10^w is padded to exactly w digits |
| Text.SplitTwoWords | finder.py:92-94 | `split()` of two non-empty space-free words joined by one space gives exactly those two words |
| TimeFormat.Convertible | finder.py:89-91 | `fromtimestamp` at UTC−4 succeeds exactly when both the UTC and the local date fall in years 1..9999 (see `Civil.DayInRangeIff`) |
| TimeFormat.ShiftConvertible | finder.py:132-134 | `start_datetime - timedelta(days=n)` raises `OverflowError` exactly when the local date `n` days earlier is before 0001-01-01 |
| TimeFormat.DateText | finder.py:93 | `%m/%d` of the local date (see `DateTextRoundTrip`) |
| TimeFormat.ClockText | finder.py:93-97 | `%H:%M` of the local time (see `ClockTextRoundTrip`) |
| TimeFormat.StartStamp | finder.py:93 | `%m/%d %H:%M`, the rendering that is split (see `StartStampSplits`) |
| TimeFormat.IsoText | finder.py:115-118 | `str()` of the zoned start, `YYYY-MM-DD HH:MM:SS-04:00` |
| TimeFormat.LocalFields | finder.py:89-91 | the local date, hour, minute and second are in range and recompose to the instant shifted by −4 h |
| TimeFormat.Pad2 | finder.py:93 | a two-digit field is exactly two decimal digits |
| TimeFormat.DateTextRoundTrip | finder.py:92-94 | `%m/%d` is five characters that read back as the local month and day |
| TimeFormat.ClockTextRoundTrip | finder.py:92-97 | `%H:%M` is five characters that read back as the local hour (0..23) and minute (0..59) |
| TimeFormat.StartStampSplits | finder.py:92-94 | splitting the `%m/%d %H:%M` rendering always gives exactly the date and the clock, so the unpacking never fails |
| TimeFormat.ExampleInstant | finder.py:89-94 | instant 1700000000 converts and renders as "11/14" and "18:13" (local day 2023-11-14, 18:13 at UTC−4; its steps: `ExampleDate`, `ExampleClock`, `ExamplePads`, `ExampleConvertible`, `ExampleDateText`, `ExampleClockText`) |
| Events.ReadInstant | finder.py:89-97 | reading an instant succeeds exactly when the key is present, holds an integer and that integer converts, and then gives that integer |
| Events.Event.Format | finder.py:85-108 | the dictionary and the exception after `format_event` are those of `FormatFields` on the dictionary before |
| Events.FormatSucceedsIff | finder.py:85-108 | `format_event` raises nothing exactly when both times are convertible integers, `streetaddress` is present and the directions service gives a route (built step by step from `StoreStartOutcome`, `RenderEndOutcome`, `AddRouteOutcome`) |
| Events.FormatResult | finder.py:85-108 | a successful `format_event` leaves exactly the closed-form enriched dictionary |
| Events.FormattedFields | finder.py:89-107 | after success: keys are the old ones plus the four added; `start_datetime`, `date`, `starttime`, `endtime`, `distance`, `traveltime` hold the rendered values; every other key is unchanged |
| Events.EnrichedFields | finder.py:89-107 | the enriched dictionary holds the rendered values and keeps every key it does not write |
| Events.EnrichedKeys | finder.py:89-107 | the enriched dictionary's keys are the old ones plus the four added, and unwritten keys keep their values |
| Events.FormatTouchesOnlyItsKeys | finder.py:85-108 | whether or not it raises, `format_event` only adds keys among the four and changes no key it does not write (built step by step from `StoreStartKeys`, `RenderEndKeys`, `AddRouteKeys`) |
| Events.Show | finder.py:115-118 | `str()` of a value as an f-string substitutes it: strings as they are, integers in decimal, a stored `start_datetime` in ISO form |
| Events.FormatFields | finder.py:85-108 | `format_event` step by step: read the start, store it, split its rendering, render the end, add the route; an exception keeps the updates made before it (characterised by `FormatSucceedsIff`, `FormatResult`, `FormatTouchesOnlyItsKeys`) |
| Events.StoreStart | finder.py:92-94 | the unpacking of the split start rendering into `date` and `starttime`, raising when it does not give two words |
| Events.RenderEnd | finder.py:95-97 | `endtime` read as an instant and replaced by its `%H:%M` rendering |
| Events.AddRoute | finder.py:99-107 | the directions request from `source` to `streetaddress` at the start instant, and the first leg's distance and duration stored |
| Events.EventToString | finder.py:111-118 | the description is produced exactly when `shortstreet`, `distance`, `traveltime`, `starttime` and `endtime` are all present; otherwise a `KeyError` naming a missing one of them |
| Events.Description | finder.py:115-118 | the description of a formatted event in terms of the original event and its route (see `FormattedDescription`) |
| Events.EnrichedDescription | finder.py:111-118 | on the enriched dictionary the description exists exactly when `shortstreet` does, and is `"@ shortstreet, distance (traveltime) away. Event from HH:MM to HH:MM"` |
| Events.FormattedDescription | finder.py:85-118 | formatting then describing an event gives that text, failing only without `shortstreet` |
| Events.DescriptionEndsWithTimes | finder.py:116-117 | the last fourteen characters of a description read back as the local start and end hour and minute |
| Extract.LineEnd | finder.py:74 | the end of the current line: no newline before it, a newline or the end of the text at it |
| Extract.LastSemicolon | finder.py:74 | the last `;` in a stretch, or none at all |
| Extract.MatchEnd | finder.py:74 | where the pattern anchored at a position ends: a `;` on the same line reachable by `.*`, the last such one |
| Extract.SearchFrom | finder.py:74 | the leftmost position where the pattern matches, and none before it |
| Extract.Find | finder.py:74-75 | `search` fails exactly when no position and no `;` form a match |
| Extract.FindCapture | finder.py:74-76 | a found capture is the text between the leftmost matching prefix and the last `;` its line allows |
| Extract.FindAssignment | finder.py:74-76 | for a script opening with `sff.v.vendor_locations = body;` the capture is exactly `body`, inner `;`s included, and nothing of later lines |
| Extract.ReplaceNull | finder.py:76-78 | the replaced text is empty exactly when the capture is |
| Extract.ReplaceNullRemovesAll | finder.py:76 | no `null` is left after the replacement |
| Extract.ReplaceNullKeeps | finder.py:76 | a text without `null` is left as it is |
| Extract.ReplaceNullIdentityIff | finder.py:76 | the replacement changes the text exactly when it holds a `null` |
| Extract.ReplaceNullIdempotent | finder.py:76 | replacing twice is replacing once |
| Extract.ScriptCapture | finder.py:73-75 | a script contributes only when its `tag.string` is present and non-empty (`if tag.string:`), and then what the search captures |
| Extract.ReplaceNullStep | finder.py:76 | the first `null` after a stretch without one becomes `""`, the stretch before it kept and the rest replaced in turn |
| Extract.LastMatch | finder.py:72-76 | the position of the last script with a capture, after which none has one, or none at all |
| Extract.ExtractEventsOutcome | finder.py:71-80 | exit 1 with the diagnostic exactly when no script matches or the last match captured nothing; otherwise the last capture with every `null` replaced |
| Extract.EventsString | finder.py:71-76 | `events_string` after the loop: the last capture with `null` replaced, or empty when no script matched |
| Extract.ExtractEvents | finder.py:71-82 | the string handed to `json.loads`, or exit 1 when it is empty (characterised by `ExtractEventsOutcome`) |
| Extract.EventsStringStep | finder.py:72-76 | one more script: a capture of its own replaces `events_string`, otherwise it stays |
| Extract.GetEvents | finder.py:71-80 | the loop over the scripts returns what `ExtractEvents` gives |
| Schedule.DailyCount | finder.py:130-138 | the length of the longest leading run of events starting within a day of now |
| Schedule.Selected | finder.py:152-157 | the increasing positions of exactly the events starting within the window |
| Schedule.Within | finder.py:132-134 | the window test `start - timedelta(days=n) < now`, on epoch seconds |
| Schedule.DailyCountIs | finder.py:130-138 | `DailyCount` is the one length with every event before it inside the day and the event at it, if any, outside |
| Schedule.DailyInWeekly | finder.py:130-157 | every position the daily rule takes, the seven-day selection takes |
| Schedule.AscendingDailyIsWindow | finder.py:130-138 | for events in order of start, the daily run is exactly the events starting within a day |
| Schedule.NoneSelected | finder.py:152-157 | nothing is selected from a stretch without events in the window |
| Schedule.AscendingDailySelected | finder.py:130-138 | for events in order of start, the daily positions are what a one-day filter selects |
| Messages.Examine | finder.py:131-136 | one iteration's outcome: the exception `format_event` raised, `OverflowError` when the shifted start leaves the calendar, skip outside the window, a `KeyError` from `event_tostring`, or the date and description to list (see `ExamineClean`) |
| Messages.DailyScan | finder.py:130-138 | the daily loop over the passes: list while the event is taken, stop at the first that is not, with its exception if any (see `DailyScanShape`, `DailyScanStops`) |
| Messages.WeeklyScan | finder.py:152-157 | the weekly loop over the passes: skip events outside the window, stop only at an exception (see `WeeklyScanShape`) |
| Messages.DailyText | finder.py:125-141 | the daily header, the listed lines and the placeholder when none, or the exception (see `DailyPlaceholder`, `MessageLayout`) |
| Messages.WeeklyText | finder.py:148-158 | the weekly header and the listed lines, or the exception (see `MessageLayout`) |
| Messages.DailyMessage | finder.py:121-141 | `build_daily_message` as a function of the events' original dictionaries (tied to the method by `BuildDailyMessage` and `PassesOfIff`) |
| Messages.WeeklyMessage | finder.py:144-158 | `build_weekly_message` as a function of the events' original dictionaries (tied to the method by `BuildWeeklyMessage` and `PassesOfIff`) |
| Messages.PassesOfIff | finder.py:130-157 | the builders' passes are exactly `Passes` of the original dictionaries |
| Messages.Visit | finder.py:131-157 | one loop iteration formats the event in place and takes the pass's step |
| Messages.DailyPass | finder.py:131-138 | one daily iteration: the event is formatted in place; either its line is appended and the message stays the header plus the lines so far, or the loop ends here with the exception or the `break` the scan predicts |
| Messages.DailyLoop | finder.py:129-138 | the loop ends where `DailyScan` of the passes ends, with the lines it lists, the exception it raised and the count of formatted events; `event_tomorrow` holds exactly when a line was listed |
| Messages.WeeklyPass | finder.py:153-157 | one weekly iteration: the event is formatted in place; its line is appended when inside the window, or the loop ends with the exception the scan predicts |
| Messages.WeeklyLoop | finder.py:152-157 | the loop ends where `WeeklyScan` of the passes ends, with the lines it lists and the exception it raised, the events it reached formatted and the rest untouched |
| Messages.BuildDailyMessage | finder.py:121-141 | returns `DailyText` of the passes; the events up to where the loop stopped are formatted, later ones untouched |
| Messages.BuildWeeklyMessage | finder.py:144-158 | returns `WeeklyText` of the passes; every event up to an exception is formatted, later ones untouched |
| Messages.DailyScanShape | finder.py:130-138 | the daily lines are the leading listed events, each `"\n\t " + date + " " + text`; the loop stops at the first event not listed, which is formatted too, and raises only there |
| Messages.DailyScanStops | finder.py:130-138 | once the daily loop stops before the end, passes that agree up to the stop give the same scan: later events play no part |
| Messages.WeeklyScanShape | finder.py:152-157 | the weekly loop runs to the end unless an iteration raises, which is the last one it formats |
| Messages.DailyPlaceholder | finder.py:129-140 | the daily message is the header plus placeholder exactly when no event was listed |
| Messages.MessageLayout | finder.py:125-151 | each message starts with its banner and heading, followed by the listed lines (and the daily placeholder) |
| Messages.ExamineClean | finder.py:131-136 | for an event that formats, survives the shift and, when inside the window, has `shortstreet`, the iteration lists it exactly when it starts in the window, with its local date and description |
| Messages.CleanFollows | finder.py:130-157 | every pass over such events lists its event exactly when it starts in the window |
| Messages.DailyFollows | finder.py:130-138 | over such passes the daily loop lists the events `DailyCount` counts, formatting one more when it stops early |
| Messages.DailyFollowsAll | finder.py:130-138 | the same from the first event |
| Messages.WeeklyFollows | finder.py:152-157 | over such passes the weekly loop formats every event and lists exactly those `Selected` gives, in order |
| Messages.DailyReachClean | finder.py:130-138 | over the events the daily loop reaches, its condition makes them clean and fixes `DailyCount` at the number listed |
| Messages.DailyFollowsReached | finder.py:130-138 | over the events the daily loop reaches, it lists the `DailyCount` leading ones with their local date and description, formats all of them and raises nothing |
| Messages.DailyFollowsSchedule | finder.py:121-141 | when the events up to the stop format and survive the shift, the first `k` start within a day and have `shortstreet` and the next starts later, the daily message lists each of those `k` with its local date and description and raises nothing, whatever the later events hold |
| Messages.NoAbortClean | finder.py:131-136 | an iteration that raises nothing had an event that formats and survives the shift, finds `shortstreet` when inside the window, and lists it exactly when it is inside |
| Messages.WeeklyOkClean | finder.py:144-158 | every weekly message the builder returns comes from events meeting the condition of `WeeklyFollowsSchedule` |
| Messages.DailyOkSteps | finder.py:130-138 | a daily loop without an exception takes its leading events and skips the one it stops at |
| Messages.DailyOkReach | finder.py:121-141 | every daily message the builder returns comes from events meeting the condition of `DailyFollowsSchedule`, with `k` the number of lines listed |
| Messages.WeeklyFollowsSchedule | finder.py:144-158 | when every event formats and survives the shift, and every one inside the week has `shortstreet`, the weekly message lists each event starting within a week with its local date and description in page order, and raises nothing |

## Left out

- HTTP fetching (`requests.get`) and HTML parsing. The model starts from the page's `<script>` texts, each given as its `tag.string`. `None` stands for a tag without a single text child.
- `json.loads`. The model stops at the extracted string; events are given as dictionaries whose values are strings, integers or other decoded JSON values.
- The Google Maps directions call. It is a function parameter from origin, address value and departure instant to an optional route. An empty result list is modelled as `NoRoute`, where the script would raise `IndexError`. Malformed responses are not modelled.
- The Discord webhook, `print`, `sys.exit` (an `Exit(1, message)` error instead), argparse, API-key reading and `main`. These are I/O and command-line plumbing.
- `datetime.now`. `now` is an integer epoch-second parameter, read once per builder. The script reads the clock again in every iteration, after that iteration's directions request, so its window moves forward during the loop; an event that the window reaches only while the loop runs is not modelled.
- Aliased events. Both builders require the `Event` objects to be distinct, which holds for what `json.loads` returns. With one dictionary listed twice, the script would format it a second time and raise `TypeError` reading its `starttime`, which is then a string; that run is not modelled.
- Fractional and boolean timestamps. Only integers are accepted; anything else raises `TypeError`.
- General regular-expression matching. Only the one pattern is modelled.
- Unicode whitespace in `str.split`. Only ASCII whitespace and the separators 28–31 count as spaces.
- Python's `datetime` internals. Dates come from a reference day numbering, not CPython's `ord2ymd`.
- Exact library errors. `fromtimestamp` fails outside years 1..9999 in UTC or local time (`TimestampOutOfRange`), and subtracting a timedelta fails when the local date drops below year 1 (`DateOverflow`).
- Schedule.DailyInWeekly: it is stated over start instants. For the messages themselves the weekly loop formats every event and can raise on one the daily loop never reached, so the weekly message need not list what the daily one does.
- Messages.BuildDailyMessage: the passes it returns are ghost. The result is a function of the input events only through `PassesOfIff` and `DailyMessage`.
- Messages.BuildWeeklyMessage: the same as for the daily builder, with `WeeklyMessage`.
