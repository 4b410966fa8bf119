/** Which events the two message builders list, in terms of the events'
    start instants alone: the daily one takes the longest leading run of
    events starting within a day of now, the weekly one every event
    starting within a week of now, in page order. */
module Schedule {
  import opened TimeFormat

  /** `start_datetime - timedelta(days=days) < now`; aware datetimes compare
      as instants. */
  predicate Within(start: int, now: int, days: nat) {
    start - days * SECONDS_PER_DAY < now
  }

  predicate Ascending(starts: seq<int>) {
    forall i, j :: 0 <= i < j < |starts| ==> starts[i] <= starts[j]
  }

  /** How many events the daily loop lists before its `break`. */
  function DailyCount(starts: seq<int>, now: int): (k: nat)
    ensures k <= |starts|
    ensures forall j :: 0 <= j < k ==> Within(starts[j], now, 1)
    ensures k < |starts| ==> !Within(starts[k], now, 1)
    decreases |starts|
  {
    if starts == [] || !Within(starts[0], now, 1) then 0
    else 1 + DailyCount(starts[1..], now)
  }

  /** `DailyCount` is the one length with every event before it inside the
      window and the event at it, if any, outside. */
  lemma DailyCountIs(starts: seq<int>, now: int, k: nat)
    requires k <= |starts|
    requires forall j :: 0 <= j < k ==> Within(starts[j], now, 1)
    requires k < |starts| ==> !Within(starts[k], now, 1)
    ensures DailyCount(starts, now) == k
  {
  }

  /** The positions from `i` on whose events the weekly loop lists. */
  function Selected(starts: seq<int>, now: int, days: nat, i: nat): (idx: seq<nat>)
    requires i <= |starts|
    ensures forall x :: 0 <= x < |idx| ==> i <= idx[x] < |starts| && Within(starts[idx[x]], now, days)
    ensures forall x, y :: 0 <= x < y < |idx| ==> idx[x] < idx[y]
    ensures forall j :: i <= j < |starts| && Within(starts[j], now, days) ==> j in idx
    decreases |starts| - i
  {
    if i == |starts| then []
    else (if Within(starts[i], now, days) then [i] else []) + Selected(starts, now, days, i + 1)
  }

  /** A wider window lets through every event a narrower one does. */
  lemma WithinWider(start: int, now: int, narrow: nat, wide: nat)
    requires narrow <= wide
    ensures Within(start, now, narrow) ==> Within(start, now, wide)
  {
    assert narrow * SECONDS_PER_DAY <= wide * SECONDS_PER_DAY;
  }

  /** Every position the daily rule takes, the seven-day selection takes. */
  lemma DailyInWeekly(starts: seq<int>, now: int)
    ensures forall j :: 0 <= j < DailyCount(starts, now) ==> j in Selected(starts, now, 7, 0)
  {
    forall j | 0 <= j < DailyCount(starts, now)
      ensures j in Selected(starts, now, 7, 0)
    {
      WithinWider(starts[j], now, 1, 7);
    }
  }

  /** When the events come in order of start, the `break` loses nothing:
      the daily loop lists exactly the events starting within a day. */
  lemma AscendingDailyIsWindow(starts: seq<int>, now: int)
    requires Ascending(starts)
    ensures forall j :: 0 <= j < |starts| ==> (Within(starts[j], now, 1) <==> j < DailyCount(starts, now))
  {
    var k := DailyCount(starts, now);
    forall j | 0 <= j < |starts| && k <= j
      ensures !Within(starts[j], now, 1)
    {
      assert starts[k] <= starts[j];
    }
  }

  /** Nothing is selected from a stretch with no event in the window. */
  lemma {:induction false} NoneSelected(starts: seq<int>, now: int, days: nat, i: nat)
    requires i <= |starts|
    requires forall j :: i <= j < |starts| ==> !Within(starts[j], now, days)
    ensures Selected(starts, now, days, i) == []
    decreases |starts| - i
  {
    if i < |starts| {
      NoneSelected(starts, now, days, i + 1);
    }
  }

  /** The positions `i`, `i + 1`, ..., `k - 1`. */
  function Range(i: nat, k: nat): (r: seq<nat>)
    ensures |r| == if i <= k then k - i else 0
    ensures forall x :: 0 <= x < |r| ==> r[x] == i + x
    decreases k - i
  {
    if k <= i then [] else [i] + Range(i + 1, k)
  }

  /** ... so for ordered events the daily positions are what a one-day
      selection gives. */
  lemma {:induction false} AscendingDailySelected(starts: seq<int>, now: int, i: nat)
    requires Ascending(starts) && i <= DailyCount(starts, now)
    ensures Selected(starts, now, 1, i) == Range(i, DailyCount(starts, now))
    decreases |starts| - i
  {
    var k := DailyCount(starts, now);
    if i == k {
      AscendingDailyIsWindow(starts, now);
      NoneSelected(starts, now, 1, i);
    } else {
      AscendingDailySelected(starts, now, i + 1);
      var rest := Selected(starts, now, 1, i + 1);
      assert Within(starts[i], now, 1);
      assert Selected(starts, now, 1, i) == [i] + rest;
    }
  }
}
