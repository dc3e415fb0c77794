/** The data service's log computations: its single-predicate `filterLogs`, its
    `calculateWorkHours` over all dates, and its `calculateDailyWorkHoursMap`,
    whose walk reopens the clock on every lunch-end and clamps each segment at
    zero minutes. Times are the punches' milliseconds within their date; the days
    are put in the order of `time.localeCompare`, which is `LexKey` order. */
module Service {
  import opened Common
  import opened Text
  import opened Clock
  import opened Attendance
  import Helpers
  import HelpersHours

  /** `filterLogs` (service version): the logs matching employee, date bounds and
      type, in input order. An absent employee id matches no log. */
  function FilterLogs(logs: seq<Log>, employeeId: Option<string>, start: string, end: string, kindFilter: string): seq<Log>
  {
    Filter(logs, (l: Log) => LogMatches(l, employeeId, start, end, kindFilter))
  }

  /** The filter keeps, in order, exactly the logs that match. */
  lemma FilterLogsSelects(logs: seq<Log>, employeeId: Option<string>, start: string, end: string, kindFilter: string)
    ensures var r := FilterLogs(logs, employeeId, start, end, kindFilter);
      && IsSubsequence(r, logs)
      && (forall l :: l in r <==> l in logs && LogMatches(l, employeeId, start, end, kindFilter))
      && forall l :: multiset(r)[l] == if LogMatches(l, employeeId, start, end, kindFilter) then multiset(logs)[l] else 0
  {
    var p := (l: Log) => LogMatches(l, employeeId, start, end, kindFilter);
    FilterMultiset(logs, p);
    FilterIsSubsequence(logs, p);
    FilterMembers(logs, p);
    var r := Filter(logs, p);
    assert forall i :: 0 <= i < |r| ==> p(r[i]);
  }

  /** With no employee id ("all employees" passed as `undefined`) nothing is kept. */
  lemma NoEmployeeKeepsNothing(logs: seq<Log>, start: string, end: string, kindFilter: string)
    ensures FilterLogs(logs, None, start, end, kindFilter) == []
  {
    FilterNone(logs, (l: Log) => LogMatches(l, None, start, end, kindFilter));
  }

  /** For a given employee the service filter and the utilities' chain of filters
      keep the same logs in the same order. */
  lemma SameAsHelpersFilter(logs: seq<Log>, employeeId: string, start: string, end: string, kindFilter: string)
    ensures FilterLogs(logs, Some(employeeId), start, end, kindFilter)
      == Helpers.FilterLogs(logs, employeeId, start, end, kindFilter)
  {
    Helpers.FilterLogsSelects(logs, employeeId, start, end, kindFilter);
  }

  /** The order `time.localeCompare` sorts a day's punches in. */
  function TimeKey(l: Log): int { LexKey(l.time) }

  /** The punches of `date`, sorted by time text (stably). */
  function SortedDay(logs: seq<Log>, date: string): seq<Log>
  {
    SortBy(OnDate(logs, LogDate, date), TimeKey)
  }

  /** `Math.floor((to - from) / (1000 * 60))`. */
  function ElapsedMinutes(from: int, to: int): int
  {
    (to - from) / 60000
  }

  /** The walks' variables `checkInTime`, `lunchStartTime` and the minutes counted. */
  datatype WalkState = WalkState(checkInTime: Option<int>, lunchStartTime: Option<int>, total: int)

  const Fresh := WalkState(None, None, 0)

  /** One punch of `calculateDailyWorkHoursMap`'s walk at time `t`: a check-in or
      a lunch-end opens a segment at `t` and forgets the lunch; a lunch-start or a
      check-out closes an open segment, adding its whole minutes but never less
      than zero, and is ignored when none is open. */
  function DailyStep(st: WalkState, kind: Kind, t: int): WalkState
  {
    match kind
    case CheckIn => WalkState(Some(t), None, st.total)
    case LunchStart =>
      if st.checkInTime.Some? then WalkState(None, Some(t), st.total + Max0(ElapsedMinutes(st.checkInTime.value, t)))
      else st
    case LunchEnd => WalkState(Some(t), None, st.total)
    case CheckOut =>
      if st.checkInTime.Some? then st.(checkInTime := None, total := st.total + Max0(ElapsedMinutes(st.checkInTime.value, t)))
      else st
  }

  function DailyWalk(s: seq<Log>): WalkState
  {
    if s == [] then Fresh
    else DailyStep(DailyWalk(s[..|s| - 1]), s[|s| - 1].kind, Millis(s[|s| - 1]))
  }

  /** The day's entry "{h} saat {m} dakika". */
  function DayText(dailyTotalMinutes: int): string
  {
    Helpers.HoursMinutesText(dailyTotalMinutes / 60, JsRem(dailyTotalMinutes, 60))
  }

  /** The inner `forEach` over one day's sorted punches. */
  method DayMinutes(sortedLogs: seq<Log>) returns (dailyTotalMinutes: int)
    ensures dailyTotalMinutes == DailyWalk(sortedLogs).total
  {
    dailyTotalMinutes := 0;
    var checkInTime: Option<int> := None;
    var lunchStartTime: Option<int> := None;
    var i := 0;
    while i < |sortedLogs|
      invariant 0 <= i <= |sortedLogs|
      invariant WalkState(checkInTime, lunchStartTime, dailyTotalMinutes) == DailyWalk(sortedLogs[..i])
    {
      var log := sortedLogs[i];
      var logTime := Millis(log);
      if log.kind == CheckIn {
        checkInTime := Some(logTime);
        lunchStartTime := None;
      } else if log.kind == LunchStart {
        if checkInTime.Some? {
          var minutesWorked := Max0(ElapsedMinutes(checkInTime.value, logTime));
          dailyTotalMinutes := dailyTotalMinutes + minutesWorked;
          lunchStartTime := Some(logTime);
          checkInTime := None;
        }
      } else if log.kind == LunchEnd {
        if lunchStartTime.Some? {
          checkInTime := Some(logTime);
          lunchStartTime := None;
        } else {
          checkInTime := Some(logTime);
        }
      } else if log.kind == CheckOut {
        if checkInTime.Some? {
          var minutesWorked := Max0(ElapsedMinutes(checkInTime.value, logTime));
          dailyTotalMinutes := dailyTotalMinutes + minutesWorked;
          checkInTime := None;
        }
      }
      assert sortedLogs[..i + 1][..i] == sortedLogs[..i];
      i := i + 1;
    }
    assert sortedLogs[..i] == sortedLogs;
  }

  /** The text of the day `d` of `logs`. */
  function DayTextOf(logs: seq<Log>): string -> string
  {
    d => DayText(DailyWalk(SortedDay(logs, d)).total)
  }

  /** The text of one day: its punches sorted by time, their walk, then the
      hours and minutes. */
  method DayEntry(ghost logs: seq<Log>, date: string, dailyLogs: seq<Log>) returns (text: string)
    requires dailyLogs == OnDate(logs, LogDate, date)
    ensures text == DayTextOf(logs)(date)
  {
    var sortedLogs := SortBy(dailyLogs, TimeKey);
    var dailyTotalMinutes := DayMinutes(sortedLogs);
    var hours := dailyTotalMinutes / 60;
    var minutes := JsRem(dailyTotalMinutes, 60);
    text := Helpers.HoursMinutesText(hours, minutes);
  }

  /** The map's entries: one per distinct date, in order of first occurrence, each
      holding that day's text; every date gets one alike (there is no sentinel). */
  function DailyMap(logs: seq<Log>): seq<(string, string)>
  {
    Tabulate(DatesOf(logs, LogDate), DayTextOf(logs))
  }

  /** `calculateDailyWorkHoursMap` (service version). */
  method CalculateDailyWorkHoursMap(logs: seq<Log>) returns (dailyWorkHours: seq<(string, string)>)
    ensures dailyWorkHours == DailyMap(logs)
  {
    var dates, logsByDate := GroupByDate(logs, LogDate);
    dailyWorkHours := FillDays(logs, dates, logsByDate);
  }

  /** The loop over the dates of the buckets, writing each date's text in turn. */
  method FillDays(ghost logs: seq<Log>, dates: seq<string>, logsByDate: map<string, seq<Log>>)
    returns (dailyWorkHours: seq<(string, string)>)
    requires forall d :: d in logsByDate <==> d in dates
    requires forall d :: d in logsByDate ==> logsByDate[d] == OnDate(logs, LogDate, d)
    ensures dailyWorkHours == Tabulate(dates, DayTextOf(logs))
  {
    dailyWorkHours := [];
    var i := 0;
    while i < |dates|
      invariant 0 <= i <= |dates|
      invariant dailyWorkHours == Tabulate(dates[..i], DayTextOf(logs))
    {
      var date := dates[i];
      assert date in logsByDate;
      dailyWorkHours := AddDay(logs, dates, i, logsByDate[date], dailyWorkHours);
      i := i + 1;
    }
    assert dates[..i] == dates;
  }

  /** One turn of the loop over the dates: the entry of the `i`th date, from its
      bucket, written after those of the dates before it. */
  method AddDay(ghost logs: seq<Log>, dates: seq<string>, i: nat, bucket: seq<Log>, entries: seq<(string, string)>)
    returns (entries': seq<(string, string)>)
    requires i < |dates| && bucket == OnDate(logs, LogDate, dates[i])
    requires entries == Tabulate(dates[..i], DayTextOf(logs))
    ensures entries' == Tabulate(dates[..i + 1], DayTextOf(logs))
  {
    var text := DayEntry(logs, dates[i], bucket);
    TabulateSnoc(dates, i, DayTextOf(logs));
    entries' := entries + [(dates[i], text)];
  }

  /** Every segment is clamped at zero, so a day's minutes are never negative,
      whatever order its punches are in. */
  lemma {:induction false} DailyWalkNonNegative(s: seq<Log>)
    ensures DailyWalk(s).total >= 0
  {
    if s != [] {
      DailyWalkNonNegative(s[..|s| - 1]);
    }
  }

  /** Lunch-starts and check-outs with no segment open change nothing, however
      many follow one another. */
  lemma {:induction false} ClosingWithoutOpenIsIgnored(s: seq<Log>, q: seq<Log>)
    requires DailyWalk(s).checkInTime == None
    requires forall i :: 0 <= i < |q| ==> q[i].kind == LunchStart || q[i].kind == CheckOut
    ensures DailyWalk(s + q) == DailyWalk(s)
  {
    if q == [] {
      assert s + q == s;
    } else {
      var p := q[..|q| - 1];
      ClosingWithoutOpenIsIgnored(s, p);
      assert (s + q)[..|s + q| - 1] == s + p;
    }
  }

  /** After a check-in or a lunch-end, whatever came before, the open segment
      starts at that punch, no lunch is pending, and the minutes counted so far
      are kept. */
  lemma {:induction false} OpeningPunchRestarts(s: seq<Log>, x: Log, q: seq<Log>)
    requires x.kind == CheckIn || x.kind == LunchEnd
    requires forall i :: 0 <= i < |q| ==> q[i].kind == CheckIn || q[i].kind == LunchEnd
    ensures var w := DailyWalk(s + [x] + q);
      && w.checkInTime == Some(if q == [] then Millis(x) else Millis(q[|q| - 1]))
      && w.lunchStartTime == None
      && w.total == DailyWalk(s).total
  {
    var t := s + [x];
    assert t[..|t| - 1] == s;
    OpeningPunchesKeepTotal(t, q);
  }

  /** Check-ins and lunch-ends each restart the open segment at their own time and
      add nothing. */
  lemma {:induction false} OpeningPunchesKeepTotal(t: seq<Log>, q: seq<Log>)
    requires forall i :: 0 <= i < |q| ==> q[i].kind == CheckIn || q[i].kind == LunchEnd
    ensures DailyWalk(t + q)
      == if q == [] then DailyWalk(t) else WalkState(Some(Millis(q[|q| - 1])), None, DailyWalk(t).total)
  {
    if q == [] {
      assert t + q == t;
    } else {
      var p, x := q[..|q| - 1], q[|q| - 1];
      OpeningPunchesKeepTotal(t, p);
      assert q == p + [x];
      assert t + (p + [x]) == (t + p) + [x];
      DailyWalkSnoc(t + p, x);
    }
  }

  /** The walk over a day extended by one punch takes one more step. */
  lemma DailyWalkSnoc(s: seq<Log>, x: Log)
    ensures DailyWalk(s + [x]) == DailyStep(DailyWalk(s), x.kind, Millis(x))
  {
    assert (s + [x])[..|s|] == s;
  }

  /** A day's entry shows its whole hours and the minutes left over, both
      non-negative and the minutes below 60. */
  lemma DayTextShows(s: seq<Log>)
    ensures var t := DailyWalk(s).total;
      && t >= 0 && 0 <= t % 60 < 60 && t == 60 * (t / 60) + t % 60
      && DayText(t) == Helpers.HoursMinutesText(t / 60, t % 60)
  {
    DailyWalkNonNegative(s);
  }

  /** On a day in time order: an open segment began within the day, at or after
      the time the counted minutes span, and the counted minutes fit within the
      time from the first punch to the last. */
  predicate DayBounded(st: WalkState, first: int, last: int)
  {
    && st.total >= 0
    && (st.checkInTime.Some? ==>
          first <= st.checkInTime.value <= last && st.total * 60000 <= st.checkInTime.value - first)
    && (st.checkInTime.None? ==> st.total * 60000 <= last - first)
  }

  lemma WholeMinutes(x: int)
    requires x >= 0
    ensures 0 <= (x / 60000) * 60000 <= x
  {
  }

  /** Sorting by time text sorts by time. */
  lemma SortedByTime(s: seq<Log>)
    requires SortedBy(s, TimeKey)
    ensures SortedBy(s, Millis)
  {
    forall i, j | 0 <= i < j < |s| ensures Millis(s[i]) <= Millis(s[j]) {
      LexKeyMonotone(s[i].time, s[j].time);
    }
  }

  lemma {:induction false} DailyWalkBounded(s: seq<Log>)
    requires s != [] && SortedBy(s, Millis)
    ensures DayBounded(DailyWalk(s), Millis(s[0]), Millis(s[|s| - 1]))
  {
    var n := |s| - 1;
    var t := Millis(s[n]);
    if n > 0 {
      var p := s[..n];
      assert SortedBy(p, Millis);
      DailyWalkBounded(p);
      assert p[0] == s[0] && Millis(p[n - 1]) <= t;
      var st := DailyWalk(p);
      if st.checkInTime.Some? {
        WholeMinutes(t - st.checkInTime.value);
      }
    }
  }

  /** The minutes counted for a day never exceed the time from its first punch to
      its last, so a day never shows more than 23 hours 59 minutes. */
  lemma DayMinutesBounds(logs: seq<Log>, date: string)
    requires date in DatesOf(logs, LogDate)
    ensures var s := SortedDay(logs, date);
      && s != []
      && 0 <= DailyWalk(s).total
      && DailyWalk(s).total * 60000 <= Millis(s[|s| - 1]) - Millis(s[0])
      && DailyWalk(s).total < 24 * 60
  {
    var s := SortedDay(logs, date);
    OnDateNonEmpty(logs, LogDate, date);
    SortByIsSorted(OnDate(logs, LogDate, date), TimeKey);
    SortedByTime(s);
    DailyWalkBounded(s);
  }

  /** One punch of `calculateWorkHours`'s walk: a check-in or a lunch-end opens a
      segment at `t`; a lunch-start closes an open segment and adds its whole
      minutes; a check-out adds the whole minutes since the open segment's start
      and, as written (`checkOutCloses` false), leaves it open. */
  function TotalStep(st: WalkState, kind: Kind, t: int, checkOutCloses: bool): WalkState
  {
    match kind
    case CheckIn => st.(checkInTime := Some(t))
    case LunchStart =>
      if st.checkInTime.Some? then WalkState(None, Some(t), st.total + ElapsedMinutes(st.checkInTime.value, t))
      else st
    case LunchEnd => st.(checkInTime := Some(t))
    case CheckOut =>
      if st.checkInTime.Some? then
        st.(checkInTime := if checkOutCloses then None else st.checkInTime,
            total := st.total + ElapsedMinutes(st.checkInTime.value, t))
      else st
  }

  function TotalWalk(s: seq<Log>, checkOutCloses: bool): WalkState
  {
    if s == [] then Fresh
    else TotalStep(TotalWalk(s[..|s| - 1], checkOutCloses), s[|s| - 1].kind, Millis(s[|s| - 1]), checkOutCloses)
  }

  /** The minutes of the dates `ds`, each day walked on its own. */
  function SumDays(ds: seq<string>, logs: seq<Log>, checkOutCloses: bool): int
  {
    if ds == [] then 0
    else SumDays(ds[..|ds| - 1], logs, checkOutCloses) + TotalWalk(SortedDay(logs, ds[|ds| - 1]), checkOutCloses).total
  }

  lemma SumDaysSnoc(ds: seq<string>, i: nat, logs: seq<Log>, checkOutCloses: bool)
    requires i < |ds|
    ensures SumDays(ds[..i + 1], logs, checkOutCloses)
      == SumDays(ds[..i], logs, checkOutCloses) + TotalWalk(SortedDay(logs, ds[i]), checkOutCloses).total
  {
    assert ds[..i + 1][..i] == ds[..i];
  }

  /** The sum over the dates `ds` of the daily map's minutes. */
  function SumDaily(ds: seq<string>, logs: seq<Log>): int
  {
    if ds == [] then 0
    else SumDaily(ds[..|ds| - 1], logs) + DailyWalk(SortedDay(logs, ds[|ds| - 1])).total
  }

  /** The walk of one day, adding its minutes to `totalMinutes`. */
  method AddDayMinutes(sortedLogs: seq<Log>, totalMinutes: int) returns (total': int)
    ensures total' == totalMinutes + TotalWalk(sortedLogs, false).total
  {
    total' := totalMinutes;
    var checkInTime: Option<int> := None;
    var lunchStartTime: Option<int> := None;
    var i := 0;
    while i < |sortedLogs|
      invariant 0 <= i <= |sortedLogs|
      invariant WalkState(checkInTime, lunchStartTime, total' - totalMinutes) == TotalWalk(sortedLogs[..i], false)
    {
      var log := sortedLogs[i];
      var logTime := Millis(log);
      if log.kind == CheckIn {
        checkInTime := Some(logTime);
      } else if log.kind == LunchStart && checkInTime.Some? {
        total' := total' + ElapsedMinutes(checkInTime.value, logTime);
        lunchStartTime := Some(logTime);
        checkInTime := None;
      } else if log.kind == LunchEnd {
        checkInTime := Some(logTime);
      } else if log.kind == CheckOut && checkInTime.Some? {
        total' := total' + ElapsedMinutes(checkInTime.value, logTime);
      }
      assert sortedLogs[..i + 1][..i] == sortedLogs[..i];
      i := i + 1;
    }
    assert sortedLogs[..i] == sortedLogs;
  }

  /** `calculateWorkHours` (service version), as written: the minutes of all
      dates together, as "{h} saat {m} dakika". */
  method CalculateWorkHours(logs: seq<Log>) returns (r: string)
    ensures var total := SumDays(DatesOf(logs, LogDate), logs, false);
      r == Helpers.HoursMinutesText(total / 60, JsRem(total, 60))
  {
    var dates, logsByDate := GroupByDate(logs, LogDate);
    var totalMinutes := SumAllDays(logs, dates, logsByDate);
    var hours := totalMinutes / 60;
    var minutes := JsRem(totalMinutes, 60);
    r := Helpers.HoursMinutesText(hours, minutes);
  }

  /** The loop over the dates of `calculateWorkHours`: the minutes of every
      date's bucket, in time order, added up. */
  method SumAllDays(ghost logs: seq<Log>, dates: seq<string>, logsByDate: map<string, seq<Log>>)
    returns (totalMinutes: int)
    requires forall d :: d in logsByDate <==> d in dates
    requires forall d :: d in logsByDate ==> logsByDate[d] == OnDate(logs, LogDate, d)
    ensures totalMinutes == SumDays(dates, logs, false)
  {
    totalMinutes := 0;
    var i := 0;
    while i < |dates|
      invariant 0 <= i <= |dates|
      invariant totalMinutes == SumDays(dates[..i], logs, false)
    {
      var date := dates[i];
      assert date in logsByDate;
      var sortedLogs := SortBy(logsByDate[date], TimeKey);
      totalMinutes := AddDayMinutes(sortedLogs, totalMinutes);
      SumDaysSnoc(dates, i, logs, false);
      i := i + 1;
    }
    assert dates[..i] == dates;
  }

  /** On a day in time order, a walk whose check-out closes the segment agrees with
      the daily map's walk on the open segment and on the minutes: the zero clamp
      never acts, since every segment closes no earlier than it opened. */
  lemma {:induction false} ClosingWalkIsDailyWalk(s: seq<Log>)
    requires SortedBy(s, Millis)
    ensures TotalWalk(s, true).checkInTime == DailyWalk(s).checkInTime
    ensures TotalWalk(s, true).total == DailyWalk(s).total
    ensures s != [] && DailyWalk(s).checkInTime.Some? ==> DailyWalk(s).checkInTime.value <= Millis(s[|s| - 1])
  {
    if s != [] {
      var n := |s| - 1;
      var p := s[..n];
      assert SortedBy(p, Millis);
      ClosingWalkIsDailyWalk(p);
      if p != [] {
        assert Millis(p[n - 1]) <= Millis(s[n]);
      }
      ClosingStepAgrees(TotalWalk(p, true), DailyWalk(p), s[n].kind, Millis(s[n]));
    }
  }

  /** One punch, no earlier than the open segment's start, moves both walks alike. */
  lemma ClosingStepAgrees(a: WalkState, b: WalkState, kind: Kind, t: int)
    requires a.checkInTime == b.checkInTime && a.total == b.total
    requires b.checkInTime.Some? ==> b.checkInTime.value <= t
    ensures var a', b' := TotalStep(a, kind, t, true), DailyStep(b, kind, t);
      && a'.checkInTime == b'.checkInTime && a'.total == b'.total
      && (b'.checkInTime.Some? ==> b'.checkInTime.value <= t)
  {
    if b.checkInTime.Some? {
      assert ElapsedMinutes(b.checkInTime.value, t) >= 0;
    }
  }

  /** With check-outs closing the segment, `calculateWorkHours` counts exactly the
      minutes the daily map shows, summed over the dates. */
  lemma {:induction false} ClosingTotalIsDailySum(ds: seq<string>, logs: seq<Log>)
    ensures SumDays(ds, logs, true) == SumDaily(ds, logs)
  {
    if ds != [] {
      var d := ds[|ds| - 1];
      ClosingTotalIsDailySum(ds[..|ds| - 1], logs);
      SortByIsSorted(OnDate(logs, LogDate, d), TimeKey);
      SortedByTime(SortedDay(logs, d));
      ClosingWalkIsDailyWalk(SortedDay(logs, d));
    }
  }

  /** As written, a check-out leaves the segment open, so a second check-out after
      one check-in counts the morning again: 09:00 in, 12:00 out, 13:00 out counts
      180 + 240 = 420 minutes, where closing the segment counts the 180 worked. */
  lemma CheckOutCountedTwice()
    ensures var d := "2024-05-06";
      var logs := [Log("e", d, "09:00", CheckIn), Log("e", d, "12:00", CheckOut), Log("e", d, "13:00", CheckOut)];
      && TotalWalk(logs, false).total == 420
      && TotalWalk(logs, true).total == 180
      && DailyWalk(logs).total == 180
  {
    var d := "2024-05-06";
    var logs := [Log("e", d, "09:00", CheckIn), Log("e", d, "12:00", CheckOut), Log("e", d, "13:00", CheckOut)];
    assert Millis(logs[0]) == 9 * 3600000 && Millis(logs[1]) == 12 * 3600000 && Millis(logs[2]) == 13 * 3600000;
    assert logs[..2][..1] == logs[..1] && logs[..1][..0] == [] && logs[..2] == logs[..|logs| - 1];
    assert TotalWalk(logs[..1], false) == TotalWalk(logs[..1], true) == WalkState(Some(9 * 3600000), None, 0);
    assert TotalWalk(logs[..2], false) == WalkState(Some(9 * 3600000), None, 180);
    assert TotalWalk(logs[..2], true) == WalkState(None, None, 180);
    assert DailyWalk(logs[..1]) == WalkState(Some(9 * 3600000), None, 0);
    assert DailyWalk(logs[..2]) == WalkState(None, None, 180);
  }

  /** The as-written walk `a` covers the daily map's walk `b` up to time `t`: it
      has counted at least as much, an open daily segment is open in it too, and
      its own open segment began no later than `t`. */
  predicate Covers(a: WalkState, b: WalkState, t: int)
  {
    && a.total >= b.total
    && (b.checkInTime.Some? ==> a.checkInTime == b.checkInTime)
    && (a.checkInTime.Some? ==> a.checkInTime.value <= t)
  }

  /** One punch no earlier than `t0` keeps the as-written walk covering the daily
      walk: whole minutes since an earlier start are never negative. */
  lemma CoversStep(a: WalkState, b: WalkState, t0: int, kind: Kind, t: int)
    requires Covers(a, b, t0) && t0 <= t
    ensures Covers(TotalStep(a, kind, t, false), DailyStep(b, kind, t), t)
  {
    if a.checkInTime.Some? {
      assert ElapsedMinutes(a.checkInTime.value, t) >= 0;
    }
  }

  /** On a day in time order, `calculateWorkHours` as written never counts less
      than the daily map: while the daily walk has a segment open the as-written
      walk has the same one, and a check-out it leaves open only adds more. */
  lemma {:induction false} AsWrittenNeverUnder(s: seq<Log>)
    requires SortedBy(s, Millis)
    ensures TotalWalk(s, false).total >= DailyWalk(s).total
    ensures DailyWalk(s).checkInTime.Some? ==> TotalWalk(s, false).checkInTime == DailyWalk(s).checkInTime
    ensures s != [] ==> Covers(TotalWalk(s, false), DailyWalk(s), Millis(s[|s| - 1]))
  {
    if s != [] {
      var n := |s| - 1;
      var p := s[..n];
      assert SortedBy(p, Millis);
      AsWrittenNeverUnder(p);
      if p == [] {
        CoversStep(Fresh, Fresh, Millis(s[n]), s[n].kind, Millis(s[n]));
      } else {
        assert Millis(p[n - 1]) <= Millis(s[n]);
        CoversStep(TotalWalk(p, false), DailyWalk(p), Millis(p[n - 1]), s[n].kind, Millis(s[n]));
      }
    }
  }

  /** Over any dates, the total of `calculateWorkHours` as written is at least the
      sum of the minutes the daily map shows. */
  lemma {:induction false} AsWrittenTotalNeverUnder(ds: seq<string>, logs: seq<Log>)
    ensures SumDays(ds, logs, false) >= SumDaily(ds, logs)
  {
    if ds != [] {
      var d := ds[|ds| - 1];
      AsWrittenTotalNeverUnder(ds[..|ds| - 1], logs);
      SortByIsSorted(OnDate(logs, LogDate, d), TimeKey);
      SortedByTime(SortedDay(logs, d));
      AsWrittenNeverUnder(SortedDay(logs, d));
    }
  }

  /** The as-written walk over a day extended by one punch takes one more step. */
  lemma TotalWalkSnoc(s: seq<Log>, x: Log, checkOutCloses: bool)
    ensures TotalWalk(s + [x], checkOutCloses) == TotalStep(TotalWalk(s, checkOutCloses), x.kind, Millis(x), checkOutCloses)
  {
    assert (s + [x])[..|s|] == s;
  }

  /** The whole minutes from `c` to each punch of `q`, added up. */
  function ElapsedSum(c: int, q: seq<Log>): int
  {
    if q == [] then 0 else ElapsedSum(c, q[..|q| - 1]) + ElapsedMinutes(c, Millis(q[|q| - 1]))
  }

  /** As written, a run of check-outs after a segment opened at `c` leaves it open
      at `c`, and each check-out adds the whole minutes since `c` again. */
  lemma {:induction false} CheckOutsRecount(t: seq<Log>, q: seq<Log>, c: int)
    requires TotalWalk(t, false).checkInTime == Some(c)
    requires forall i :: 0 <= i < |q| ==> q[i].kind == CheckOut
    ensures TotalWalk(t + q, false).checkInTime == Some(c)
    ensures TotalWalk(t + q, false).total == TotalWalk(t, false).total + ElapsedSum(c, q)
  {
    if q == [] {
      assert t + q == t;
    } else {
      var p, x := q[..|q| - 1], q[|q| - 1];
      CheckOutsRecount(t, p, c);
      AppendSplitLast(t, q);
      TotalWalkSnoc(t + p, x, false);
    }
  }

  /** In `calculateWorkHours` a lunch-end reopens the clock at its own time,
      whatever came before, and adds nothing. */
  lemma LunchEndReopens(s: seq<Log>, x: Log, checkOutCloses: bool)
    requires x.kind == LunchEnd
    ensures TotalWalk(s + [x], checkOutCloses).checkInTime == Some(Millis(x))
    ensures TotalWalk(s + [x], checkOutCloses).total == TotalWalk(s, checkOutCloses).total
  {
    TotalWalkSnoc(s, x, checkOutCloses);
  }

  /** A day with a lunch break: 09:00 in, 12:00 lunch-start, 13:00 lunch-end,
      18:00 out. */
  function LunchDay(): seq<Log>
  {
    var d := "2024-05-06";
    [Log("e", d, "09:00", CheckIn), Log("e", d, "12:00", LunchStart),
     Log("e", d, "13:00", LunchEnd), Log("e", d, "18:00", CheckOut)]
  }

  lemma LunchDayTimes()
    ensures |LunchDay()| == 4
    ensures Millis(LunchDay()[0]) == 9 * 3600000 && Millis(LunchDay()[1]) == 12 * 3600000
    ensures Millis(LunchDay()[2]) == 13 * 3600000 && Millis(LunchDay()[3]) == 18 * 3600000
    ensures LunchDay()[0].kind == CheckIn && LunchDay()[1].kind == LunchStart
    ensures LunchDay()[2].kind == LunchEnd && LunchDay()[3].kind == CheckOut
  {
  }

  /** The utilities' walk does not reopen the clock at lunch-end, and the
      check-out finds no open segment: the day counts 3 hours. */
  lemma {:induction false} LunchDayInHelpers()
    ensures HelpersHours.Walk(LunchDay()).total == 3 * 3600000
  {
    var day := LunchDay();
    LunchDayTimes();
    assert day[..3][..2][..1] == day[..1] && day[..1][..0] == [];
    assert day[..3][..2] == day[..2] && day[..3] == day[..|day| - 1];
    assert HelpersHours.Walk(day[..1]) == HelpersHours.DayState(Some(9 * 3600000), false, 0);
    assert HelpersHours.Walk(day[..2]) == HelpersHours.DayState(None, true, 3 * 3600000);
    assert HelpersHours.Walk(day[..3]) == HelpersHours.DayState(None, false, 3 * 3600000);
  }

  /** The service's walk reopens the clock at lunch-end: the day counts 8 hours. */
  lemma {:induction false} LunchDayInService()
    ensures DailyWalk(LunchDay()).total == 8 * 60
  {
    var day := LunchDay();
    LunchDayTimes();
    assert day[..3][..2][..1] == day[..1] && day[..1][..0] == [];
    assert day[..3][..2] == day[..2] && day[..3] == day[..|day| - 1];
    assert DailyWalk(day[..1]) == WalkState(Some(9 * 3600000), None, 0);
    assert DailyWalk(day[..2]) == WalkState(None, Some(12 * 3600000), 180);
    assert DailyWalk(day[..3]) == WalkState(Some(13 * 3600000), None, 180);
  }

  /** So the two daily aggregators show different texts for the same ordinary day. */
  lemma AggregatorsDisagree()
    ensures HelpersHours.DayText(LunchDay()) == "3 saat 0 dakika"
    ensures DayText(DailyWalk(LunchDay()).total) == "8 saat 0 dakika"
  {
    LunchDayInHelpers();
    LunchDayInService();
    assert HelpersHours.DayText(LunchDay()) == Helpers.FormatMinutes(180);
    ThreeHoursText();
    EightHoursText();
  }

  lemma ThreeHoursText()
    ensures Helpers.FormatMinutes(180) == "3 saat 0 dakika"
  {
    assert Helpers.FormatMinutes(180) == NatToString(3) + " saat " + NatToString(0) + " dakika" by {
      assert 180 / 60 == 3 && 180 % 60 == 0;
    }
    assert NatToString(3) == "3" && NatToString(0) == "0";
  }

  lemma EightHoursText()
    ensures DayText(480) == "8 saat 0 dakika"
  {
    assert NatToString(8) == "8" && NatToString(0) == "0";
    assert IntToString(8) == "8" && IntToString(0) == "0";
  }
}
