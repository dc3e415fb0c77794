/** The utilities' `calculateDailyWorkHoursMap`: for each date, a walk over that
    day's punches in time order that keeps the open work segment and an on-break
    flag, and the display text of the day's total. */
module HelpersHours {
  import opened Common
  import opened Clock
  import opened Attendance
  import opened Helpers

  /** The walk's variables `lastCheckInTime`, `onLunchBreak` and
      `dailyTotalMilliseconds`. */
  datatype DayState = DayState(lastCheckIn: Option<int>, onLunchBreak: bool, total: int)

  /** One punch of kind `kind` at time `t`. */
  function Step(st: DayState, kind: Kind, t: int): DayState
  {
    match kind
    case CheckIn => if !st.onLunchBreak then st.(lastCheckIn := Some(t)) else st
    case LunchStart =>
      var add := if st.lastCheckIn.Some? && !st.onLunchBreak then t - st.lastCheckIn.value else 0;
      DayState(None, true, st.total + add)
    case LunchEnd => st.(onLunchBreak := false)
    case CheckOut =>
      if st.lastCheckIn.Some? && !st.onLunchBreak then st.(lastCheckIn := None, total := st.total + (t - st.lastCheckIn.value))
      else st
  }

  /** The state after walking `s` from no open segment, not on break, nothing counted. */
  function Walk(s: seq<Log>): DayState
  {
    if s == [] then DayState(None, false, 0)
    else Step(Walk(s[..|s| - 1]), s[|s| - 1].kind, Millis(s[|s| - 1]))
  }

  /** The punches of `date` in time order (a stable sort, as `Array.prototype.sort` is). */
  function DailyLogs(logs: seq<Log>, date: string): seq<Log>
  {
    SortBy(OnDate(logs, LogDate, date), Millis)
  }

  /** The text of a day for which no work time could be computed. */
  const Unknown: string := "Hesaplanamadı"

  /** The entry written for a day with punches: the formatted whole minutes when
      the total is positive, and the `Unknown` text when it is not. */
  function DayText(dailyLogs: seq<Log>): string
  {
    var total := Walk(dailyLogs).total;
    if total > 0 then FormatMinutes(total / 60000) else Unknown
  }

  /** The inner loop over one day's punches. */
  method DayTotal(dailyLogs: seq<Log>) returns (dailyTotalMilliseconds: int)
    ensures dailyTotalMilliseconds == Walk(dailyLogs).total
  {
    dailyTotalMilliseconds := 0;
    var lastCheckInTime: Option<int> := None;
    var onLunchBreak := false;
    var i := 0;
    while i < |dailyLogs|
      invariant 0 <= i <= |dailyLogs|
      invariant DayState(lastCheckInTime, onLunchBreak, dailyTotalMilliseconds) == Walk(dailyLogs[..i])
    {
      var log := dailyLogs[i];
      var currentTime := Millis(log);
      match log.kind {
        case CheckIn =>
          if !onLunchBreak {
            lastCheckInTime := Some(currentTime);
          }
        case LunchStart =>
          if lastCheckInTime.Some? && !onLunchBreak {
            dailyTotalMilliseconds := dailyTotalMilliseconds + (currentTime - lastCheckInTime.value);
          }
          lastCheckInTime := None;
          onLunchBreak := true;
        case LunchEnd =>
          onLunchBreak := false;
        case CheckOut =>
          if lastCheckInTime.Some? && !onLunchBreak {
            dailyTotalMilliseconds := dailyTotalMilliseconds + (currentTime - lastCheckInTime.value);
            lastCheckInTime := None;
          }
      }
      assert dailyLogs[..i + 1][..i] == dailyLogs[..i];
      i := i + 1;
    }
    assert dailyLogs[..i] == dailyLogs;
  }

  /** The entry for one day with punches: its punches sorted by time, their walk,
      then the text. */
  method DayEntry(ghost logs: seq<Log>, date: string, bucket: seq<Log>) returns (text: string)
    requires bucket == OnDate(logs, LogDate, date) && bucket != []
    ensures text == DayTextOf(logs)(date)
  {
    var dailyLogs := SortBy(bucket, Millis);
    var dailyTotalMilliseconds := DayTotal(dailyLogs);
    if dailyTotalMilliseconds > 0 {
      text := FormatMinutes(dailyTotalMilliseconds / 60000);
    } else {
      // The day has punches, so the `Unknown` entry is written.
      text := Unknown;
    }
  }

  /** The text of the day `d` of `logs`. */
  function DayTextOf(logs: seq<Log>): string -> string
  {
    d => DayText(DailyLogs(logs, d))
  }

  /** `calculateDailyWorkHoursMap` (utilities version): one entry per distinct date,
      in order of first occurrence, each holding that day's text. */
  method CalculateDailyWorkHoursMap(logs: seq<Log>) returns (workHoursMap: seq<(string, string)>)
    ensures workHoursMap == Tabulate(DatesOf(logs, LogDate), DayTextOf(logs))
  {
    var dates, logsByDate := GroupByDate(logs, LogDate);
    forall d | d in dates
      ensures OnDate(logs, LogDate, d) != []
    {
      OnDateNonEmpty(logs, LogDate, d);
    }
    workHoursMap := FillDays(logs, dates, logsByDate);
  }

  /** The loop over the dates of the buckets, writing each date's text in turn. */
  method FillDays(ghost logs: seq<Log>, dates: seq<string>, logsByDate: map<string, seq<Log>>)
    returns (workHoursMap: seq<(string, string)>)
    requires forall d :: d in logsByDate <==> d in dates
    requires forall d :: d in logsByDate ==> logsByDate[d] == OnDate(logs, LogDate, d) && logsByDate[d] != []
    ensures workHoursMap == Tabulate(dates, DayTextOf(logs))
  {
    workHoursMap := [];
    var i := 0;
    while i < |dates|
      invariant 0 <= i <= |dates|
      invariant workHoursMap == Tabulate(dates[..i], DayTextOf(logs))
    {
      var date := dates[i];
      assert date in logsByDate;
      var text := DayEntry(logs, date, logsByDate[date]);
      TabulateSnoc(dates, i, DayTextOf(logs));
      workHoursMap := workHoursMap + [(date, text)];
      i := i + 1;
    }
    assert dates[..i] == dates;
  }

  /** Whenever the walk is on break no segment is open: a lunch-start closes the
      segment, and a check-in during the break is ignored. */
  lemma {:induction false} BreakHasNoOpenSegment(s: seq<Log>)
    ensures Walk(s).onLunchBreak ==> Walk(s).lastCheckIn == None
  {
    if s != [] {
      BreakHasNoOpenSegment(s[..|s| - 1]);
    }
  }

  /** Nothing counts from a lunch-start until the next lunch-end: check-ins are
      ignored and check-outs add nothing while on break. */
  lemma {:induction false} BreakCountsNothing(s: seq<Log>, q: seq<Log>)
    requires Walk(s).onLunchBreak
    requires forall i :: 0 <= i < |q| ==> q[i].kind != LunchEnd
    ensures Walk(s + q).total == Walk(s).total
    ensures Walk(s + q).onLunchBreak && Walk(s + q).lastCheckIn == None
  {
    BreakHasNoOpenSegment(s);
    if q == [] {
      assert s + q == s;
    } else {
      var p := q[..|q| - 1];
      BreakCountsNothing(s, p);
      assert (s + q)[..|s + q| - 1] == s + p;
    }
  }

  /** A lunch-start always starts the break and closes the segment, even when no
      segment is open or the walk is already on break. */
  lemma LunchStartAlwaysBreaks(s: seq<Log>, x: Log)
    requires x.kind == LunchStart
    ensures Walk(s + [x]).onLunchBreak && Walk(s + [x]).lastCheckIn == None
    ensures Walk(s).lastCheckIn == None ==> Walk(s + [x]).total == Walk(s).total
  {
    assert (s + [x])[..|s|] == s;
  }

  /** A lunch-start punched before the day's first check-in makes the day count
      nothing until a lunch-end: the check-ins after it are ignored. */
  lemma LunchStartBeforeCheckIn(s: seq<Log>, x: Log, q: seq<Log>)
    requires forall i :: 0 <= i < |s| ==> s[i].kind != CheckIn
    requires x.kind == LunchStart
    requires forall i :: 0 <= i < |q| ==> q[i].kind != LunchEnd
    ensures Walk(s + [x] + q).total == 0 && Walk(s + [x] + q).lastCheckIn == None
  {
    NoCheckInNoTime(s);
    LunchStartAlwaysBreaks(s, x);
    BreakCountsNothing(s + [x], q);
  }

  /** A day on which nobody checks in has no open segment and counts no time. */
  lemma {:induction false} NoCheckInNoTime(s: seq<Log>)
    requires forall i :: 0 <= i < |s| ==> s[i].kind != CheckIn
    ensures Walk(s).total == 0 && Walk(s).lastCheckIn == None
  {
    if s != [] {
      NoCheckInNoTime(s[..|s| - 1]);
    }
  }

  /** Only check-in opens a segment: from a state with none open, lunch-ends,
      lunch-starts and check-outs leave it closed and add nothing. */
  lemma {:induction false} OnlyCheckInOpens(s: seq<Log>, q: seq<Log>)
    requires Walk(s).lastCheckIn == None
    requires forall i :: 0 <= i < |q| ==> q[i].kind != CheckIn
    ensures Walk(s + q).lastCheckIn == None && Walk(s + q).total == Walk(s).total
  {
    if q == [] {
      assert s + q == s;
    } else {
      var p := q[..|q| - 1];
      OnlyCheckInOpens(s, p);
      assert (s + q)[..|s + q| - 1] == s + p;
    }
  }

  /** Time is counted only when a segment is closed: punches after which no
      lunch-start or check-out follows add nothing, so a segment still open at
      the end of the day is dropped. */
  lemma {:induction false} OpenSegmentDropped(s: seq<Log>, q: seq<Log>)
    requires forall i :: 0 <= i < |q| ==> q[i].kind == CheckIn || q[i].kind == LunchEnd
    ensures Walk(s + q).total == Walk(s).total
  {
    if q == [] {
      assert s + q == s;
    } else {
      var p := q[..|q| - 1];
      OpenSegmentDropped(s, p);
      assert (s + q)[..|s + q| - 1] == s + p;
    }
  }

  /** On a day in time order from `first` to `last`: the total is non-negative, an
      open segment started within the day and the time counted before it fits
      between the first punch and its start, and with no open segment the total
      fits within the day's span. */
  predicate Bounded(st: DayState, first: int, last: int)
  {
    && st.total >= 0
    && (st.lastCheckIn.Some? ==> first <= st.lastCheckIn.value <= last && st.total <= st.lastCheckIn.value - first)
    && (st.lastCheckIn.None? ==> st.total <= last - first)
  }

  lemma {:induction false} WalkBounded(s: seq<Log>)
    requires s != [] && SortedBy(s, Millis)
    ensures Bounded(Walk(s), Millis(s[0]), Millis(s[|s| - 1]))
  {
    var n := |s| - 1;
    if n > 0 {
      var p := s[..n];
      assert SortedBy(p, Millis);
      WalkBounded(p);
      assert p[0] == s[0] && Millis(p[n - 1]) <= Millis(s[n]);
    }
  }

  /** The time counted on a day in time order lies between zero and the time from
      its first punch to its last. */
  lemma WalkTotalBounds(s: seq<Log>)
    requires s != [] && SortedBy(s, Millis)
    ensures 0 <= Walk(s).total <= Millis(s[|s| - 1]) - Millis(s[0])
  {
    WalkBounded(s);
  }

  /** A day's entry: the `Unknown` text exactly when no time was counted, and
      otherwise the formatted whole minutes of a positive total, never the
      negative-input "0 dakika"; a day without check-ins always shows `Unknown`. */
  lemma {:induction false} DayTextFacts(logs: seq<Log>, date: string)
    ensures var daily := DailyLogs(logs, date);
      && (DayText(daily) == Unknown <==> Walk(daily).total == 0)
      && (Walk(daily).total > 0 ==> DayText(daily) == FormatMinutes(Walk(daily).total / 60000))
      && ((forall i :: 0 <= i < |daily| ==> daily[i].kind != CheckIn) ==> DayText(daily) == Unknown)
  {
    var daily := DailyLogs(logs, date);
    if daily != [] {
      SortByIsSorted(OnDate(logs, LogDate, date), Millis);
      WalkTotalBounds(daily);
    }
    if forall i :: 0 <= i < |daily| ==> daily[i].kind != CheckIn {
      NoCheckInNoTime(daily);
    }
    var total := Walk(daily).total;
    if total > 0 {
      var text := FormatMinutes(total / 60000);
      assert text != Unknown by {
        assert text[|text| - 1] == 'a' && Unknown[|Unknown| - 1] == 'ı';
      }
    }
  }
}
