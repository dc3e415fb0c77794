/** `identifyTimeIrregularities`: one employee's punches checked, date by date,
    against a department's work schedule. */
module Irregularities {
  import opened Common
  import opened Text
  import opened Clock
  import opened Attendance
  import opened Helpers

  /** The four schedule times of a department; an absent time is a null or empty
      column. */
  datatype Schedule = Schedule(
    workStart: Option<TimeText>, workEnd: Option<TimeText>,
    lunchStart: Option<TimeText>, lunchEnd: Option<TimeText>)

  predicate Complete(s: Schedule)
  {
    s.workStart.Some? && s.workEnd.Some? && s.lunchStart.Some? && s.lunchEnd.Some?
  }

  /** The expected lunch length in minutes (negative for a lunch end set before
      its start). */
  function ExpectedLunch(s: Schedule): int
    requires Complete(s)
  {
    Minutes(s.lunchEnd.value) - Minutes(s.lunchStart.value)
  }

  /** The expected working time: the span of the working day minus the lunch. */
  function ExpectedWorkDay(s: Schedule): int
    requires Complete(s)
  {
    (Minutes(s.workEnd.value) - Minutes(s.workStart.value)) - ExpectedLunch(s)
  }

  /** The six irregularity types. */
  datatype IrregularityKind =
    LateArrival | EarlyDeparture | LongBreak | ShortDay | MissingCheckOut | MissingBreakRecord

  /** The type's text as shown in the report. */
  function KindLabel(k: IrregularityKind): string
  {
    match k
    case LateArrival => "Geç Giriş"
    case EarlyDeparture => "Erken Çıkış"
    case LongBreak => "Uzun Mola"
    case ShortDay => "Kısa Çalışma Günü"
    case MissingCheckOut => "Eksik Giriş/Çıkış Kaydı"
    case MissingBreakRecord => "Eksik Mola Kaydı"
  }

  /** A report row; the optional fields are those a row of its type may leave unset. */
  datatype Irregularity = Irregularity(
    employeeId: string, employeeName: string, departmentName: Option<string>,
    date: string, kind: IrregularityKind, details: string,
    actual: Option<string>, expected: Option<string>,
    duration: Option<string>, expectedDuration: Option<string>)

  /** A punch handed to the classifier, with the employee's display name ("" when
      the caller gives none). */
  datatype NamedLog = NamedLog(log: Log, employeeName: string)

  function DateOf(x: NamedLog): string { x.log.date }
  function MinuteOf(x: NamedLog): int { Minutes(x.log.time) }

  /** One date's punches in the order the classifier reads them: sorted by
      `timeToMinutes`, stably. */
  function DayLogs(logs: seq<NamedLog>, date: string): seq<NamedLog>
  {
    SortBy(OnDate(logs, DateOf, date), MinuteOf)
  }

  /** Whether a punch is of kind `k`. */
  function KindIs(k: Kind): NamedLog -> bool
  {
    (x: NamedLog) => x.log.kind == k
  }

  function OfType(daily: seq<NamedLog>, k: Kind): seq<NamedLog>
  {
    Filter(daily, KindIs(k))
  }

  /** The name the day's rows carry: the caller's name, else the first punch's
      name, else its employee id, else "Bilinmeyen". */
  function ResolvedName(nameParam: string, daily: seq<NamedLog>): string
  {
    if nameParam != "" then nameParam
    else if daily != [] && daily[0].employeeName != "" then daily[0].employeeName
    else if daily != [] && daily[0].log.employeeId != "" then daily[0].log.employeeId
    else "Bilinmeyen"
  }

  /** A check-in without any check-out counts as missing its check-out on a date
      before today, and today once the clock has passed the end of work. */
  predicate CheckOutOverdue(date: string, s: Schedule, today: string, nowMinutes: int)
    requires Complete(s)
  {
    StrLt(date, today) || (date == today && nowMinutes > Minutes(s.workEnd.value))
  }

  /** The missing-check-out row: check-ins, no check-out, and the check-out overdue. */
  function MissingCheckOutRow(date: string, daily: seq<NamedLog>, s: Schedule, name: string,
                              dept: Option<string>, today: string, nowMinutes: int): (rs: seq<Irregularity>)
    requires Complete(s)
    ensures |rs| <= 1 && RowsFor(rs, date, name, dept)
    ensures forall k :: 0 <= k < |rs| ==> rs[k].kind == MissingCheckOut
  {
    var ins, outs := OfType(daily, CheckIn), OfType(daily, CheckOut);
    if |ins| > 0 && |outs| == 0 && CheckOutOverdue(date, s, today, nowMinutes) then
      var t := FormatTime(ins[0].log.time);
      [Irregularity(ins[0].log.employeeId, name, dept, date, MissingCheckOut,
         "Giriş yapıldı (" + t + ") ancak gün sonu çıkış kaydı bulunamadı.",
         Some(t), Some("Çıkış Bekleniyor"), None, None)]
    else []
  }

  /** The late-arrival row: the first check-in of the day after the start of work. */
  function LateRow(date: string, daily: seq<NamedLog>, s: Schedule, name: string, dept: Option<string>): (rs: seq<Irregularity>)
    requires Complete(s)
    ensures |rs| <= 1 && RowsFor(rs, date, name, dept)
    ensures forall k :: 0 <= k < |rs| ==> rs[k].kind == LateArrival
  {
    var ins := OfType(daily, CheckIn);
    if |ins| > 0 && MinuteOf(ins[0]) > Minutes(s.workStart.value) then
      var e, t := FormatTime(s.workStart.value), FormatTime(ins[0].log.time);
      [Irregularity(ins[0].log.employeeId, name, dept, date, LateArrival,
         "Beklenen " + e + " yerine " + t + " giriş yapıldı.",
         Some(t), Some(e), None, None)]
    else []
  }

  /** The early-departure row: the last check-out of the day before the end of work. */
  function EarlyRow(date: string, daily: seq<NamedLog>, s: Schedule, name: string, dept: Option<string>): (rs: seq<Irregularity>)
    requires Complete(s)
    ensures |rs| <= 1 && RowsFor(rs, date, name, dept)
    ensures forall k :: 0 <= k < |rs| ==> rs[k].kind == EarlyDeparture
  {
    var outs := OfType(daily, CheckOut);
    if |outs| > 0 && MinuteOf(outs[|outs| - 1]) < Minutes(s.workEnd.value) then
      var e, t := FormatTime(s.workEnd.value), FormatTime(outs[|outs| - 1].log.time);
      [Irregularity(outs[|outs| - 1].log.employeeId, name, dept, date, EarlyDeparture,
         "Beklenen " + e + " yerine " + t + " çıkış yapıldı.",
         Some(t), Some(e), None, None)]
    else []
  }

  /** The lunch break taken, from the first lunch start to the last lunch end. */
  function LunchTaken(daily: seq<NamedLog>): int
    requires |OfType(daily, LunchStart)| > 0 && |OfType(daily, LunchEnd)| > 0
  {
    var starts, ends := OfType(daily, LunchStart), OfType(daily, LunchEnd);
    MinuteOf(ends[|ends| - 1]) - MinuteOf(starts[0])
  }

  /** The lunch row: a long break when both markers exist, a missing-marker row
      when only one does. */
  function LunchRow(date: string, daily: seq<NamedLog>, s: Schedule, name: string, dept: Option<string>): (rs: seq<Irregularity>)
    requires Complete(s)
    ensures |rs| <= 1 && RowsFor(rs, date, name, dept)
    ensures forall k :: 0 <= k < |rs| ==> rs[k].kind == LongBreak || rs[k].kind == MissingBreakRecord
  {
    var starts, ends := OfType(daily, LunchStart), OfType(daily, LunchEnd);
    if |starts| > 0 && |ends| > 0 then
      var actual := LunchTaken(daily);
      if actual > ExpectedLunch(s) then
        var e, t := FormatMinutes(ExpectedLunch(s)), FormatMinutes(actual);
        [Irregularity(starts[0].log.employeeId, name, dept, date, LongBreak,
           "Beklenen " + e + " yerine " + t + " mola kullanıldı.",
           None, None, Some(t), Some(e))]
      else []
    else if |starts| > 0 then
      var t := FormatTime(starts[0].log.time);
      [Irregularity(starts[0].log.employeeId, name, dept, date, MissingBreakRecord,
         "Öğle arası başladı (" + t + ") ancak bitiş kaydı yok.",
         Some(t), Some("Mola Bitişi Bekleniyor"), None, None)]
    else if |ends| > 0 then
      var t := FormatTime(ends[|ends| - 1].log.time);
      [Irregularity(ends[|ends| - 1].log.employeeId, name, dept, date, MissingBreakRecord,
         "Öğle arası bitiş kaydı (" + t + ") var ancak başlangıç kaydı yok.",
         Some(t), Some("Mola Başlangıcı Bekleniyor"), None, None)]
    else []
  }

  /** The time worked: first check-in to last check-out, less the lunch taken when
      both lunch markers exist. */
  function Worked(daily: seq<NamedLog>): int
    requires |OfType(daily, CheckIn)| > 0 && |OfType(daily, CheckOut)| > 0
  {
    var ins, outs := OfType(daily, CheckIn), OfType(daily, CheckOut);
    MinuteOf(outs[|outs| - 1]) - MinuteOf(ins[0]) - LunchDeducted(daily)
  }

  /** The lunch subtracted from the working time: the lunch taken when both
      lunch markers exist, nothing otherwise. */
  function LunchDeducted(daily: seq<NamedLog>): int
  {
    if |OfType(daily, LunchStart)| > 0 && |OfType(daily, LunchEnd)| > 0 then LunchTaken(daily) else 0
  }

  /** The short-day row: both a check-in and a check-out, and less time worked than
      expected. */
  function ShortRow(date: string, daily: seq<NamedLog>, s: Schedule, name: string, dept: Option<string>): (rs: seq<Irregularity>)
    requires Complete(s)
    ensures |rs| <= 1 && RowsFor(rs, date, name, dept)
    ensures forall k :: 0 <= k < |rs| ==> rs[k].kind == ShortDay
  {
    var ins, outs := OfType(daily, CheckIn), OfType(daily, CheckOut);
    if |ins| > 0 && |outs| > 0 && Worked(daily) < ExpectedWorkDay(s) then
      var e, t := FormatMinutes(ExpectedWorkDay(s)), FormatMinutes(Worked(daily));
      [Irregularity(ins[0].log.employeeId, name, dept, date, ShortDay,
         "Beklenen " + e + " yerine " + t + " çalışıldı.",
         None, None, Some(t), Some(e))]
    else []
  }

  /** Rows dated `date` that carry the given employee name and department. */
  predicate RowsFor(rs: seq<Irregularity>, date: string, name: string, dept: Option<string>)
  {
    forall k :: 0 <= k < |rs| ==> rs[k].date == date && rs[k].employeeName == name && rs[k].departmentName == dept
  }

  lemma RowsForAppend(a: seq<Irregularity>, b: seq<Irregularity>, date: string, name: string, dept: Option<string>)
    requires RowsFor(a, date, name, dept) && RowsFor(b, date, name, dept)
    ensures RowsFor(a + b, date, name, dept)
  {
  }

  /** The rows of one date, in the order they are pushed: missing check-out, late
      arrival, early departure, the lunch row, short day. */
  function DayRecords(date: string, daily: seq<NamedLog>, s: Schedule, nameParam: string,
                      dept: Option<string>, today: string, nowMinutes: int): (rs: seq<Irregularity>)
    requires Complete(s)
  {
    var name := ResolvedName(nameParam, daily);
    MissingCheckOutRow(date, daily, s, name, dept, today, nowMinutes)
      + LateRow(date, daily, s, name, dept) + EarlyRow(date, daily, s, name, dept)
      + LunchRow(date, daily, s, name, dept) + ShortRow(date, daily, s, name, dept)
  }

  /** The rows of the dates `ds`, date after date. */
  function RecordsOfDates(ds: seq<string>, logs: seq<NamedLog>, s: Schedule, nameParam: string,
                          dept: Option<string>, today: string, nowMinutes: int): seq<Irregularity>
    requires Complete(s)
  {
    if ds == [] then []
    else
      var d := ds[|ds| - 1];
      RecordsOfDates(ds[..|ds| - 1], logs, s, nameParam, dept, today, nowMinutes)
        + DayRecords(d, DayLogs(logs, d), s, nameParam, dept, today, nowMinutes)
  }

  /** The whole report: nothing for an incomplete schedule, otherwise the rows of
      every date in order of the date's first punch. */
  function Classify(logs: seq<NamedLog>, s: Schedule, nameParam: string, dept: Option<string>,
                    today: string, nowMinutes: int): seq<Irregularity>
  {
    if !Complete(s) then []
    else RecordsOfDates(DatesOf(logs, DateOf), logs, s, nameParam, dept, today, nowMinutes)
  }

  /** A date yields at most four rows (a missing check-out and an early
      departure exclude each other), all dated that date and naming the resolved
      employee name and the given department. */
  lemma DayRecordsShape(date: string, daily: seq<NamedLog>, s: Schedule, nameParam: string,
                        dept: Option<string>, today: string, nowMinutes: int)
    requires Complete(s)
    ensures var rs := DayRecords(date, daily, s, nameParam, dept, today, nowMinutes);
      |rs| <= 4 && RowsFor(rs, date, ResolvedName(nameParam, daily), dept)
  {
    var name := ResolvedName(nameParam, daily);
    var m, l, e := MissingCheckOutRow(date, daily, s, name, dept, today, nowMinutes),
      LateRow(date, daily, s, name, dept), EarlyRow(date, daily, s, name, dept);
    var lu, sh := LunchRow(date, daily, s, name, dept), ShortRow(date, daily, s, name, dept);
    assert m == [] || e == [];
    RowsForAppend(m, l, date, name, dept);
    RowsForAppend(m + l, e, date, name, dept);
    RowsForAppend(m + l + e, lu, date, name, dept);
    RowsForAppend(m + l + e + lu, sh, date, name, dept);
  }

  predicate DatedIn(rs: seq<Irregularity>, ds: seq<string>)
  {
    forall k :: 0 <= k < |rs| ==> rs[k].date in ds
  }

  lemma {:induction false} RecordsOfDatesDated(ds: seq<string>, logs: seq<NamedLog>, s: Schedule, nameParam: string,
                                               dept: Option<string>, today: string, nowMinutes: int)
    requires Complete(s)
    ensures DatedIn(RecordsOfDates(ds, logs, s, nameParam, dept, today, nowMinutes), ds)
  {
    if ds != [] {
      var d := ds[|ds| - 1];
      var p := ds[..|ds| - 1];
      assert ds == p + [d];
      RecordsOfDatesDated(p, logs, s, nameParam, dept, today, nowMinutes);
      DayRecordsShape(d, DayLogs(logs, d), s, nameParam, dept, today, nowMinutes);
      var a := RecordsOfDates(p, logs, s, nameParam, dept, today, nowMinutes);
      var b := DayRecords(d, DayLogs(logs, d), s, nameParam, dept, today, nowMinutes);
      DatedInAppend(a, b, p, d);
    }
  }

  lemma DatedInAppend(a: seq<Irregularity>, b: seq<Irregularity>, ds: seq<string>, d: string)
    requires DatedIn(a, ds)
    requires forall k :: 0 <= k < |b| ==> b[k].date == d
    ensures DatedIn(a + b, ds + [d])
  {
    forall k | 0 <= k < |a + b| ensures (a + b)[k].date in ds + [d] {
      if k < |a| {
        assert (a + b)[k] == a[k];
        assert a[k].date in ds;
      } else {
        assert (a + b)[k] == b[k - |a|];
      }
    }
  }

  predicate NoRowsOn(rs: seq<Irregularity>, date: string)
  {
    forall k :: 0 <= k < |rs| ==> rs[k].date != date
  }

  /** The rows of the first `i` dates carry none of the later dates. */
  lemma NoRowsOnLaterDate(dates: seq<string>, i: nat, logs: seq<NamedLog>, s: Schedule, nameParam: string,
                          dept: Option<string>, today: string, nowMinutes: int)
    requires Complete(s) && Distinct(dates) && i < |dates|
    ensures NoRowsOn(RecordsOfDates(dates[..i], logs, s, nameParam, dept, today, nowMinutes), dates[i])
  {
    RecordsOfDatesDated(dates[..i], logs, s, nameParam, dept, today, nowMinutes);
    assert dates[i] !in dates[..i];
  }

  /** Rows that all carry the given employee name and department. */
  predicate NamedAs(rs: seq<Irregularity>, name: string, dept: Option<string>)
  {
    forall k :: 0 <= k < |rs| ==> rs[k].employeeName == name && rs[k].departmentName == dept
  }

  lemma {:induction false} RecordsOfDatesNamed(ds: seq<string>, logs: seq<NamedLog>, s: Schedule, nameParam: string,
                                               dept: Option<string>, today: string, nowMinutes: int)
    requires Complete(s) && nameParam != ""
    ensures NamedAs(RecordsOfDates(ds, logs, s, nameParam, dept, today, nowMinutes), nameParam, dept)
  {
    if ds != [] {
      var d := ds[|ds| - 1];
      var p := ds[..|ds| - 1];
      RecordsOfDatesNamed(p, logs, s, nameParam, dept, today, nowMinutes);
      DayRecordsShape(d, DayLogs(logs, d), s, nameParam, dept, today, nowMinutes);
      var a := RecordsOfDates(p, logs, s, nameParam, dept, today, nowMinutes);
      var b := DayRecords(d, DayLogs(logs, d), s, nameParam, dept, today, nowMinutes);
      NamedAsAppend(a, b, d, nameParam, dept);
    }
  }

  lemma NamedAsAppend(a: seq<Irregularity>, b: seq<Irregularity>, date: string, name: string, dept: Option<string>)
    requires NamedAs(a, name, dept) && RowsFor(b, date, name, dept)
    ensures NamedAs(a + b, name, dept)
  {
    forall k | 0 <= k < |a + b|
      ensures (a + b)[k].employeeName == name && (a + b)[k].departmentName == dept
    {
      if k < |a| {
        assert (a + b)[k] == a[k];
      } else {
        assert (a + b)[k] == b[k - |a|];
      }
    }
  }

  /** A caller that gives an employee name sees it, and the department it gives,
      on every row of the report. */
  lemma ClassifyNamed(logs: seq<NamedLog>, s: Schedule, nameParam: string, dept: Option<string>,
                      today: string, nowMinutes: int)
    requires nameParam != ""
    ensures NamedAs(Classify(logs, s, nameParam, dept, today, nowMinutes), nameParam, dept)
  {
    if Complete(s) {
      RecordsOfDatesNamed(DatesOf(logs, DateOf), logs, s, nameParam, dept, today, nowMinutes);
    }
  }

  lemma RecordsOfDatesSnoc(dates: seq<string>, i: nat, logs: seq<NamedLog>, s: Schedule, nameParam: string,
                           dept: Option<string>, today: string, nowMinutes: int)
    requires Complete(s) && i < |dates|
    ensures RecordsOfDates(dates[..i + 1], logs, s, nameParam, dept, today, nowMinutes)
      == RecordsOfDates(dates[..i], logs, s, nameParam, dept, today, nowMinutes)
         + DayRecords(dates[i], DayLogs(logs, dates[i]), s, nameParam, dept, today, nowMinutes)
  {
    assert dates[..i + 1][..i] == dates[..i];
  }

  /** The body of the loop over dates: appends the date's rows to `irregularities`. */
  method ClassifyDay(date: string, dailyLogs: seq<NamedLog>, schedule: Schedule, employeeNameParam: string,
                     departmentNameParam: Option<string>, today: string, nowMinutes: int,
                     irregularities: seq<Irregularity>)
    returns (r: seq<Irregularity>)
    requires Complete(schedule)
    requires NoRowsOn(irregularities, date)
    ensures r == irregularities
      + DayRecords(date, dailyLogs, schedule, employeeNameParam, departmentNameParam, today, nowMinutes)
  {
    var name := ResolvedName(employeeNameParam, dailyLogs);
    var dept := departmentNameParam;
    ghost var m, l, e, lu, sh := MissingCheckOutRow(date, dailyLogs, schedule, name, dept, today, nowMinutes),
      LateRow(date, dailyLogs, schedule, name, dept), EarlyRow(date, dailyLogs, schedule, name, dept),
      LunchRow(date, dailyLogs, schedule, name, dept), ShortRow(date, dailyLogs, schedule, name, dept);
    r := PushMissingCheckOut(date, dailyLogs, schedule, name, dept, today, nowMinutes, irregularities);
    r := PushLateArrival(date, dailyLogs, schedule, name, dept, r);
    AppendAssoc(irregularities, m, l);
    r := PushEarlyDeparture(date, dailyLogs, schedule, name, dept, r);
    AppendAssoc(irregularities, m + l, e);
    r := PushLunch(date, dailyLogs, schedule, name, dept, r);
    AppendAssoc(irregularities, m + l + e, lu);
    if |OfType(dailyLogs, CheckOut)| > 0 {
      assert m == [];
      assert irregularities + m == irregularities;
      NoMissingCheckOutAppend(irregularities, l, date);
      NoMissingCheckOutAppend(irregularities + l, e, date);
      NoMissingCheckOutAppend(irregularities + l + e, lu, date);
    }
    r := PushShortDay(date, dailyLogs, schedule, name, dept, r);
    AppendAssoc(irregularities, m + l + e + lu, sh);
  }

  method PushMissingCheckOut(date: string, dailyLogs: seq<NamedLog>, schedule: Schedule, name: string,
                             dept: Option<string>, today: string, nowMinutes: int, irregularities: seq<Irregularity>)
    returns (r: seq<Irregularity>)
    requires Complete(schedule)
    ensures r == irregularities + MissingCheckOutRow(date, dailyLogs, schedule, name, dept, today, nowMinutes)
  {
    var checkIns := OfType(dailyLogs, CheckIn);
    var checkOuts := OfType(dailyLogs, CheckOut);
    r := irregularities;
    if |checkIns| > 0 && |checkOuts| == 0 {
      var isMissingCheckout := false;
      if StrLt(date, today) {
        isMissingCheckout := true;
      } else if date == today {
        if nowMinutes > Minutes(schedule.workEnd.value) {
          isMissingCheckout := true;
        }
      }
      if isMissingCheckout {
        var t := FormatTime(checkIns[0].log.time);
        r := r + [Irregularity(checkIns[0].log.employeeId, name, dept, date, MissingCheckOut,
          "Giriş yapıldı (" + t + ") ancak gün sonu çıkış kaydı bulunamadı.",
          Some(t), Some("Çıkış Bekleniyor"), None, None)];
      }
    }
  }

  method PushLateArrival(date: string, dailyLogs: seq<NamedLog>, schedule: Schedule, name: string,
                         dept: Option<string>, irregularities: seq<Irregularity>)
    returns (r: seq<Irregularity>)
    requires Complete(schedule)
    ensures r == irregularities + LateRow(date, dailyLogs, schedule, name, dept)
  {
    var checkIns := OfType(dailyLogs, CheckIn);
    r := irregularities;
    if |checkIns| > 0 && MinuteOf(checkIns[0]) > Minutes(schedule.workStart.value) {
      var e, t := FormatTime(schedule.workStart.value), FormatTime(checkIns[0].log.time);
      r := r + [Irregularity(checkIns[0].log.employeeId, name, dept, date, LateArrival,
        "Beklenen " + e + " yerine " + t + " giriş yapıldı.", Some(t), Some(e), None, None)];
    }
  }

  method PushEarlyDeparture(date: string, dailyLogs: seq<NamedLog>, schedule: Schedule, name: string,
                            dept: Option<string>, irregularities: seq<Irregularity>)
    returns (r: seq<Irregularity>)
    requires Complete(schedule)
    ensures r == irregularities + EarlyRow(date, dailyLogs, schedule, name, dept)
  {
    var checkOuts := OfType(dailyLogs, CheckOut);
    r := irregularities;
    if |checkOuts| > 0 && MinuteOf(checkOuts[|checkOuts| - 1]) < Minutes(schedule.workEnd.value) {
      var lastCheckOut := checkOuts[|checkOuts| - 1];
      var e, t := FormatTime(schedule.workEnd.value), FormatTime(lastCheckOut.log.time);
      r := r + [Irregularity(lastCheckOut.log.employeeId, name, dept, date, EarlyDeparture,
        "Beklenen " + e + " yerine " + t + " çıkış yapıldı.", Some(t), Some(e), None, None)];
    }
  }

  method PushLunch(date: string, dailyLogs: seq<NamedLog>, schedule: Schedule, name: string,
                   dept: Option<string>, irregularities: seq<Irregularity>)
    returns (r: seq<Irregularity>)
    requires Complete(schedule)
    ensures r == irregularities + LunchRow(date, dailyLogs, schedule, name, dept)
  {
    var lunchStarts := OfType(dailyLogs, LunchStart);
    var lunchEnds := OfType(dailyLogs, LunchEnd);
    r := irregularities;
    if |lunchStarts| > 0 && |lunchEnds| > 0 {
      var actualLunchDuration := MinuteOf(lunchEnds[|lunchEnds| - 1]) - MinuteOf(lunchStarts[0]);
      var expectedLunchDuration := ExpectedLunch(schedule);
      if actualLunchDuration > expectedLunchDuration {
        var e, t := FormatMinutes(expectedLunchDuration), FormatMinutes(actualLunchDuration);
        r := r + [Irregularity(lunchStarts[0].log.employeeId, name, dept, date, LongBreak,
          "Beklenen " + e + " yerine " + t + " mola kullanıldı.", None, None, Some(t), Some(e))];
      }
    } else if |lunchStarts| > 0 {
      var t := FormatTime(lunchStarts[0].log.time);
      r := r + [Irregularity(lunchStarts[0].log.employeeId, name, dept, date, MissingBreakRecord,
        "Öğle arası başladı (" + t + ") ancak bitiş kaydı yok.",
        Some(t), Some("Mola Bitişi Bekleniyor"), None, None)];
    } else if |lunchEnds| > 0 {
      var lastLunchEnd := lunchEnds[|lunchEnds| - 1];
      var t := FormatTime(lastLunchEnd.log.time);
      r := r + [Irregularity(lastLunchEnd.log.employeeId, name, dept, date, MissingBreakRecord,
        "Öğle arası bitiş kaydı (" + t + ") var ancak başlangıç kaydı yok.",
        Some(t), Some("Mola Başlangıcı Bekleniyor"), None, None)];
    }
  }

  /** The short-day check, with its guard against a missing-check-out row for the
      same date and employee already in the report; that guard never holds here,
      because such a row needs a day without check-outs. */
  method PushShortDay(date: string, dailyLogs: seq<NamedLog>, schedule: Schedule, name: string,
                      dept: Option<string>, irregularities: seq<Irregularity>)
    returns (r: seq<Irregularity>)
    requires Complete(schedule)
    requires |OfType(dailyLogs, CheckOut)| > 0 ==> NoMissingCheckOut(irregularities, date)
    ensures r == irregularities + ShortRow(date, dailyLogs, schedule, name, dept)
  {
    var checkIns := OfType(dailyLogs, CheckIn);
    var checkOuts := OfType(dailyLogs, CheckOut);
    r := irregularities;
    if |checkIns| > 0 && |checkOuts| > 0 {
      var actualWorkDuration := ActualWorkDuration(dailyLogs);
      var id := checkIns[0].log.employeeId;
      var hasCheckInOutIrregularity :=
        exists k :: 0 <= k < |r| && r[k].date == date && r[k].employeeId == id && r[k].kind == MissingCheckOut;
      assert !hasCheckInOutIrregularity;
      var expectedWorkDayDuration := ExpectedWorkDay(schedule);
      if !hasCheckInOutIrregularity && actualWorkDuration < expectedWorkDayDuration {
        var e, t := FormatMinutes(expectedWorkDayDuration), FormatMinutes(actualWorkDuration);
        r := r + [Irregularity(id, name, dept, date, ShortDay,
          "Beklenen " + e + " yerine " + t + " çalışıldı.", None, None, Some(t), Some(e))];
      } else {
        assert ShortRow(date, dailyLogs, schedule, name, dept) == [];
      }
    }
  }

  /** The short-day check's working time: first check-in to last check-out, less
      the lunch from the first lunch start to the last lunch end when both exist. */
  method ActualWorkDuration(dailyLogs: seq<NamedLog>) returns (actualWorkDuration: int)
    requires |OfType(dailyLogs, CheckIn)| > 0 && |OfType(dailyLogs, CheckOut)| > 0
    ensures actualWorkDuration == Worked(dailyLogs)
  {
    var checkIns := OfType(dailyLogs, CheckIn);
    var checkOuts := OfType(dailyLogs, CheckOut);
    var lunchStarts := OfType(dailyLogs, LunchStart);
    var lunchEnds := OfType(dailyLogs, LunchEnd);
    actualWorkDuration := MinuteOf(checkOuts[|checkOuts| - 1]) - MinuteOf(checkIns[0]);
    if |lunchStarts| > 0 && |lunchEnds| > 0 {
      actualWorkDuration := actualWorkDuration - (MinuteOf(lunchEnds[|lunchEnds| - 1]) - MinuteOf(lunchStarts[0]));
    }
  }

  /** No row is a missing-check-out row for `date`. */
  predicate NoMissingCheckOut(rs: seq<Irregularity>, date: string)
  {
    forall k :: 0 <= k < |rs| && rs[k].date == date ==> rs[k].kind != MissingCheckOut
  }

  lemma NoMissingCheckOutAppend(a: seq<Irregularity>, b: seq<Irregularity>, date: string)
    requires NoMissingCheckOut(a, date)
    requires forall k :: 0 <= k < |b| ==> b[k].kind != MissingCheckOut
    ensures NoMissingCheckOut(a + b, date)
  {
  }

  /** `identifyTimeIrregularities`, with today's date and the current minute of the
      day passed in. */
  method IdentifyTimeIrregularities(logs: seq<NamedLog>, schedule: Schedule, employeeNameParam: string,
                                    departmentNameParam: Option<string>, today: string, nowMinutes: int)
    returns (irregularities: seq<Irregularity>)
    ensures irregularities == Classify(logs, schedule, employeeNameParam, departmentNameParam, today, nowMinutes)
    ensures !Complete(schedule) ==> irregularities == []
  {
    irregularities := [];
    if schedule.workStart.None? || schedule.workEnd.None? || schedule.lunchStart.None? || schedule.lunchEnd.None? {
      return;
    }
    var dates, logsByDate := GroupByDate(logs, DateOf);
    DatesOfDistinct(logs, DateOf);
    var i := 0;
    while i < |dates|
      invariant 0 <= i <= |dates|
      invariant irregularities
        == RecordsOfDates(dates[..i], logs, schedule, employeeNameParam, departmentNameParam, today, nowMinutes)
    {
      var date := dates[i];
      var dailyLogs := SortBy(logsByDate[date], MinuteOf);
      assert dailyLogs == DayLogs(logs, date);
      NoRowsOnLaterDate(dates, i, logs, schedule, employeeNameParam, departmentNameParam, today, nowMinutes);
      irregularities := ClassifyDay(date, dailyLogs, schedule, employeeNameParam, departmentNameParam,
                                    today, nowMinutes, irregularities);
      RecordsOfDatesSnoc(dates, i, logs, schedule, employeeNameParam, departmentNameParam, today, nowMinutes);
      i := i + 1;
    }
    assert dates[..i] == dates;
  }

  /** A day's punches, as the classifier reads them, are exactly the punches of
      that date, in minute order. */
  lemma DayLogsFacts(logs: seq<NamedLog>, date: string)
    ensures SortedBy(DayLogs(logs, date), MinuteOf)
    ensures forall x :: x in DayLogs(logs, date) <==> x in logs && x.log.date == date
  {
    var on := OnDate(logs, DateOf, date);
    SortByIsSorted(on, MinuteOf);
    SortByMembers(on, MinuteOf);
    OnDateMembers(logs, DateOf, date);
    var r := DayLogs(logs, date);
    assert forall x :: x in r ==> x in on;
    assert forall x :: x in on ==> x in r;
  }

  predicate HasPunch(daily: seq<NamedLog>, k: Kind)
  {
    exists i :: 0 <= i < |daily| && daily[i].log.kind == k
  }

  /** A day has punches of a kind exactly when some punch is of that kind, and the
      first and last of them are punches of the day. */
  lemma OfTypeMembers(daily: seq<NamedLog>, k: Kind)
    ensures OfType(daily, k) != [] <==> HasPunch(daily, k)
    ensures OfType(daily, k) != [] ==>
      OfType(daily, k)[0] in daily && OfType(daily, k)[|OfType(daily, k)| - 1] in daily
  {
    FilterEmpty(daily, KindIs(k));
    FilterMembers(daily, KindIs(k));
  }

  /** In a day sorted by minute, the first punch of a kind is its earliest and the
      last one its latest. */
  lemma OfTypeEnds(daily: seq<NamedLog>, k: Kind)
    requires SortedBy(daily, MinuteOf) && OfType(daily, k) != []
    ensures forall i :: 0 <= i < |daily| && daily[i].log.kind == k ==>
      MinuteOf(OfType(daily, k)[0]) <= MinuteOf(daily[i]) <= MinuteOf(OfType(daily, k)[|OfType(daily, k)| - 1])
  {
    FilterSortedEnds(daily, KindIs(k), MinuteOf);
  }

  lemma OfTypeBounds(daily: seq<NamedLog>, k: Kind)
    requires SortedBy(daily, MinuteOf)
    ensures OfType(daily, k) != [] <==> HasPunch(daily, k)
    ensures OfType(daily, k) != [] ==>
      && OfType(daily, k)[0] in daily
      && OfType(daily, k)[|OfType(daily, k)| - 1] in daily
      && forall i :: 0 <= i < |daily| && daily[i].log.kind == k ==>
           MinuteOf(OfType(daily, k)[0]) <= MinuteOf(daily[i]) <= MinuteOf(OfType(daily, k)[|OfType(daily, k)| - 1])
  {
    OfTypeMembers(daily, k);
    if OfType(daily, k) != [] {
      OfTypeEnds(daily, k);
    }
  }

  /** A late-arrival row is reported exactly when the day has a check-in and every
      check-in of the day is after the start of work. */
  lemma LateArrivalIff(date: string, daily: seq<NamedLog>, s: Schedule, name: string, dept: Option<string>)
    requires Complete(s) && SortedBy(daily, MinuteOf)
    ensures LateRow(date, daily, s, name, dept) != [] <==>
      && HasPunch(daily, CheckIn)
      && forall i :: 0 <= i < |daily| && daily[i].log.kind == CheckIn ==> MinuteOf(daily[i]) > Minutes(s.workStart.value)
  {
    OfTypeBounds(daily, CheckIn);
    var ins := OfType(daily, CheckIn);
    if ins != [] {
      var j :| 0 <= j < |daily| && daily[j] == ins[0];
      assert daily[j].log.kind == CheckIn by { assert ins[0].log.kind == CheckIn; }
    }
  }

  /** An early-departure row is reported exactly when the day has a check-out and
      every check-out of the day is before the end of work. */
  lemma EarlyDepartureIff(date: string, daily: seq<NamedLog>, s: Schedule, name: string, dept: Option<string>)
    requires Complete(s) && SortedBy(daily, MinuteOf)
    ensures EarlyRow(date, daily, s, name, dept) != [] <==>
      && HasPunch(daily, CheckOut)
      && forall i :: 0 <= i < |daily| && daily[i].log.kind == CheckOut ==> MinuteOf(daily[i]) < Minutes(s.workEnd.value)
  {
    OfTypeBounds(daily, CheckOut);
    var outs := OfType(daily, CheckOut);
    if outs != [] {
      var last := outs[|outs| - 1];
      var j :| 0 <= j < |daily| && daily[j] == last;
      assert daily[j].log.kind == CheckOut by { assert last.log.kind == CheckOut; }
    }
  }

  /** A missing-check-out row is reported exactly when the day has a check-in, no
      check-out, and its check-out is overdue. */
  lemma MissingCheckOutIff(date: string, daily: seq<NamedLog>, s: Schedule, name: string, dept: Option<string>,
                           today: string, nowMinutes: int)
    requires Complete(s) && SortedBy(daily, MinuteOf)
    ensures MissingCheckOutRow(date, daily, s, name, dept, today, nowMinutes) != [] <==>
      HasPunch(daily, CheckIn) && !HasPunch(daily, CheckOut) && CheckOutOverdue(date, s, today, nowMinutes)
  {
    OfTypeBounds(daily, CheckIn);
    OfTypeBounds(daily, CheckOut);
  }

  /** A long-break row is reported exactly when the day has both lunch markers
      and the lunch taken exceeds the scheduled lunch. */
  lemma LongBreakIff(date: string, daily: seq<NamedLog>, s: Schedule, name: string, dept: Option<string>)
    requires Complete(s)
    ensures HasLongBreak(LunchRow(date, daily, s, name, dept)) ==> HasPunch(daily, LunchStart) && HasPunch(daily, LunchEnd)
    ensures HasPunch(daily, LunchStart) && HasPunch(daily, LunchEnd) ==>
      && |OfType(daily, LunchStart)| > 0 && |OfType(daily, LunchEnd)| > 0
      && (HasLongBreak(LunchRow(date, daily, s, name, dept)) <==> LunchTaken(daily) > ExpectedLunch(s))
  {
    OfTypeMembers(daily, LunchStart);
    OfTypeMembers(daily, LunchEnd);
  }

  predicate HasLongBreak(rs: seq<Irregularity>) { rs != [] && rs[0].kind == LongBreak }

  /** A missing-break row is reported exactly when one lunch marker kind occurs
      that day and the other does not. */
  lemma MissingBreakIff(date: string, daily: seq<NamedLog>, s: Schedule, name: string, dept: Option<string>)
    requires Complete(s)
    ensures var rs := LunchRow(date, daily, s, name, dept);
      (rs != [] && rs[0].kind == MissingBreakRecord) <==> HasPunch(daily, LunchStart) != HasPunch(daily, LunchEnd)
  {
    OfTypeMembers(daily, LunchStart);
    OfTypeMembers(daily, LunchEnd);
  }

  /** The lunch taken runs from the earliest lunch start to the latest lunch end. */
  lemma LunchTakenSpansMarkers(daily: seq<NamedLog>)
    requires SortedBy(daily, MinuteOf)
    requires |OfType(daily, LunchStart)| > 0 && |OfType(daily, LunchEnd)| > 0
    ensures forall i, j :: (0 <= i < |daily| && 0 <= j < |daily|
      && daily[i].log.kind == LunchStart && daily[j].log.kind == LunchEnd
      ==> MinuteOf(daily[j]) - MinuteOf(daily[i]) <= LunchTaken(daily))
  {
    OfTypeBounds(daily, LunchStart);
    OfTypeBounds(daily, LunchEnd);
  }

  /** A short-day row is reported exactly when the day has a check-in and a
      check-out and less time was worked than scheduled; it never accompanies a
      missing-check-out row. */
  lemma ShortDayIff(date: string, daily: seq<NamedLog>, s: Schedule, name: string, dept: Option<string>,
                    today: string, nowMinutes: int)
    requires Complete(s) && SortedBy(daily, MinuteOf)
    ensures ShortRow(date, daily, s, name, dept) != [] ==> HasPunch(daily, CheckIn) && HasPunch(daily, CheckOut)
    ensures HasPunch(daily, CheckIn) && HasPunch(daily, CheckOut) ==>
      && |OfType(daily, CheckIn)| > 0 && |OfType(daily, CheckOut)| > 0
      && (ShortRow(date, daily, s, name, dept) != [] <==> Worked(daily) < ExpectedWorkDay(s))
    ensures ShortRow(date, daily, s, name, dept) != [] ==> MissingCheckOutRow(date, daily, s, name, dept, today, nowMinutes) == []
  {
    OfTypeBounds(daily, CheckIn);
    OfTypeBounds(daily, CheckOut);
  }

  /** The time worked spans from the earliest check-in to the latest check-out:
      no check-in/check-out pair of the day is further apart. */
  lemma WorkedSpansPunches(daily: seq<NamedLog>)
    requires SortedBy(daily, MinuteOf)
    requires |OfType(daily, CheckIn)| > 0 && |OfType(daily, CheckOut)| > 0
    ensures forall i, j :: (0 <= i < |daily| && 0 <= j < |daily|
      && daily[i].log.kind == CheckIn && daily[j].log.kind == CheckOut
      ==> MinuteOf(daily[j]) - MinuteOf(daily[i]) <= Worked(daily) + LunchDeducted(daily))
  {
    OfTypeBounds(daily, CheckIn);
    OfTypeBounds(daily, CheckOut);
  }

  /** The report, restricted to one date, is that date's rows; a date without
      punches has none. */
  lemma {:induction false} RowsOfDate(logs: seq<NamedLog>, ds: seq<string>, s: Schedule, nameParam: string,
                                      dept: Option<string>, today: string, nowMinutes: int, d: string)
    requires Complete(s) && Distinct(ds)
    ensures Filter(RecordsOfDates(ds, logs, s, nameParam, dept, today, nowMinutes), (r: Irregularity) => r.date == d)
      == if d in ds then DayRecords(d, DayLogs(logs, d), s, nameParam, dept, today, nowMinutes) else []
  {
    var p := (r: Irregularity) => r.date == d;
    if ds != [] {
      var q := ds[..|ds| - 1];
      var last := ds[|ds| - 1];
      assert ds == q + [last];
      assert Distinct(q);
      RowsOfDate(logs, q, s, nameParam, dept, today, nowMinutes, d);
      var b := DayRecords(last, DayLogs(logs, last), s, nameParam, dept, today, nowMinutes);
      FilterAppend(RecordsOfDates(q, logs, s, nameParam, dept, today, nowMinutes), b, p);
      DayRecordsOnDate(last, DayLogs(logs, last), s, nameParam, dept, today, nowMinutes, d);
      if last == d {
        assert d !in q;
      }
    }
  }

  /** A date's rows, restricted to a date, are all of them or none. */
  lemma DayRecordsOnDate(date: string, daily: seq<NamedLog>, s: Schedule, nameParam: string,
                         dept: Option<string>, today: string, nowMinutes: int, d: string)
    requires Complete(s)
    ensures var b := DayRecords(date, daily, s, nameParam, dept, today, nowMinutes);
      Filter(b, (r: Irregularity) => r.date == d) == if date == d then b else []
  {
    var b := DayRecords(date, daily, s, nameParam, dept, today, nowMinutes);
    DayRecordsShape(date, daily, s, nameParam, dept, today, nowMinutes);
    if date == d {
      FilterAll(b, (r: Irregularity) => r.date == d);
    } else {
      FilterNone(b, (r: Irregularity) => r.date == d);
    }
  }
}
