/** The pure helpers of the attendance utilities: the log filters, the latest-log
    pick, the two display formatters, and the pairwise `calculateWorkHours`. */
module Helpers {
  import opened Common
  import opened Text
  import opened Clock
  import opened Attendance

  predicate FromStart(l: Log, start: string) { start == "" || !StrLt(l.date, start) }
  predicate UntilEnd(l: Log, end: string) { end == "" || !StrLt(end, l.date) }
  predicate OfKind(l: Log, kindFilter: string)
  {
    kindFilter == "" || kindFilter == "all" || KindText(l.kind) == kindFilter
  }

  /** The four stages of `filterLogs`; a stage whose argument is empty (or "all",
      for the type) passes its input through untouched. */
  function ByEmployee(s: seq<Log>, employeeId: string): seq<Log>
  {
    Filter(s, (l: Log) => l.employeeId == employeeId)
  }

  function ByStart(s: seq<Log>, start: string): seq<Log>
  {
    if start != "" then Filter(s, (l: Log) => !StrLt(l.date, start)) else s
  }

  function ByEnd(s: seq<Log>, end: string): seq<Log>
  {
    if end != "" then Filter(s, (l: Log) => !StrLt(end, l.date)) else s
  }

  function ByKind(s: seq<Log>, kindFilter: string): seq<Log>
  {
    if kindFilter != "" && kindFilter != "all" then Filter(s, (l: Log) => KindText(l.kind) == kindFilter) else s
  }

  /** `filterLogs`: narrows by employee, then by each non-empty date bound, then
      by type unless the type is empty or "all". */
  function FilterLogs(logs: seq<Log>, employeeId: string, start: string, end: string, kindFilter: string): seq<Log>
  {
    ByKind(ByEnd(ByStart(ByEmployee(logs, employeeId), start), end), kindFilter)
  }

  lemma FilterSnoc<T>(s: seq<T>, x: T, p: T -> bool)
    ensures Filter(s + [x], p) == Filter(s, p) + (if p(x) then [x] else [])
  {
    assert (s + [x])[..|s|] == s;
  }

  /** Each stage filters the parts of a concatenation separately. */
  lemma StagesAppend(a: seq<Log>, b: seq<Log>, employeeId: string, start: string, end: string, kindFilter: string)
    ensures ByEmployee(a + b, employeeId) == ByEmployee(a, employeeId) + ByEmployee(b, employeeId)
    ensures ByStart(a + b, start) == ByStart(a, start) + ByStart(b, start)
    ensures ByEnd(a + b, end) == ByEnd(a, end) + ByEnd(b, end)
    ensures ByKind(a + b, kindFilter) == ByKind(a, kindFilter) + ByKind(b, kindFilter)
  {
    FilterAppend(a, b, (l: Log) => l.employeeId == employeeId);
    FilterAppend(a, b, (l: Log) => !StrLt(l.date, start));
    FilterAppend(a, b, (l: Log) => !StrLt(end, l.date));
    FilterAppend(a, b, (l: Log) => KindText(l.kind) == kindFilter);
  }

  /** The chain keeps a single log exactly when it matches. */
  lemma FilterLogsSingle(x: Log, employeeId: string, start: string, end: string, kindFilter: string)
    ensures FilterLogs([x], employeeId, start, end, kindFilter)
      == if LogMatches(x, Some(employeeId), start, end, kindFilter) then [x] else []
  {
    FilterSnoc([], x, (l: Log) => l.employeeId == employeeId);
    FilterSnoc([], x, (l: Log) => !StrLt(l.date, start));
    FilterSnoc([], x, (l: Log) => !StrLt(end, l.date));
    FilterSnoc([], x, (l: Log) => KindText(l.kind) == kindFilter);
    assert [] + [x] == [x];
  }

  lemma FilterLogsSnoc(s: seq<Log>, x: Log, employeeId: string, start: string, end: string, kindFilter: string)
    ensures FilterLogs(s + [x], employeeId, start, end, kindFilter)
      == FilterLogs(s, employeeId, start, end, kindFilter)
         + (if LogMatches(x, Some(employeeId), start, end, kindFilter) then [x] else [])
  {
    var e, e' := ByEmployee(s, employeeId), ByEmployee([x], employeeId);
    StagesAppend(s, [x], employeeId, start, end, kindFilter);
    var a, a' := ByStart(e, start), ByStart(e', start);
    StagesAppend(e, e', employeeId, start, end, kindFilter);
    var d, d' := ByEnd(a, end), ByEnd(a', end);
    StagesAppend(a, a', employeeId, start, end, kindFilter);
    StagesAppend(d, d', employeeId, start, end, kindFilter);
    FilterLogsSingle(x, employeeId, start, end, kindFilter);
  }

  /** The chain of filters keeps exactly the matching logs, in input order. */
  lemma {:induction false} FilterLogsSelects(logs: seq<Log>, employeeId: string, start: string, end: string, kindFilter: string)
    ensures FilterLogs(logs, employeeId, start, end, kindFilter)
      == Filter(logs, (l: Log) => LogMatches(l, Some(employeeId), start, end, kindFilter))
  {
    if logs != [] {
      var n := |logs| - 1;
      assert logs == logs[..n] + [logs[n]];
      FilterLogsSelects(logs[..n], employeeId, start, end, kindFilter);
      FilterLogsSnoc(logs[..n], logs[n], employeeId, start, end, kindFilter);
    }
  }

  /** `getTodayLogs`, with today's date passed in. */
  function GetTodayLogs(logs: seq<Log>, employeeId: string, today: string): (r: seq<Log>)
    ensures IsSubsequence(r, logs)
    ensures forall i :: 0 <= i < |r| ==> r[i].employeeId == employeeId && r[i].date == today
    ensures forall i :: (0 <= i < |logs| && logs[i].employeeId == employeeId && logs[i].date == today
      ==> logs[i] in r)
    ensures forall x :: multiset(r)[x] == if x.employeeId == employeeId && x.date == today then multiset(logs)[x] else 0
  {
    FilterMultiset(logs, (l: Log) => l.employeeId == employeeId && l.date == today);
    FilterIsSubsequence(logs, (l: Log) => l.employeeId == employeeId && l.date == today);
    FilterMembers(logs, (l: Log) => l.employeeId == employeeId && l.date == today);
    Filter(logs, (l: Log) => l.employeeId == employeeId && l.date == today)
  }

  /** A `reduce` that keeps the element held unless a later one has a strictly
      greater key. */
  function LatestBy<T>(s: seq<T>, key: T -> int): T
    requires s != []
  {
    if |s| == 1 then s[0]
    else
      var held := LatestBy(s[..|s| - 1], key);
      if key(s[|s| - 1]) > key(held) then s[|s| - 1] else held
  }

  /** The reduce yields an element of `s`. */
  lemma {:induction false} LatestByIn<T>(s: seq<T>, key: T -> int)
    requires s != []
    ensures LatestBy(s, key) in s
  {
    if |s| > 1 {
      LatestByIn(s[..|s| - 1], key);
    }
  }

  /** The reduce yields the first element with the greatest key: it sits at the
      returned position `k`, no element's key exceeds its own, and every element
      before position `k` has a smaller key. */
  lemma {:induction false} LatestByIsFirstGreatest<T>(s: seq<T>, key: T -> int) returns (k: nat)
    requires s != []
    ensures k < |s| && s[k] == LatestBy(s, key)
    ensures forall j :: 0 <= j < |s| ==> key(s[j]) <= key(s[k])
    ensures forall j :: 0 <= j < k ==> key(s[j]) < key(s[k])
  {
    if |s| == 1 {
      k := 0;
    } else {
      var p := s[..|s| - 1];
      var k' := LatestByIsFirstGreatest(p, key);
      assert forall j :: 0 <= j < |p| ==> s[j] == p[j];
      if key(s[|s| - 1]) > key(p[k']) {
        k := |s| - 1;
      } else {
        k := k';
      }
    }
  }

  /** `getLatestLog`: the employee's punch with the latest date and time, or
      nothing when the employee has none. */
  function GetLatestLog(logs: seq<Log>, employeeId: string, epochDay: string -> int): (r: Option<Log>)
    ensures r.None? <==> forall i :: 0 <= i < |logs| ==> logs[i].employeeId != employeeId
    ensures r.Some? ==> r.value in logs && r.value.employeeId == employeeId
  {
    var userLogs := Filter(logs, (l: Log) => l.employeeId == employeeId);
    FilterMembers(logs, (l: Log) => l.employeeId == employeeId);
    if userLogs == [] then None
    else
      LatestByIn(userLogs, (l: Log) => Stamp(l, epochDay));
      Some(LatestBy(userLogs, (l: Log) => Stamp(l, epochDay)))
  }

  /** No punch of the employee is later than the one picked, and every punch
      listed before it is strictly earlier: of equally late punches the first
      listed wins. */
  lemma GetLatestLogIsLatest(logs: seq<Log>, employeeId: string, epochDay: string -> int)
    requires GetLatestLog(logs, employeeId, epochDay).Some?
    ensures var r := GetLatestLog(logs, employeeId, epochDay).value;
      && (forall i :: 0 <= i < |logs| && logs[i].employeeId == employeeId
            ==> Stamp(logs[i], epochDay) <= Stamp(r, epochDay))
      && exists k :: (0 <= k < |logs| && logs[k] == r
           && forall j :: 0 <= j < k && logs[j].employeeId == employeeId
                ==> Stamp(logs[j], epochDay) < Stamp(r, epochDay))
  {
    var key := (l: Log) => Stamp(l, epochDay);
    var userLogs := Filter(logs, (l: Log) => l.employeeId == employeeId);
    FilterMembers(logs, (l: Log) => l.employeeId == employeeId);
    var k := LatestByIsFirstGreatest(userLogs, key);
    var r := GetLatestLog(logs, employeeId, epochDay).value;
    forall i | 0 <= i < |logs| && logs[i].employeeId == employeeId
      ensures Stamp(logs[i], epochDay) <= Stamp(r, epochDay)
    {
      var j :| 0 <= j < |userLogs| && userLogs[j] == logs[i];
    }
    FirstOccurrence(logs, (l: Log) => l.employeeId == employeeId, key, k);
  }

  /** The first element of `s` that is the `k`-th element kept by `p` has no
      element kept by `p` before it whose key reaches its own, when none of the
      `k` kept before it does. */
  lemma {:induction false} FirstOccurrence<T>(s: seq<T>, p: T -> bool, key: T -> int, k: nat)
    requires k < |Filter(s, p)|
    requires forall j :: 0 <= j < k ==> key(Filter(s, p)[j]) < key(Filter(s, p)[k])
    ensures exists m :: (0 <= m < |s| && s[m] == Filter(s, p)[k]
      && forall j :: 0 <= j < m && p(s[j]) ==> key(s[j]) < key(s[m]))
  {
    var n := |s| - 1;
    var q := s[..n];
    FilterSnoc(q, s[n], p);
    assert q + [s[n]] == s;
    var kept := Filter(s, p);
    var up := Filter(q, p);
    FilterMembers(q, p);
    if k < |up| {
      assert forall j :: 0 <= j <= k ==> up[j] == kept[j];
      FirstOccurrence(q, p, key, k);
      var m :| 0 <= m < |q| && q[m] == up[k]
        && forall j :: 0 <= j < m && p(q[j]) ==> key(q[j]) < key(q[m]);
      assert s[m] == kept[k];
      assert forall j :: 0 <= j < m ==> s[j] == q[j];
    } else {
      assert kept[k] == s[n];
      forall j | 0 <= j < n && p(s[j])
        ensures key(s[j]) < key(s[n])
      {
        assert s[j] == q[j];
        var i :| 0 <= i < |up| && up[i] == s[j];
        assert kept[i] == up[i];
      }
    }
  }

  /** The index of the first ':' in `s`. */
  function ColonIndex(s: string): (i: nat)
    requires ':' in s
    ensures i < |s| && s[i] == ':' && ':' !in s[..i]
  {
    if s[0] == ':' then 0 else 1 + ColonIndex(s[1..])
  }

  /** `formatTime`: keeps what comes before the second ':' (the "HH:MM" of a time
      text); a text without ':' is returned as it is. */
  function FormatTime(s: string): (r: string)
    ensures |r| <= |s| && r == s[..|r|]
  {
    if s != [] && ':' in s then
      var i := ColonIndex(s);
      var rest := s[i + 1..];
      if ':' in rest then s[..i + 1 + ColonIndex(rest)] else s
    else s
  }

  /** Displaying a stored time keeps its hour and minute and drops the seconds. */
  lemma FormatTimeOfTimeText(t: TimeText)
    ensures FormatTime(t) == t[..5]
    ensures IsTimeText(FormatTime(t)) && Minutes(FormatTime(t)) == Minutes(t)
  {
    assert ColonIndex(t) == 2 by {
      assert t[0] != ':' && t[1] != ':';
      assert t[2..][0] == ':';
    }
    if |t| == 8 {
      var rest := t[3..];
      assert rest[0] != ':' && rest[1] != ':' && rest[2] == ':';
      assert ColonIndex(rest) == 2 by {
        assert rest[1..][0] != ':';
        assert rest[2..][0] == ':';
      }
    } else {
      assert ':' !in t[3..] by {
        assert forall i :: 3 <= i < 5 ==> t[i] != ':';
      }
    }
  }

  /** `formatMinutesToHoursAndMinutes`: "m dakika" under an hour, "h saat m dakika"
      from an hour on, and "0 dakika" for a negative count. */
  function FormatMinutes(n: int): string
  {
    if n < 0 then "0 dakika"
    else if n / 60 > 0 then NatToString(n / 60) + " saat " + NatToString(n % 60) + " dakika"
    else NatToString(n % 60) + " dakika"
  }

  /** What a formatted duration shows, read back: a negative count shows "0 dakika";
      otherwise the numbers shown are the whole hours, at least one when shown,
      and the 0 to 59 minutes left over, which together make up the count. */
  lemma FormatMinutesReadsBack(n: int)
    ensures n < 0 ==> FormatMinutes(n) == "0 dakika"
    ensures n >= 0 ==> exists a, b ::
      && a != [] && b != [] && AllDigits(a) && AllDigits(b) && ParseDigits(b) < 60
      && if n >= 60 then
           && FormatMinutes(n) == a + " saat " + b + " dakika"
           && ParseDigits(a) >= 1 && 60 * ParseDigits(a) + ParseDigits(b) == n
         else
           FormatMinutes(n) == b + " dakika" && ParseDigits(b) == n
  {
    if n >= 0 {
      var a, b := NatToString(n / 60), NatToString(n % 60);
      ParseNatToString(n / 60);
      ParseNatToString(n % 60);
      assert ParseDigits(a) == n / 60 && ParseDigits(b) == n % 60;
    }
  }

  /** The seconds `calculateWorkHours` counts for logs in time order: each pair at
      positions (0, 1), (2, 3), ... that is a check-in followed by a check-out
      adds the time between them. */
  function PairedSeconds(s: seq<Log>, epochDay: string -> int): int
  {
    if |s| < 2 then 0
    else
      (if s[0].kind == CheckIn && s[1].kind == CheckOut then Stamp(s[1], epochDay) - Stamp(s[0], epochDay) else 0)
      + PairedSeconds(s[2..], epochDay)
  }

  /** For logs in time order the paired time lies between zero and the time from
      the first punch to the last. */
  lemma {:induction false} PairedSecondsBounds(s: seq<Log>, epochDay: string -> int)
    requires SortedBy(s, (l: Log) => Stamp(l, epochDay))
    ensures 0 <= PairedSeconds(s, epochDay)
    ensures s != [] ==> PairedSeconds(s, epochDay) <= Stamp(s[|s| - 1], epochDay) - Stamp(s[0], epochDay)
  {
    if |s| >= 2 {
      var rest := s[2..];
      assert SortedBy(rest, (l: Log) => Stamp(l, epochDay)) by {
        forall i, j | 0 <= i < j < |rest| ensures Stamp(rest[i], epochDay) <= Stamp(rest[j], epochDay) {
          assert rest[i] == s[i + 2] && rest[j] == s[j + 2];
        }
      }
      PairedSecondsBounds(rest, epochDay);
      assert Stamp(s[0], epochDay) <= Stamp(s[1], epochDay);
      if rest != [] {
        assert rest[|rest| - 1] == s[|s| - 1] && rest[0] == s[2];
        assert Stamp(s[1], epochDay) <= Stamp(s[2], epochDay);
      }
    }
  }

  /** "{h} saat {m} dakika", the duration text built by template literals. */
  function HoursMinutesText(h: int, m: int): string
  {
    IntToString(h) + " saat " + IntToString(m) + " dakika"
  }

  /** The loop of `calculateWorkHours` over the sorted logs, two at a time. */
  method PairedTotal(sortedLogs: seq<Log>, epochDay: string -> int) returns (totalSeconds: int)
    ensures totalSeconds == PairedSeconds(sortedLogs, epochDay)
  {
    totalSeconds := 0;
    var i := 0;
    while i < |sortedLogs| - 1
      invariant 0 <= i <= |sortedLogs|
      invariant totalSeconds + PairedSeconds(sortedLogs[i..], epochDay) == PairedSeconds(sortedLogs, epochDay)
    {
      var checkIn := sortedLogs[i];
      var checkOut := sortedLogs[i + 1];
      if checkIn.kind == CheckIn && checkOut.kind == CheckOut {
        totalSeconds := totalSeconds + (Stamp(checkOut, epochDay) - Stamp(checkIn, epochDay));
      }
      assert sortedLogs[i..][2..] == sortedLogs[i + 2..];
      i := i + 2;
    }
  }

  /** `calculateWorkHours` (utilities version): sorts all logs by instant and walks
      them two at a time, adding each check-in/check-out pair; a pair that is not
      exactly check-in then check-out adds nothing. */
  method CalculateWorkHours(logs: seq<Log>, epochDay: string -> int) returns (r: string)
    ensures var total := PairedSeconds(SortBy(logs, (l: Log) => Stamp(l, epochDay)), epochDay);
      && 0 <= total
      && r == HoursMinutesText(total / 3600, (total % 3600) / 60)
  {
    var sortedLogs := SortBy(logs, (l: Log) => Stamp(l, epochDay));
    SortByIsSorted(logs, (l: Log) => Stamp(l, epochDay));
    PairedSecondsBounds(sortedLogs, epochDay);
    var totalSeconds := PairedTotal(sortedLogs, epochDay);
    var hours := totalSeconds / 3600;
    var minutes := (totalSeconds % 3600) / 60;
    r := HoursMinutesText(hours, minutes);
  }
}
