/** The History page: the employee's logs, the logs the filter bar selects, the
    service's per-day map of those, and the total shown above it, which reads the
    hours and minutes back out of each day's text with
    `/(\d+)\s*saat\s*(\d+)\s*dakika/`. */
module History {
  import opened Common
  import opened Text
  import opened Attendance
  import Helpers
  import Service

  /** The number of decimal digits in `s` from position `p` on. */
  function DigitRun(s: string, p: nat): (k: nat)
    requires p <= |s|
    ensures p + k <= |s|
    ensures forall i :: p <= i < p + k ==> IsDigit(s[i])
    ensures p + k == |s| || !IsDigit(s[p + k])
    decreases |s| - p
  {
    if p < |s| && IsDigit(s[p]) then 1 + DigitRun(s, p + 1) else 0
  }

  /** The number of whitespace characters in `s` from position `p` on. */
  function SpaceRun(s: string, p: nat): (k: nat)
    requires p <= |s|
    ensures p + k <= |s|
    ensures forall i :: p <= i < p + k ==> IsSpace(s[i])
    ensures p + k == |s| || !IsSpace(s[p + k])
    decreases |s| - p
  {
    if p < |s| && IsSpace(s[p]) then 1 + SpaceRun(s, p + 1) else 0
  }

  /** The literal "saat" at position `p`. */
  predicate SaatAt(s: string, p: nat)
  {
    p + 4 <= |s| && s[p] == 's' && s[p + 1] == 'a' && s[p + 2] == 'a' && s[p + 3] == 't'
  }

  /** The literal "dakika" at position `p`. */
  predicate DakikaAt(s: string, p: nat)
  {
    && p + 6 <= |s| && s[p] == 'd' && s[p + 1] == 'a' && s[p + 2] == 'k'
    && s[p + 3] == 'i' && s[p + 4] == 'k' && s[p + 5] == 'a'
  }

  /** The pattern tried at position `p`, giving the values of its two digit groups.
      Each `\d+` and `\s*` takes the longest run: giving characters back never
      helps, since what would follow is a digit or a space where the pattern next
      needs a space, a letter or a digit of another kind. */
  function MatchAt(s: string, p: nat): Option<(nat, nat)>
    requires p <= |s|
  {
    var a := DigitRun(s, p);
    var q := p + a + SpaceRun(s, p + a);
    if a == 0 || !SaatAt(s, q) then None
    else
      match MinutesAt(s, q + 4)
      case None => None
      case Some(m) => Some((ParseDigits(s[p..p + a]), m))
  }

  /** The rest of the pattern after "saat", from position `u`: `\s*(\d+)\s*dakika`,
      giving the value of its digit group. */
  function MinutesAt(s: string, u: nat): Option<nat>
    requires u <= |s|
  {
    var r := u + SpaceRun(s, u);
    var b := DigitRun(s, r);
    var t := r + b + SpaceRun(s, r + b);
    if b == 0 || !DakikaAt(s, t) then None
    else Some(ParseDigits(s[r..r + b]))
  }

  /** `s.match(pattern)` without the `g` flag: the leftmost position the pattern
      matches at, from `p` on. */
  function Search(s: string, p: nat): Option<(nat, nat)>
    requires p <= |s|
    decreases |s| - p
  {
    if MatchAt(s, p).Some? then MatchAt(s, p)
    else if p == |s| then None
    else Search(s, p + 1)
  }

  /** The minutes one day's text adds to the total: hours * 60 + minutes when it
      matches, and nothing when it does not. */
  function ParsedMinutes(text: string): nat
  {
    match Search(text, 0)
    case Some((h, m)) => h * 60 + m
    case None => 0
  }

  /** The minutes of all the map's texts. */
  function SumParsed(entries: seq<(string, string)>): nat
  {
    if entries == [] then 0
    else SumParsed(entries[..|entries| - 1]) + ParsedMinutes(entries[|entries| - 1].1)
  }

  /** The text of the total: "{H} sa {M} dk", except "Hesaplanamadı" when nothing was
      counted although logs are listed and the map is empty. */
  function TotalText(totalMinutesOverall: int, filteredCount: nat, mapSize: nat): string
  {
    var overallHours := totalMinutesOverall / 60;
    var overallMinutes := JsRem(totalMinutesOverall, 60);
    if overallHours == 0 && overallMinutes == 0 && filteredCount > 0 && mapSize == 0 then "Hesaplanamadı"
    else IntToString(overallHours) + " sa " + IntToString(overallMinutes) + " dk"
  }

  lemma {:induction false} DigitRunIs(s: string, p: nat, k: nat)
    requires p + k <= |s|
    requires forall i :: p <= i < p + k ==> IsDigit(s[i])
    requires p + k == |s| || !IsDigit(s[p + k])
    ensures DigitRun(s, p) == k
    decreases k
  {
    if k > 0 {
      DigitRunIs(s, p + 1, k - 1);
    }
  }

  /** A run of digits followed by a single space: the digits, then one space. */
  lemma {:induction false} DigitsThenSpace(s: string, p: nat, k: nat)
    requires p + k < |s| && k > 0
    requires forall i :: p <= i < p + k ==> IsDigit(s[i])
    requires s[p + k] == ' ' && (p + k + 1 == |s| || !IsSpace(s[p + k + 1]))
    ensures DigitRun(s, p) == k && SpaceRun(s, p + k) == 1
  {
    DigitRunIs(s, p, k);
    assert SpaceRun(s, p + k + 1) == 0;
  }

  /** After "saat": one space, the digits `B`, one space and "dakika" match with
      the value of `B`. */
  lemma MinutesAtPieces(s: string, u: nat, r: nat, B: string)
    requires 0 < |B| && r == u + 1 && r + |B| + 7 <= |s|
    requires s[r..r + |B|] == B
    requires SpaceRun(s, u) == 1 && DigitRun(s, r) == |B| && SpaceRun(s, r + |B|) == 1
    requires DakikaAt(s, r + |B| + 1)
    ensures MinutesAt(s, u) == Some(ParseDigits(B))
  {
  }

  /** Digits, one space and "saat" from the start of `s`: what follows decides. */
  lemma MatchAtHours(s: string, a: nat)
    requires 0 < a && a + 5 <= |s|
    requires DigitRun(s, 0) == a && SpaceRun(s, a) == 1 && SaatAt(s, a + 1)
    ensures MatchAt(s, 0) == if MinutesAt(s, a + 5).None? then None
      else Some((ParseDigits(s[0..a]), MinutesAt(s, a + 5).value))
  {
  }

  /** Where the pieces of "{A} saat {B} dakika" sit. */
  lemma DayTextLayout(A: string, B: string, s: string)
    requires s == A + " saat " + B + " dakika"
    ensures |s| == |A| + |B| + 13
    ensures s[0..|A|] == A && s[|A| + 6..|A| + 6 + |B|] == B
    ensures s[|A|] == ' ' && SaatAt(s, |A| + 1) && s[|A| + 5] == ' '
    ensures s[|A| + 6 + |B|] == ' ' && DakikaAt(s, |A| + 6 + |B| + 1)
  {
  }

  /** Digits `A`, one space and "saat" at the start of `s`: the hours group is `A`
      and the rest of the pattern decides. */
  lemma HoursLaidOut(s: string, A: string)
    requires A != [] && AllDigits(A) && |A| + 5 <= |s|
    requires s[0..|A|] == A && s[|A|] == ' ' && SaatAt(s, |A| + 1)
    ensures MatchAt(s, 0) == if MinutesAt(s, |A| + 5).None? then None
      else Some((ParseDigits(A), MinutesAt(s, |A| + 5).value))
  {
    var a := |A|;
    assert forall i :: 0 <= i < a ==> s[0..a][i] == s[i];
    assert s[a + 1] == 's';
    DigitsThenSpace(s, 0, a);
    MatchAtHours(s, a);
  }

  /** One space, the digits `B`, one space and "dakika" from position `u`: the
      minutes group is `B`. */
  lemma MinutesLaidOut(s: string, u: nat, r: nat, B: string)
    requires B != [] && AllDigits(B) && r == u + 1 && r + |B| + 7 <= |s|
    requires s[u] == ' ' && s[r..r + |B|] == B && s[r + |B|] == ' '
    requires DakikaAt(s, r + |B| + 1)
    ensures MinutesAt(s, u) == Some(ParseDigits(B))
  {
    assert forall i :: r <= i < r + |B| ==> s[r..r + |B|][i - r] == s[i];
    assert s[r + |B| + 1] == 'd';
    assert SpaceRun(s, u) == 1 by {
      assert IsDigit(s[r]);
      assert SpaceRun(s, r) == 0;
    }
    DigitsThenSpace(s, r, |B|);
    MinutesAtPieces(s, u, r, B);
  }

  /** The text "{A} saat {B} dakika", for two runs of digits, matches at its start
      with the values of `A` and `B`. */
  lemma MatchDigitsText(A: string, B: string)
    requires A != [] && B != [] && AllDigits(A) && AllDigits(B)
    ensures MatchAt(A + " saat " + B + " dakika", 0) == Some((ParseDigits(A), ParseDigits(B)))
  {
    var s := A + " saat " + B + " dakika";
    DayTextLayout(A, B, s);
    MatchLaidOut(s, A, B);
  }

  /** A text laid out as "{A} saat {B} dakika" matches with the values of `A` and `B`. */
  lemma MatchLaidOut(s: string, A: string, B: string)
    requires A != [] && B != [] && AllDigits(A) && AllDigits(B)
    requires |s| == |A| + |B| + 13
    requires s[0..|A|] == A && s[|A| + 6..|A| + 6 + |B|] == B
    requires s[|A|] == ' ' && SaatAt(s, |A| + 1) && s[|A| + 5] == ' '
    requires s[|A| + 6 + |B|] == ' ' && DakikaAt(s, |A| + 6 + |B| + 1)
    ensures MatchAt(s, 0) == Some((ParseDigits(A), ParseDigits(B)))
  {
    HoursLaidOut(s, A);
    MinutesLaidOut(s, |A| + 5, |A| + 6, B);
  }

  /** The day text "{h} saat {m} dakika" written for whole hours and minutes
      matches at its start and gives back `h` and `m`. */
  lemma MatchHoursMinutesText(h: nat, m: nat)
    ensures Search(Helpers.HoursMinutesText(h, m), 0) == Some((h, m))
  {
    MatchDigitsText(NatToString(h), NatToString(m));
    ParseNatToString(h);
    ParseNatToString(m);
  }

  /** A text without digits (the utilities' "Hesaplanamadı", say) adds nothing. */
  lemma {:induction false} NoDigitsNoMatch(s: string, p: nat)
    requires p <= |s|
    requires forall i :: 0 <= i < |s| ==> !IsDigit(s[i])
    ensures Search(s, p) == None
    decreases |s| - p
  {
    if p < |s| {
      NoDigitsNoMatch(s, p + 1);
    }
  }

  /** A day's text written by the service's map reads back as that day's minutes. */
  lemma DayTextReadsBack(t: int)
    requires t >= 0
    ensures ParsedMinutes(Service.DayText(t)) == t
  {
    MatchHoursMinutesText(t / 60, t % 60);
  }

  /** Adding up the map the service builds for `logs`, over the dates `ds`, gives
      the sum of the days' minutes. */
  lemma {:induction false} SumParsedIsDailySum(ds: seq<string>, logs: seq<Log>)
    ensures SumParsed(Tabulate(ds, Service.DayTextOf(logs))) == Service.SumDaily(ds, logs)
  {
    if ds != [] {
      var d := ds[|ds| - 1];
      SumParsedIsDailySum(ds[..|ds| - 1], logs);
      TabulateLast(ds, Service.DayTextOf(logs));
      Service.DailyWalkNonNegative(Service.SortedDay(logs, d));
      DayTextReadsBack(Service.DailyWalk(Service.SortedDay(logs, d)).total);
    }
  }

  /** When the map was computed from the listed logs, the total shown is the sum of
      the days' minutes as "{H} sa {M} dk", and "Hesaplanamadı" is never shown. */
  lemma ConsistentTotal(logs: seq<Log>)
    ensures var entries := Tabulate(DatesOf(logs, LogDate), Service.DayTextOf(logs));
      var total := Service.SumDaily(DatesOf(logs, LogDate), logs);
      && total >= 0
      && TotalText(SumParsed(entries), |logs|, |entries|)
         == IntToString(total / 60) + " sa " + IntToString(total % 60) + " dk"
  {
    var ds := DatesOf(logs, LogDate);
    var entries := Tabulate(ds, Service.DayTextOf(logs));
    SumParsedIsDailySum(ds, logs);
    if logs != [] {
      assert LogDate(logs[0]) in ds;
    }
    TotalTextShows(SumParsed(entries), |logs|, |entries|);
  }

  /** A non-negative total is shown as "{H} sa {M} dk" whenever the map has an
      entry for listed logs. */
  lemma TotalTextShows(total: int, filteredCount: nat, mapSize: nat)
    requires total >= 0 && (filteredCount > 0 ==> mapSize > 0)
    ensures TotalText(total, filteredCount, mapSize) == IntToString(total / 60) + " sa " + IntToString(total % 60) + " dk"
  {
  }

  /** The page's state. */
  class HistoryPage {
    var employeeId: string
    var allLogs: seq<Log>
    var filteredLogs: seq<Log>
    var dailyWorkHoursData: seq<(string, string)>

    /** The map shown is the service's map of the listed logs. */
    ghost predicate Valid()
      reads this
    {
      dailyWorkHoursData == Service.DailyMap(filteredLogs)
    }

    /** The initial load: every fetched log is listed, and the map is computed from them. */
    constructor (employeeId: string, fetchedLogs: seq<Log>)
      ensures Valid()
      ensures this.employeeId == employeeId && allLogs == fetchedLogs && filteredLogs == fetchedLogs
    {
      var dailyHoursMap := Service.CalculateDailyWorkHoursMap(fetchedLogs);
      this.employeeId := employeeId;
      allLogs := fetchedLogs;
      filteredLogs := fetchedLogs;
      dailyWorkHoursData := dailyHoursMap;
    }

    /** `handleFilterChange`: lists the employee's logs the bounds and type select,
        and recomputes the map from exactly those. Without an employee id nothing
        changes. */
    method HandleFilterChange(startDate: string, endDate: string, kindFilter: string)
      requires Valid()
      modifies this`filteredLogs, this`dailyWorkHoursData
      ensures Valid()
      ensures old(employeeId) == "" ==> filteredLogs == old(filteredLogs)
      ensures old(employeeId) != "" ==>
        filteredLogs == Service.FilterLogs(old(allLogs), Some(old(employeeId)), startDate, endDate, kindFilter)
    {
      if employeeId == "" {
        return;
      }
      var currentFilteredLogs, dailyHoursMap := Refilter(allLogs, employeeId, startDate, endDate, kindFilter);
      filteredLogs, dailyWorkHoursData := currentFilteredLogs, dailyHoursMap;
    }

    /** The employee's logs under the filters, with their daily map. */
    static method Refilter(allLogs: seq<Log>, employeeId: string, startDate: string, endDate: string, kindFilter: string)
      returns (logs: seq<Log>, daily: seq<(string, string)>)
      ensures logs == Service.FilterLogs(allLogs, Some(employeeId), startDate, endDate, kindFilter)
      ensures daily == Service.DailyMap(logs)
    {
      logs := Service.FilterLogs(allLogs, Some(employeeId), startDate, endDate, kindFilter);
      daily := Service.CalculateDailyWorkHoursMap(logs);
    }

    /** `displayTotalWorkHours`: reads each day's text back and adds up the minutes;
        on a consistent page this is the sum of the days' minutes. */
    method DisplayTotalWorkHours() returns (r: string)
      ensures r == TotalText(SumParsed(dailyWorkHoursData), |filteredLogs|, |dailyWorkHoursData|)
      ensures Valid() ==>
        var total := Service.SumDaily(DatesOf(filteredLogs, LogDate), filteredLogs);
        r == IntToString(total / 60) + " sa " + IntToString(total % 60) + " dk"
    {
      var totalMinutesOverall := 0;
      var i := 0;
      while i < |dailyWorkHoursData|
        invariant 0 <= i <= |dailyWorkHoursData|
        invariant totalMinutesOverall == SumParsed(dailyWorkHoursData[..i])
      {
        var timeString := dailyWorkHoursData[i].1;
        var parts := Search(timeString, 0);
        if parts.Some? {
          totalMinutesOverall := totalMinutesOverall + parts.value.0 * 60;
          totalMinutesOverall := totalMinutesOverall + parts.value.1;
        }
        assert dailyWorkHoursData[..i + 1][..i] == dailyWorkHoursData[..i];
        i := i + 1;
      }
      assert dailyWorkHoursData[..i] == dailyWorkHoursData;
      var overallHours := totalMinutesOverall / 60;
      var overallMinutes := JsRem(totalMinutesOverall, 60);
      if overallHours == 0 && overallMinutes == 0 && |filteredLogs| > 0 && |dailyWorkHoursData| == 0 {
        r := "Hesaplanamadı";
      } else {
        r := IntToString(overallHours) + " sa " + IntToString(overallMinutes) + " dk";
      }
      if Valid() {
        ConsistentTotal(filteredLogs);
      }
    }
  }
}
