/** The records the attendance engine consumes, and the grouping by date that
    every per-day computation starts with (the `logsByDate` dictionaries). */
module Attendance {
  import opened Common
  import opened Clock
  import opened Text

  /** The four punch kinds a log can record. */
  datatype Kind = CheckIn | CheckOut | LunchStart | LunchEnd

  /** The `type` column's text for each kind. */
  function KindText(k: Kind): string
  {
    match k
    case CheckIn => "check-in"
    case CheckOut => "check-out"
    case LunchStart => "lunch-start"
    case LunchEnd => "lunch-end"
  }

  /** A punch as stored: who, on which "YYYY-MM-DD" date, at what time, which kind.
      The row's id, device, address and creation stamp play no part in the core. */
  datatype Log = Log(employeeId: string, date: string, time: TimeText, kind: Kind)

  /** What both `filterLogs` helpers select: the given employee (an absent id
      matches no log), dates within the non-empty bounds compared as strings, and
      the given type unless the type is empty or "all". */
  predicate LogMatches(l: Log, employeeId: Option<string>, start: string, end: string, kindFilter: string)
  {
    && employeeId == Some(l.employeeId)
    && (start == "" || !StrLt(l.date, start))
    && (end == "" || !StrLt(end, l.date))
    && (kindFilter == "" || kindFilter == "all" || KindText(l.kind) == kindFilter)
  }

  /** `<=` on strings, written as "not greater", is transitive. */
  lemma StrLeTransitive(a: string, b: string, c: string)
    requires !StrLt(b, a) && !StrLt(c, b)
    ensures !StrLt(c, a)
  {
    StrLtTotal(a, b);
    StrLtTotal(b, c);
    StrLtAsymmetric(a, c);
    StrLtAsymmetric(a, b);
    StrLtAsymmetric(b, c);
    if StrLt(a, b) && StrLt(b, c) {
      StrLtTransitive(a, b, c);
    }
  }

  /** The date bounds select an interval: a log of the same employee and kind
      dated between two logs that match also matches. */
  lemma DateBoundsSelectInterval(a: Log, b: Log, c: Log, employeeId: Option<string>, start: string, end: string, kindFilter: string)
    requires LogMatches(a, employeeId, start, end, kindFilter) && LogMatches(c, employeeId, start, end, kindFilter)
    requires b.employeeId == a.employeeId && b.kind == a.kind
    requires !StrLt(b.date, a.date) && !StrLt(c.date, b.date)
    ensures LogMatches(b, employeeId, start, end, kindFilter)
  {
    if start != "" {
      StrLeTransitive(start, a.date, b.date);
    }
    if end != "" {
      StrLeTransitive(b.date, c.date, end);
    }
  }

  function LogDate(l: Log): string { l.date }

  /** A punch's time of day in milliseconds. Between punches of one date this
      orders and subtracts exactly like `new Date(date + "T" + time).getTime()`. */
  function Millis(l: Log): int { Seconds(l.time) * 1000 }

  /** The instant of a punch in seconds, given the calendar's day number of its date. */
  function Stamp(l: Log, epochDay: string -> int): int
  {
    epochDay(l.date) * 86400 + Seconds(l.time)
  }

  predicate Distinct<T(==)>(s: seq<T>)
  {
    forall i, j :: 0 <= i < j < |s| ==> s[i] != s[j]
  }

  /** The dates that occur in `items`, each once, in order of first occurrence:
      the key order of a dictionary filled by walking `items`. */
  function DatesOf<T>(items: seq<T>, dateOf: T -> string): (ds: seq<string>)
    ensures forall i :: 0 <= i < |items| ==> dateOf(items[i]) in ds
  {
    if items == [] then []
    else
      var p := DatesOf(items[..|items| - 1], dateOf);
      var d := dateOf(items[|items| - 1]);
      assert forall i :: 0 <= i < |items| - 1 ==> items[..|items| - 1][i] == items[i];
      if d in p then p else p + [d]
  }

  /** No date is listed twice. */
  lemma {:induction false} DatesOfDistinct<T>(items: seq<T>, dateOf: T -> string)
    ensures Distinct(DatesOf(items, dateOf))
  {
    if items != [] {
      DatesOfDistinct(items[..|items| - 1], dateOf);
    }
  }

  /** The items dated `d`, in input order. */
  function OnDate<T>(items: seq<T>, dateOf: T -> string, d: string): seq<T>
  {
    Filter(items, x => dateOf(x) == d)
  }

  /** The items dated `d` are the items of `items` with that date. */
  lemma OnDateMembers<T>(items: seq<T>, dateOf: T -> string, d: string)
    ensures forall x :: x in OnDate(items, dateOf, d) <==> x in items && dateOf(x) == d
  {
    var on := OnDate(items, dateOf, d);
    FilterMembers(items, x => dateOf(x) == d);
    assert forall x :: x in on ==> dateOf(x) == d;
  }

  /** Every date listed has at least one item. */
  lemma {:induction false} OnDateNonEmpty<T>(items: seq<T>, dateOf: T -> string, d: string)
    requires d in DatesOf(items, dateOf)
    ensures OnDate(items, dateOf, d) != []
  {
    var n := |items| - 1;
    OnDateSnoc(items[..n], dateOf, items[n], d);
    DatesOfSnoc(items[..n], dateOf, items[n]);
    assert items[..n] + [items[n]] == items;
    if dateOf(items[n]) != d {
      OnDateNonEmpty(items[..n], dateOf, d);
    }
  }

  lemma OnDateSnoc<T>(items: seq<T>, dateOf: T -> string, x: T, d: string)
    ensures OnDate(items + [x], dateOf, d)
      == OnDate(items, dateOf, d) + (if dateOf(x) == d then [x] else [])
  {
    assert (items + [x])[..|items|] == items;
  }

  lemma DatesOfSnoc<T>(items: seq<T>, dateOf: T -> string, x: T)
    ensures DatesOf(items + [x], dateOf)
      == var p := DatesOf(items, dateOf); if dateOf(x) in p then p else p + [dateOf(x)]
  {
    assert (items + [x])[..|items|] == items;
  }

  /** The dictionary built by writing `f(d)` under each date `d` of `ds` in turn,
      as its entries in key order: entry `j` holds the `j`th date and its value. */
  function Tabulate<V>(ds: seq<string>, f: string -> V): seq<(string, V)>
  {
    seq(|ds|, j requires 0 <= j < |ds| => (ds[j], f(ds[j])))
  }

  /** Writing one more date appends its entry and leaves the earlier ones. */
  lemma TabulateSnoc<V>(ds: seq<string>, i: nat, f: string -> V)
    requires i < |ds|
    ensures Tabulate(ds[..i + 1], f) == Tabulate(ds[..i], f) + [(ds[i], f(ds[i]))]
  {
    var a, b := Tabulate(ds[..i + 1], f), Tabulate(ds[..i], f) + [(ds[i], f(ds[i]))];
    assert |a| == |b|;
    forall j | 0 <= j < |a|
      ensures a[j] == b[j]
    {
    }
  }

  /** Writing every date of `ds` gives the entries of `ds`. */
  lemma TabulateAll<V>(ds: seq<string>, f: string -> V)
    ensures Tabulate(ds[..|ds|], f) == Tabulate(ds, f)
  {
    assert ds[..|ds|] == ds;
  }

  /** The entries of all the dates but the last, then the last one's. */
  lemma TabulateLast<V>(ds: seq<string>, f: string -> V)
    requires ds != []
    ensures Tabulate(ds, f) == Tabulate(ds[..|ds| - 1], f) + [(ds[|ds| - 1], f(ds[|ds| - 1]))]
  {
    TabulateSnoc(ds, |ds| - 1, f);
    assert ds[..|ds|] == ds;
  }

  /** `dates` and `byDate` are the buckets of `items`. */
  ghost predicate Grouped<T>(items: seq<T>, dateOf: T -> string, dates: seq<string>, byDate: map<string, seq<T>>)
  {
    && dates == DatesOf(items, dateOf)
    && (forall d :: d in byDate <==> d in dates)
    && (forall d :: d in byDate ==> byDate[d] == OnDate(items, dateOf, d))
  }

  lemma GroupedSnoc<T>(items: seq<T>, dateOf: T -> string, dates: seq<string>, byDate: map<string, seq<T>>, x: T)
    requires Grouped(items, dateOf, dates, byDate)
    ensures var d := dateOf(x);
      var dates' := if d in byDate then dates else dates + [d];
      var bucket := if d in byDate then byDate[d] else [];
      Grouped(items + [x], dateOf, dates', byDate[d := bucket + [x]])
  {
    var d := dateOf(x);
    var bucket := if d in byDate then byDate[d] else [];
    var byDate' := byDate[d := bucket + [x]];
    DatesOfSnoc(items, dateOf, x);
    if d !in byDate {
      FilterNone(items, y => dateOf(y) == d);
    }
    forall e | e in byDate'
      ensures byDate'[e] == OnDate(items + [x], dateOf, e)
    {
      OnDateSnoc(items, dateOf, x, e);
    }
  }

  /** The `logsByDate` fill: one bucket per date in order of first occurrence,
      each holding that date's items in input order. */
  method GroupByDate<T>(items: seq<T>, dateOf: T -> string)
    returns (dates: seq<string>, byDate: map<string, seq<T>>)
    ensures dates == DatesOf(items, dateOf)
    ensures forall d :: d in byDate <==> d in dates
    ensures forall d :: d in byDate ==> byDate[d] == OnDate(items, dateOf, d)
  {
    dates, byDate := [], map[];
    var i := 0;
    while i < |items|
      invariant 0 <= i <= |items|
      invariant Grouped(items[..i], dateOf, dates, byDate)
    {
      var item := items[i];
      var d := dateOf(item);
      GroupedSnoc(items[..i], dateOf, dates, byDate, item);
      assert items[..i + 1] == items[..i] + [item];
      if d !in byDate {
        byDate := byDate[d := []];
        dates := dates + [d];
      }
      byDate := byDate[d := byDate[d] + [item]];
      i := i + 1;
    }
    assert items[..i] == items;
  }
}
