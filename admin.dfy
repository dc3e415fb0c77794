/** The administrator's page: the log list enriched with employee and
    department names, the schedule settings indexed by department, the roster
    roll-up of the irregularity report, the report's department and type
    filters, the type-selection toggle and the log filter. */
module Admin {
  import opened Common
  import opened Attendance
  import opened Irregularities
  import Service

  /** A JavaScript value used as a condition: an absent or empty text is false. */
  predicate Truthy(o: Option<string>)
  {
    o.Some? && o.value != ""
  }

  datatype Department = Department(id: string, name: string)

  /** An employee row joined with the name of its department (absent when the
      employee has no department). */
  datatype Employee = Employee(id: string, name: string, departmentId: Option<string>,
                               departmentName: Option<string>)

  /** A department's schedule settings row. */
  datatype WorkSetting = WorkSetting(departmentId: Option<string>, schedule: Schedule)

  /** A log as the page lists it, with the names resolved from the roster. */
  datatype EnrichedLog = EnrichedLog(log: Log, employeeName: string, departmentName: string,
                                     departmentId: Option<string>)

  /** `array.find(p)`: the first element satisfying `p`, if any. */
  function FirstWhere<T>(s: seq<T>, p: T -> bool): (r: Option<T>)
    ensures r.None? ==> forall i :: 0 <= i < |s| ==> !p(s[i])
    ensures r.Some? ==> exists i :: 0 <= i < |s| && s[i] == r.value && p(s[i])
                                  && forall j :: 0 <= j < i ==> !p(s[j])
  {
    if s == [] then None
    else if p(s[0]) then Some(s[0])
    else
      var r := FirstWhere(s[1..], p);
      assert forall i :: 0 <= i < |s[1..]| ==> s[1..][i] == s[i + 1];
      r
  }

  /** A dictionary filled by walking `s` and storing each element under its key,
      if it has one: a later element replaces an earlier one with the same key. */
  function IndexBy<T>(s: seq<T>, key: T -> Option<string>): map<string, T>
  {
    if s == [] then map[]
    else
      var m := IndexBy(s[..|s| - 1], key);
      var x := s[|s| - 1];
      if key(x).Some? then m[key(x).value := x] else m
  }

  /** The keys are exactly the keys of the elements. */
  lemma {:induction false} IndexByKeys<T>(s: seq<T>, key: T -> Option<string>, k: string)
    ensures k in IndexBy(s, key) <==> exists i :: 0 <= i < |s| && key(s[i]) == Some(k)
  {
    if s != [] {
      var q := s[..|s| - 1];
      IndexByKeys(q, key, k);
      if exists i :: 0 <= i < |q| && key(q[i]) == Some(k) {
        var i :| 0 <= i < |q| && key(q[i]) == Some(k);
        assert s[i] == q[i];
      }
      if exists i :: 0 <= i < |s| && key(s[i]) == Some(k) {
        var i :| 0 <= i < |s| && key(s[i]) == Some(k);
        if i < |q| {
          assert q[i] == s[i];
        }
      }
    }
  }

  /** The last element with a key is the one stored under it. */
  lemma {:induction false} IndexByLastWins<T>(s: seq<T>, key: T -> Option<string>, i: nat)
    requires i < |s| && key(s[i]).Some?
    requires forall j :: i < j < |s| ==> key(s[j]) != key(s[i])
    ensures key(s[i]).value in IndexBy(s, key)
    ensures IndexBy(s, key)[key(s[i]).value] == s[i]
  {
    var q := s[..|s| - 1];
    if i < |s| - 1 {
      assert forall j :: i < j < |q| ==> q[j] == s[j];
      IndexByLastWins(q, key, i);
      assert q[i] == s[i];
    }
  }

  /** Settings rows are stored under their department id when it is set. */
  function SettingKey(st: WorkSetting): Option<string>
  {
    if Truthy(st.departmentId) then st.departmentId else None
  }

  /** The `settingsMap` loop of `fetchAdminData`. */
  method BuildSettingsMap(settings: seq<WorkSetting>) returns (m: map<string, WorkSetting>)
    ensures m == IndexBy(settings, SettingKey)
  {
    m := map[];
    var i := 0;
    while i < |settings|
      invariant 0 <= i <= |settings|
      invariant m == IndexBy(settings[..i], SettingKey)
    {
      var setting := settings[i];
      if setting.departmentId.Some? && setting.departmentId.value != "" {
        m := m[setting.departmentId.value := setting];
      }
      assert settings[..i + 1][..i] == settings[..i];
      i := i + 1;
    }
    assert settings[..i] == settings;
  }

  /** A department some row names is a key of the settings map, and its entry is
      the last row naming it (`SettingsMapSkipsUnset` gives the other half: no
      other key is stored). */
  lemma SettingsMapFacts(settings: seq<WorkSetting>, i: nat)
    requires i < |settings| && Truthy(settings[i].departmentId)
    requires forall j :: i < j < |settings| ==> settings[j].departmentId != settings[i].departmentId
    ensures settings[i].departmentId.value in IndexBy(settings, SettingKey)
    ensures IndexBy(settings, SettingKey)[settings[i].departmentId.value] == settings[i]
  {
    assert forall j :: i < j < |settings| ==> SettingKey(settings[j]) != SettingKey(settings[i]);
    IndexByLastWins(settings, SettingKey, i);
  }

  /** A row without a department id is stored under no key. */
  lemma SettingsMapSkipsUnset(settings: seq<WorkSetting>, k: string)
    requires forall i :: 0 <= i < |settings| ==> settings[i].departmentId != Some(k) || k == ""
    ensures k !in IndexBy(settings, SettingKey)
  {
    IndexByKeys(settings, SettingKey, k);
  }

  function EmployeeKey(e: Employee): Option<string> { Some(e.id) }

  /** `new Map(employees.map(emp => [emp.id, emp]))`. */
  function EmployeeMap(employees: seq<Employee>): map<string, Employee>
  {
    IndexBy(employees, EmployeeKey)
  }

  /** One log with its employee's name (or "Bilinmiyor"), department name (or
      "Atanmamış") and department id. */
  function EnrichOne(l: Log, byId: map<string, Employee>): EnrichedLog
  {
    if l.employeeId in byId then
      var e := byId[l.employeeId];
      EnrichedLog(l, if e.name != "" then e.name else "Bilinmiyor",
                  if Truthy(e.departmentName) then e.departmentName.value else "Atanmamış",
                  e.departmentId)
    else EnrichedLog(l, "Bilinmiyor", "Atanmamış", None)
  }

  /** The enrichment of `fetchAdminData`: the same logs, in the same order. */
  function Enrich(logs: seq<Log>, employees: seq<Employee>): (r: seq<EnrichedLog>)
    ensures |r| == |logs|
    ensures forall i :: 0 <= i < |logs| ==> r[i].log == logs[i]
  {
    var byId := EmployeeMap(employees);
    seq(|logs|, i requires 0 <= i < |logs| => EnrichOne(logs[i], byId))
  }

  /** A log whose employee is not on the roster gets the default names and no
      department. */
  lemma EnrichUnknown(logs: seq<Log>, employees: seq<Employee>, i: nat)
    requires i < |logs|
    requires forall j :: 0 <= j < |employees| ==> employees[j].id != logs[i].employeeId
    ensures Enrich(logs, employees)[i] == EnrichedLog(logs[i], "Bilinmiyor", "Atanmamış", None)
  {
    IndexByKeys(employees, EmployeeKey, logs[i].employeeId);
  }

  /** A log whose employee is on the roster (the last roster row with that id,
      as the dictionary keeps it) gets that employee's names, where non-empty. */
  lemma EnrichKnown(logs: seq<Log>, employees: seq<Employee>, i: nat, j: nat)
    requires i < |logs| && j < |employees| && employees[j].id == logs[i].employeeId
    requires forall k :: j < k < |employees| ==> employees[k].id != employees[j].id
    ensures var r := Enrich(logs, employees)[i]; var e := employees[j];
      && r.employeeName == (if e.name != "" then e.name else "Bilinmiyor")
      && r.departmentName == (if Truthy(e.departmentName) then e.departmentName.value else "Atanmamış")
      && r.departmentId == e.departmentId
  {
    assert forall k :: j < k < |employees| ==> EmployeeKey(employees[k]) != EmployeeKey(employees[j]);
    IndexByLastWins(employees, EmployeeKey, j);
  }

  /** The logs of employee `e`. */
  function EmployeeLogs(logs: seq<EnrichedLog>, e: Employee): seq<EnrichedLog>
  {
    Filter(logs, (x: EnrichedLog) => x.log.employeeId == e.id)
  }

  /** The logs handed to the classifier, named after the roster employee. */
  function Named(xs: seq<EnrichedLog>, name: string): (r: seq<NamedLog>)
    ensures |r| == |xs|
    ensures forall i :: 0 <= i < |xs| ==> r[i] == NamedLog(xs[i].log, name)
  {
    seq(|xs|, i requires 0 <= i < |xs| => NamedLog(xs[i].log, name))
  }

  function DepartmentIs(id: string): Department -> bool
  {
    (d: Department) => d.id == id
  }

  /** The name of the first department with that id, if any. */
  function DepartmentName(departments: seq<Department>, id: string): Option<string>
  {
    var d := FirstWhere(departments, DepartmentIs(id));
    if d.Some? then Some(d.value.name) else None
  }

  /** Whether the roll-up passes over employee `e`: no department, no settings
      for it, no logs, or an incomplete schedule. */
  predicate Skipped(e: Employee, logs: seq<EnrichedLog>, settings: map<string, WorkSetting>)
  {
    || !Truthy(e.departmentId) || e.departmentId.value !in settings
    || EmployeeLogs(logs, e) == [] || !Complete(settings[e.departmentId.value].schedule)
  }

  /** The rows one employee contributes: the classifier run on that employee's
      logs alone, under the employee's name and department. */
  function EmployeeRows(e: Employee, logs: seq<EnrichedLog>, departments: seq<Department>,
                        settings: map<string, WorkSetting>, today: string, nowMinutes: int): seq<Irregularity>
  {
    if Skipped(e, logs, settings) then []
    else
      var id := e.departmentId.value;
      Classify(Named(EmployeeLogs(logs, e), e.name), settings[id].schedule, e.name,
               DepartmentName(departments, id), today, nowMinutes)
  }

  /** `f` applied to each element, the results concatenated in order. */
  function ConcatMap<T, U>(s: seq<T>, f: T -> seq<U>): seq<U>
  {
    if s == [] then [] else ConcatMap(s[..|s| - 1], f) + f(s[|s| - 1])
  }

  lemma {:induction false} ConcatMapAppend<T, U>(a: seq<T>, b: seq<T>, f: T -> seq<U>)
    ensures ConcatMap(a + b, f) == ConcatMap(a, f) + ConcatMap(b, f)
    decreases |b|
  {
    if b == [] {
      assert a + b == a;
    } else {
      var b' := b[..|b| - 1];
      assert (a + b)[..|a + b| - 1] == a + b';
      ConcatMapAppend(a, b', f);
    }
  }

  /** Dropping an element that contributes nothing leaves the concatenation alone. */
  lemma ConcatMapSkip<T, U>(s: seq<T>, i: nat, f: T -> seq<U>)
    requires i < |s| && f(s[i]) == []
    ensures ConcatMap(s, f) == ConcatMap(s[..i] + s[i + 1..], f)
  {
    var x, a, b := s[i], s[..i], s[i + 1..];
    assert s == a + [x] + b;
    assert ConcatMap([x], f) == [] by {
      assert [x][..0] == [];
    }
    ConcatMapAppend(a + [x], b, f);
    ConcatMapAppend(a, [x], f);
    ConcatMapAppend(a, b, f);
  }

  /** The rows of the roster, employee after employee. */
  function RosterRows(employees: seq<Employee>, logs: seq<EnrichedLog>, departments: seq<Department>,
                      settings: map<string, WorkSetting>, today: string, nowMinutes: int): seq<Irregularity>
  {
    ConcatMap(employees, (e: Employee) => EmployeeRows(e, logs, departments, settings, today, nowMinutes))
  }

  /** The report: nothing while any of the four inputs is empty. */
  function Rollup(employees: seq<Employee>, logs: seq<EnrichedLog>, departments: seq<Department>,
                  settings: map<string, WorkSetting>, today: string, nowMinutes: int): seq<Irregularity>
  {
    if |employees| == 0 || |logs| == 0 || |departments| == 0 || |settings| == 0 then []
    else RosterRows(employees, logs, departments, settings, today, nowMinutes)
  }

  /** The body of the roster loop for one employee: skip, or run the classifier
      on the employee's own logs. */
  method EmployeeIrregularities(employee: Employee, logs: seq<EnrichedLog>, departments: seq<Department>,
                                settings: map<string, WorkSetting>, today: string, nowMinutes: int)
    returns (rows: seq<Irregularity>)
    ensures rows == EmployeeRows(employee, logs, departments, settings, today, nowMinutes)
  {
    rows := [];
    if employee.departmentId.None? || employee.departmentId.value == ""
       || employee.departmentId.value !in settings {
      return;
    }
    var employeeLogs := Filter(logs, (x: EnrichedLog) => x.log.employeeId == employee.id);
    if |employeeLogs| == 0 {
      return;
    }
    var schedule := settings[employee.departmentId.value].schedule;
    var department := FirstWhere(departments, DepartmentIs(employee.departmentId.value));
    if schedule.workStart.Some? && schedule.workEnd.Some? && schedule.lunchStart.Some? && schedule.lunchEnd.Some? {
      rows := IdentifyTimeIrregularities(
        Named(employeeLogs, employee.name), schedule, employee.name,
        if department.Some? then Some(department.value.name) else None, today, nowMinutes);
    }
  }

  /** `calculateIrregularities`. */
  method CalculateIrregularities(employees: seq<Employee>, logs: seq<EnrichedLog>, departments: seq<Department>,
                                 settings: map<string, WorkSetting>, today: string, nowMinutes: int)
    returns (all: seq<Irregularity>)
    ensures all == Rollup(employees, logs, departments, settings, today, nowMinutes)
    ensures |employees| == 0 || |logs| == 0 || |departments| == 0 || |settings| == 0 ==> all == []
  {
    all := [];
    if |employees| == 0 || |logs| == 0 || |departments| == 0 || |settings| == 0 {
      return;
    }
    var i := 0;
    while i < |employees|
      invariant 0 <= i <= |employees|
      invariant all == RosterRows(employees[..i], logs, departments, settings, today, nowMinutes)
    {
      var forEmployee := EmployeeIrregularities(employees[i], logs, departments, settings, today, nowMinutes);
      all := all + forEmployee;
      assert employees[..i + 1][..i] == employees[..i];
      i := i + 1;
    }
    assert employees[..i] == employees;
  }

  /** A skipped employee contributes nothing: the report is the same without
      them on the roster. */
  lemma SkippedEmployeeIsInvisible(employees: seq<Employee>, i: nat, logs: seq<EnrichedLog>,
                                   departments: seq<Department>, settings: map<string, WorkSetting>,
                                   today: string, nowMinutes: int)
    requires i < |employees| && Skipped(employees[i], logs, settings)
    ensures RosterRows(employees, logs, departments, settings, today, nowMinutes)
      == RosterRows(employees[..i] + employees[i + 1..], logs, departments, settings, today, nowMinutes)
  {
    var f := (e: Employee) => EmployeeRows(e, logs, departments, settings, today, nowMinutes);
    ConcatMapSkip(employees, i, f);
  }

  /** An employee with a name sees it on every row the employee contributes,
      along with the name of the employee's department. */
  lemma EmployeeRowsNamed(e: Employee, logs: seq<EnrichedLog>, departments: seq<Department>,
                          settings: map<string, WorkSetting>, today: string, nowMinutes: int)
    requires e.name != "" && !Skipped(e, logs, settings)
    ensures NamedAs(EmployeeRows(e, logs, departments, settings, today, nowMinutes),
                    e.name, DepartmentName(departments, e.departmentId.value))
  {
    var id := e.departmentId.value;
    ClassifyNamed(Named(EmployeeLogs(logs, e), e.name), settings[id].schedule, e.name,
                  DepartmentName(departments, id), today, nowMinutes);
  }

  /** Another employee's log does not change an employee's rows. */
  lemma OtherLogsDoNotMatter(e: Employee, logs: seq<EnrichedLog>, x: EnrichedLog, departments: seq<Department>,
                             settings: map<string, WorkSetting>, today: string, nowMinutes: int)
    requires x.log.employeeId != e.id
    ensures EmployeeRows(e, logs + [x], departments, settings, today, nowMinutes)
      == EmployeeRows(e, logs, departments, settings, today, nowMinutes)
  {
    assert (logs + [x])[..|logs|] == logs;
    assert EmployeeLogs(logs + [x], e) == EmployeeLogs(logs, e);
  }

  /** The department filter: everything under "all", otherwise the rows whose
      employee (the first roster row with that id) is in the department. */
  function DepartmentKeeps(employees: seq<Employee>, departmentFilter: string): Irregularity -> bool
  {
    (x: Irregularity) =>
      departmentFilter == "all"
      || var e := FirstWhere(employees, (emp: Employee) => emp.id == x.employeeId);
         e.Some? && e.value.departmentId == Some(departmentFilter)
  }

  /** The type filter: everything for an empty selection, otherwise the selected types. */
  function TypeKeeps(types: seq<IrregularityKind>): Irregularity -> bool
  {
    (x: Irregularity) => |types| == 0 || x.kind in types
  }

  /** `filteredTimeIrregularities`. */
  function FilterReport(items: seq<Irregularity>, employees: seq<Employee>, departmentFilter: string,
                        types: seq<IrregularityKind>): seq<Irregularity>
  {
    Filter(Filter(items, DepartmentKeeps(employees, departmentFilter)), TypeKeeps(types))
  }

  /** The filtered report keeps, in order, exactly the rows both filters accept. */
  lemma FilterReportSelects(items: seq<Irregularity>, employees: seq<Employee>, departmentFilter: string,
                            types: seq<IrregularityKind>)
    ensures var r := FilterReport(items, employees, departmentFilter, types);
      && IsSubsequence(r, items)
      && forall x :: x in r <==> x in items && DepartmentKeeps(employees, departmentFilter)(x) && TypeKeeps(types)(x)
  {
    var p, q := DepartmentKeeps(employees, departmentFilter), TypeKeeps(types);
    var a := Filter(items, p);
    FilterIsSubsequence(items, p);
    FilterIsSubsequence(a, q);
    SubsequenceTransitive(Filter(a, q), a, items);
    FilterMembers(items, p);
    FilterMembers(a, q);
  }

  /** With "all" departments and no type selected the report is shown whole. */
  lemma FilterReportAll(items: seq<Irregularity>, employees: seq<Employee>)
    ensures FilterReport(items, employees, "all", []) == items
  {
    FilterAll(items, DepartmentKeeps(employees, "all"));
    FilterAll(items, TypeKeeps([]));
  }

  /** Under a department, a row whose employee is not on the roster is dropped. */
  lemma FilterReportDropsUnknown(items: seq<Irregularity>, employees: seq<Employee>, departmentFilter: string,
                                 types: seq<IrregularityKind>, x: Irregularity)
    requires departmentFilter != "all"
    requires forall j :: 0 <= j < |employees| ==> employees[j].id != x.employeeId
    ensures x !in FilterReport(items, employees, departmentFilter, types)
  {
    FilterReportSelects(items, employees, departmentFilter, types);
    var e := FirstWhere(employees, (emp: Employee) => emp.id == x.employeeId);
    assert e.None?;
  }

  /** `handleReportTypeFilterChange`: removes a selected type, appends an unselected one. */
  function ToggleType(prev: seq<IrregularityKind>, t: IrregularityKind): seq<IrregularityKind>
  {
    if t in prev then Filter(prev, (u: IrregularityKind) => u != t) else prev + [t]
  }

  /** After the toggle, exactly the type toggled has changed its membership. */
  lemma ToggleMembers(prev: seq<IrregularityKind>, t: IrregularityKind)
    ensures forall u :: u in ToggleType(prev, t) <==> if u == t then t !in prev else u in prev
  {
    FilterMembers(prev, (u: IrregularityKind) => u != t);
  }

  /** Toggling an unselected type twice restores the selection. */
  lemma ToggleTwice(prev: seq<IrregularityKind>, t: IrregularityKind)
    requires t !in prev
    ensures ToggleType(ToggleType(prev, t), t) == prev
  {
    var p := (u: IrregularityKind) => u != t;
    FilterAppend(prev, [t], p);
    FilterAll(prev, p);
    FilterNone([t], p);
  }

  /** What the log filter passes to the service: no employee for "all". */
  function EmployeeArgument(selected: string): Option<string>
  {
    if selected == "all" then None else Some(selected)
  }

  /** `handleFilterChange`: the service `filterLogs` on the enriched logs. */
  function AdminFilterLogs(logs: seq<EnrichedLog>, selected: string, start: string, end: string,
                           kindFilter: string): seq<EnrichedLog>
  {
    Filter(logs, (x: EnrichedLog) => LogMatches(x.log, EmployeeArgument(selected), start, end, kindFilter))
  }

  function Logs(xs: seq<EnrichedLog>): (r: seq<Log>)
    ensures |r| == |xs| && forall i :: 0 <= i < |xs| ==> r[i] == xs[i].log
  {
    seq(|xs|, i requires 0 <= i < |xs| => xs[i].log)
  }

  /** The page's filter keeps the same logs as the service filter applied to the
      plain logs. */
  lemma {:induction false} AdminFilterIsServiceFilter(logs: seq<EnrichedLog>, selected: string, start: string,
                                                      end: string, kindFilter: string)
    ensures Logs(AdminFilterLogs(logs, selected, start, end, kindFilter))
      == Service.FilterLogs(Logs(logs), EmployeeArgument(selected), start, end, kindFilter)
  {
    if logs != [] {
      var q := logs[..|logs| - 1];
      AdminFilterIsServiceFilter(q, selected, start, end, kindFilter);
      assert Logs(logs)[..|logs| - 1] == Logs(q);
      var r := AdminFilterLogs(q, selected, start, end, kindFilter);
      var x := logs[|logs| - 1];
      assert Logs(r + [x]) == Logs(r) + [x.log];
    }
  }

  /** With "all" employees selected the page's filter shows no log at all. */
  lemma AllEmployeesShowsNothing(logs: seq<EnrichedLog>, start: string, end: string, kindFilter: string)
    ensures AdminFilterLogs(logs, "all", start, end, kindFilter) == []
  {
    FilterNone(logs, (x: EnrichedLog) => LogMatches(x.log, None, start, end, kindFilter));
  }

  /** The filter the page evidently means: under "all" the employee is not
      constrained. */
  predicate IntendedMatch(x: EnrichedLog, selected: string, start: string, end: string, kindFilter: string)
  {
    LogMatches(x.log, if selected == "all" then Some(x.log.employeeId) else Some(selected), start, end, kindFilter)
  }

  function IntendedFilterLogs(logs: seq<EnrichedLog>, selected: string, start: string, end: string,
                              kindFilter: string): seq<EnrichedLog>
  {
    Filter(logs, (x: EnrichedLog) => IntendedMatch(x, selected, start, end, kindFilter))
  }

  /** Under "all" the intended filter keeps, in order, exactly the logs within the
      date bounds and of the type; for one employee it agrees with the page. */
  lemma IntendedFilterSelects(logs: seq<EnrichedLog>, selected: string, start: string, end: string,
                              kindFilter: string)
    ensures var r := IntendedFilterLogs(logs, selected, start, end, kindFilter);
      && IsSubsequence(r, logs)
      && (selected == "all" ==>
            forall x :: x in r <==> x in logs && LogMatches(x.log, Some(x.log.employeeId), start, end, kindFilter))
      && (selected != "all" ==> r == AdminFilterLogs(logs, selected, start, end, kindFilter))
  {
    var p := (x: EnrichedLog) => IntendedMatch(x, selected, start, end, kindFilter);
    FilterIsSubsequence(logs, p);
    FilterMembers(logs, p);
    if selected != "all" {
      FilterCongruent(logs, p, (x: EnrichedLog) => LogMatches(x.log, EmployeeArgument(selected), start, end, kindFilter));
    }
  }

  /** One log on the page, with no bounds and no type: "all" employees shows it
      under the intended filter and hides it under the page's. */
  lemma AllEmployeesCounterexample(x: EnrichedLog)
    ensures AdminFilterLogs([x], "all", "", "", "") == []
    ensures IntendedFilterLogs([x], "all", "", "", "") == [x]
  {
    AllEmployeesShowsNothing([x], "", "", "");
    assert [x][..0] == [];
  }
}
