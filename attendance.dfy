/**
 * The attendance view (Attendance.js): sample records synthesised for each
 * weekday of the current month so far, the present-day count and rate, the
 * edit of one record, the search filter and the monthly counters. The
 * calendar and the random draws are inputs; a NaN number is `None`.
 */
module Attendance {
  import opened Wrappers
  import opened Text
  import Seqs
  import EmployeeList

  /** One attendance record. `workHours` is `None` where Attendance.js computes NaN. */
  datatype AttendanceRecord = AttendanceRecord(
    id: RecordKey,
    employeeId: Option<string>,
    employeeName: Option<string>,
    department: Option<string>,
    date: Day,
    checkIn: string,
    checkOut: string,
    workHours: Option<real>,
    status: string,
    notes: string)

  /** A record id, kept as the employee code and day it is printed from by `IdText`. */
  datatype RecordKey = RecordKey(employeeId: Option<string>, day: nat)

  /** A date, kept as the year, month and day it is printed from by `DateText`. */
  datatype Day = Day(year: nat, month: nat, day: nat)

  /**
   * A rate in percent, kept as the quotient `part / whole` it is computed
   * from; the empty quotient stands for the plain 0 a fetch stores when an
   * employee has no days.
   */
  datatype Percent = Percent(part: nat, whole: nat)

  /** An employee with its attendance. `attendanceRate` is `None` where Attendance.js computes NaN. */
  datatype Staff = Staff(
    employee: EmployeeList.Employee,
    attendance: seq<AttendanceRecord>,
    attendanceRate: Option<Percent>,
    presentDays: nat,
    totalDays: nat)

  /**
   * The current month as Attendance.js reads it from the clock: its year and
   * month (1-12), its length, today's day of the month, and the weekday
   * (0 = Sunday) of its first day.
   */
  datatype Calendar = Calendar(year: nat, month: nat, daysInMonth: nat, today: nat, firstWeekday: nat)

  /** The edit dialog's inputs. */
  datatype EditForm = EditForm(status: string, checkIn: string, checkOut: string, notes: string)

  /** The outcome of the employee list request. */
  datatype Load = Loaded(records: seq<EmployeeList.Employee>) | LoadFailed

  // ---------------------------------------------------------------- synthesis

  /** The last day with records: `Math.min(daysInMonth, today)`. */
  function LastDay(cal: Calendar): nat {
    if cal.daysInMonth < cal.today then cal.daysInMonth else cal.today
  }

  /** The weekday of day `d`, 0 being Sunday. */
  function WeekdayOf(cal: Calendar, d: nat): nat
    requires d >= 1
  {
    (cal.firstWeekday + d - 1) % 7
  }

  predicate IsWorkday(cal: Calendar, d: nat) {
    d >= 1 && WeekdayOf(cal, d) != 0 && WeekdayOf(cal, d) != 6
  }

  /** The days 1..n that are neither Saturday nor Sunday, in increasing order. */
  function Workdays(cal: Calendar, n: nat): (ds: seq<nat>)
    ensures forall i, j :: 0 <= i < j < |ds| ==> ds[i] < ds[j]
    ensures forall i :: 0 <= i < |ds| ==> 1 <= ds[i] <= n
  {
    if n == 0 then []
    else Workdays(cal, n - 1) + (if IsWorkday(cal, n) then [n] else [])
  }

  /** A day is listed exactly when it lies in 1..n and is a weekday. */
  lemma {:induction false} WorkdaysAreWeekdays(cal: Calendar, n: nat)
    ensures forall d :: d in Workdays(cal, n) <==> 1 <= d <= n && IsWorkday(cal, d)
  {
    if n > 0 {
      WorkdaysAreWeekdays(cal, n - 1);
      var ds := Workdays(cal, n - 1);
      assert Workdays(cal, n) == ds + (if IsWorkday(cal, n) then [n] else []);
    }
  }

  /** The status, times and hours a draw gives. */
  datatype Outcome = Outcome(status: string, checkIn: string, checkOut: string, workHours: real)

  /**
   * The threshold table: below 0.05 absent, below 0.1 late, below 0.15 a half
   * day, otherwise present.
   */
  function Classify(r: real): (o: Outcome)
    ensures r < 0.05 ==> o == Outcome("Absent", "--", "--", 0.0)
    ensures 0.05 <= r < 0.1 ==> o == Outcome("Late", "09:30", "18:00", 7.5)
    ensures 0.1 <= r < 0.15 ==> o == Outcome("Half Day", "09:00", "13:00", 4.0)
    ensures 0.15 <= r ==> o == Outcome("Present", "09:00", "18:00", 8.0)
  {
    if r < 0.05 then Outcome("Absent", "--", "--", 0.0)
    else if r < 0.1 then Outcome("Late", "09:30", "18:00", 7.5)
    else if r < 0.15 then Outcome("Half Day", "09:00", "13:00", 4.0)
    else Outcome("Present", "09:00", "18:00", 8.0)
  }

  /** The note of a draw. */
  function NoteFor(r: real): string {
    if r < 0.1 then "Medical appointment" else ""
  }

  /** The note is "Medical appointment" exactly on the absent and late days. */
  lemma NoteMarksAbsentOrLate(r: real)
    ensures NoteFor(r) == "Medical appointment" <==> Classify(r).status in {"Absent", "Late"}
    ensures NoteFor(r) == "" <==> Classify(r).status in {"Half Day", "Present"}
  {
  }

  /** `YYYY-MM` of a year and month. */
  function YearMonthText(year: nat, month: nat): string {
    PadStart(Decimal(year), 4, '0') + "-" + PadStart(Decimal(month), 2, '0')
  }

  /** `YYYY-MM` of the calendar's month, the form of the month filter. */
  function MonthText(cal: Calendar): string {
    YearMonthText(cal.year, cal.month)
  }

  /** `YYYY-MM-DD`, the date part of the ISO timestamp. */
  function DateText(d: Day): string {
    YearMonthText(d.year, d.month) + "-" + PadStart(Decimal(d.day), 2, '0')
  }

  /** `att_<employeeId>_<day>`; a missing code prints as "undefined". */
  function IdText(k: RecordKey): string {
    "att_" + k.employeeId.GetOr("undefined") + "_" + Decimal(k.day)
  }

  /** The record synthesised for day `d` from draw `r`. */
  function SampleRecord(e: EmployeeList.Employee, cal: Calendar, d: nat, r: real): AttendanceRecord {
    var o := Classify(r);
    AttendanceRecord(RecordKey(e.employeeId, d), e.employeeId, e.name, e.department, Day(cal.year, cal.month, d),
                     o.checkIn, o.checkOut, Some(o.workHours), o.status, NoteFor(r))
  }

  /** The records of the month so far: one per workday up to `LastDay`, in day order. */
  function SampleRecords(e: EmployeeList.Employee, cal: Calendar, draw: nat -> real, n: nat): (rs: seq<AttendanceRecord>)
    ensures |rs| == |Workdays(cal, n)|
  {
    if n == 0 then []
    else SampleRecords(e, cal, draw, n - 1) + (if IsWorkday(cal, n) then [SampleRecord(e, cal, n, draw(n))] else [])
  }

  /** The i-th record is the one synthesised for the i-th workday. */
  lemma {:induction false} SampleRecordsAt(e: EmployeeList.Employee, cal: Calendar, draw: nat -> real, n: nat)
    ensures forall i :: 0 <= i < |SampleRecords(e, cal, draw, n)| ==>
              SampleRecords(e, cal, draw, n)[i] == SampleRecord(e, cal, Workdays(cal, n)[i], draw(Workdays(cal, n)[i]))
  {
    if n > 0 {
      SampleRecordsAt(e, cal, draw, n - 1);
      var prev, ds := SampleRecords(e, cal, draw, n - 1), Workdays(cal, n - 1);
      var rs, ws := SampleRecords(e, cal, draw, n), Workdays(cal, n);
      if IsWorkday(cal, n) {
        assert rs == prev + [SampleRecord(e, cal, n, draw(n))] && ws == ds + [n];
      } else {
        assert rs == prev && ws == ds;
      }
      forall i | 0 <= i < |rs|
        ensures rs[i] == SampleRecord(e, cal, ws[i], draw(ws[i]))
      {
        if i < |prev| {
          assert rs[i] == prev[i] && ws[i] == ds[i];
        }
      }
    }
  }

  /** The body of the loop below that turns one draw into a status, times and hours. */
  method DrawOutcome(random: real) returns (status: string, checkIn: string, checkOut: string, workHours: real)
    ensures Outcome(status, checkIn, checkOut, workHours) == Classify(random)
  {
    status := "Present";
    checkIn := "09:00";
    checkOut := "18:00";
    workHours := 8.0;
    if random < 0.05 {
      status := "Absent";
      checkIn := "--";
      checkOut := "--";
      workHours := 0.0;
    } else if random < 0.1 {
      status := "Late";
      checkIn := "09:30";
      workHours := 7.5;
    } else if random < 0.15 {
      status := "Half Day";
      checkOut := "13:00";
      workHours := 4.0;
    }
  }

  /**
   * generateSampleAttendance: a loop over the days of the month so far that
   * skips weekends and classifies each remaining day by its draw.
   */
  method GenerateSampleAttendance(e: EmployeeList.Employee, cal: Calendar, draw: nat -> real)
    returns (records: seq<AttendanceRecord>)
    ensures records == SampleRecords(e, cal, draw, LastDay(cal))
  {
    records := [];
    var last := if cal.daysInMonth < cal.today then cal.daysInMonth else cal.today;
    var day := 1;
    while day <= last
      invariant 1 <= day <= last + 1 || (last == 0 && day == 1)
      invariant records == SampleRecords(e, cal, draw, day - 1)
    {
      if WeekdayOf(cal, day) != 0 && WeekdayOf(cal, day) != 6 {
        var random := draw(day);
        var status, checkIn, checkOut, workHours := DrawOutcome(random);
        var record := AttendanceRecord(RecordKey(e.employeeId, day), e.employeeId, e.name, e.department,
                                       Day(cal.year, cal.month, day), checkIn, checkOut, Some(workHours), status,
                                       if random < 0.1 then "Medical appointment" else "");
        assert record == SampleRecord(e, cal, day, random);
        records := records + [record];
      }
      assert IsWorkday(cal, day) <==> WeekdayOf(cal, day) != 0 && WeekdayOf(cal, day) != 6;
      day := day + 1;
    }
  }

  /** Decimal is one-to-one: distinct days print differently. */
  lemma DecimalInjective(a: nat, b: nat)
    requires Decimal(a) == Decimal(b)
    ensures a == b
  {
    DecimalValue(a);
    DecimalValue(b);
  }

  /** Printed record ids of one employee differ for different days. */
  lemma IdTextInjective(employeeId: Option<string>, a: nat, b: nat)
    requires IdText(RecordKey(employeeId, a)) == IdText(RecordKey(employeeId, b))
    ensures a == b
  {
    var p := "att_" + employeeId.GetOr("undefined") + "_";
    assert IdText(RecordKey(employeeId, a))[|p|..] == Decimal(a);
    assert IdText(RecordKey(employeeId, b))[|p|..] == Decimal(b);
    DecimalInjective(a, b);
  }

  /**
   * The synthesised records are the workdays up to the last day, one each, in
   * increasing day order, with pairwise different ids, printed and structured.
   */
  lemma SampleRecordsShape(e: EmployeeList.Employee, cal: Calendar, draw: nat -> real)
    ensures forall i :: 0 <= i < |SampleRecords(e, cal, draw, LastDay(cal))| ==>
              SampleRecords(e, cal, draw, LastDay(cal))[i] ==
                SampleRecord(e, cal, Workdays(cal, LastDay(cal))[i], draw(Workdays(cal, LastDay(cal))[i]))
    ensures forall i, j :: 0 <= i < j < |SampleRecords(e, cal, draw, LastDay(cal))| ==>
              IdText(SampleRecords(e, cal, draw, LastDay(cal))[i].id) != IdText(SampleRecords(e, cal, draw, LastDay(cal))[j].id)
    ensures UniqueIds(SampleRecords(e, cal, draw, LastDay(cal)))
  {
    var ds := Workdays(cal, LastDay(cal));
    var rs := SampleRecords(e, cal, draw, LastDay(cal));
    SampleRecordsAt(e, cal, draw, LastDay(cal));
    forall i, j | 0 <= i < j < |rs|
      ensures IdText(rs[i].id) != IdText(rs[j].id)
    {
      if IdText(rs[i].id) == IdText(rs[j].id) {
        assert rs[i].id == RecordKey(e.employeeId, ds[i]);
        assert rs[j].id == RecordKey(e.employeeId, ds[j]);
        IdTextInjective(e.employeeId, ds[i], ds[j]);
        assert false;
      }
    }
  }

  /** Every synthesised record is dated in the calendar's month, so the default month filter keeps it. */
  lemma SampleDatesInMonth(e: EmployeeList.Employee, cal: Calendar, d: nat, r: real)
    ensures StartsWith(DateText(SampleRecord(e, cal, d, r).date), MonthText(cal))
  {
    var m := MonthText(cal);
    assert DateText(Day(cal.year, cal.month, d))[..|m|] == m;
  }

  // ---------------------------------------------------------------- counts and rate

  predicate Attended(r: AttendanceRecord) {
    r.status == "Present" || r.status == "Late" || r.status == "Half Day"
  }

  /** The days counted as attended: present, late or half day. */
  function PresentDays(rs: seq<AttendanceRecord>): (n: nat)
    ensures n <= |rs|
  {
    Seqs.Count(rs, Attended)
  }

  /** The number a rate stands for, in percent. */
  function Value(p: Percent): real {
    if p.whole == 0 then 0.0 else (p.part as real / p.whole as real) * 100.0
  }

  /** The rate at fetch time: attended days over all days, and 0 with no days. */
  function FetchRate(present: nat, total: nat): Percent {
    if total > 0 then Percent(present, total) else Percent(0, 0)
  }

  /** A fetched rate lies between 0 and 100; it is 0 with no days and 100 when every day is attended. */
  lemma FetchRateBounds(present: nat, total: nat)
    requires present <= total
    ensures 0.0 <= Value(FetchRate(present, total)) <= 100.0
    ensures total == 0 ==> Value(FetchRate(present, total)) == 0.0
    ensures present == total && total > 0 ==> Value(FetchRate(present, total)) == 100.0
  {
    if total > 0 {
      var q := present as real / total as real;
      assert q * total as real == present as real;
      assert 0.0 <= q <= 1.0;
    }
  }

  /** The rate after an edit: the same quotient, but NaN when there are no days (Attendance.js has no guard there). */
  function SaveRate(present: nat, total: nat): (rate: Option<Percent>)
    ensures rate.None? <==> total == 0
    ensures rate.Some? ==> rate.value == FetchRate(present, total)
  {
    if total == 0 then None else Some(Percent(present, total))
  }

  /**
   * An employee's counters agree with its records, and its rate, when it has
   * one, is the quotient of those counters; it has none only without days.
   */
  predicate Consistent(s: Staff) {
    s.totalDays == |s.attendance| && s.presentDays == PresentDays(s.attendance)
    && (s.attendanceRate.Some? ==> s.attendanceRate.value == FetchRate(s.presentDays, s.totalDays))
    && (s.attendanceRate.None? ==> s.totalDays == 0)
  }

  /** The employee as the fetch builds it: id normalised, records synthesised, counters and rate set. */
  function WithAttendance(e: EmployeeList.Employee, records: seq<AttendanceRecord>): (s: Staff)
    ensures Consistent(s)
    ensures s.employee == EmployeeList.Normalize(e) && s.attendance == records
    ensures s.attendanceRate == Some(FetchRate(PresentDays(records), |records|))
  {
    Staff(EmployeeList.Normalize(e), records, Some(FetchRate(PresentDays(records), |records|)),
          PresentDays(records), |records|)
  }

  // ---------------------------------------------------------------- editing

  /**
   * A time input read as `new Date('2000-01-01T' + t)`: "HH:MM" with an hour
   * up to 23 and a minute up to 59, in minutes since midnight; anything else
   * is an invalid date.
   */
  function Minutes(t: string): (m: Option<nat>)
    ensures m.Some? ==> m.value < 24 * 60
  {
    if |t| == 5 && IsDigit(t[0]) && IsDigit(t[1]) && t[2] == ':' && IsDigit(t[3]) && IsDigit(t[4]) then
      var h := DigitValue(t[0]) * 10 + DigitValue(t[1]);
      var mm := DigitValue(t[3]) * 10 + DigitValue(t[4]);
      if h <= 23 && mm <= 59 then Some(h * 60 + mm) else None
    else None
  }

  /**
   * The hours between two times, never negative; 0 when either is "--", NaN
   * when either is not a valid time.
   */
  function WorkHours(checkIn: string, checkOut: string): (h: Option<real>)
    ensures checkIn == "--" || checkOut == "--" ==> h == Some(0.0)
    ensures h.Some? ==> 0.0 <= h.value < 24.0
    ensures checkIn != "--" && checkOut != "--" && Minutes(checkIn).Some? && Minutes(checkOut).Some? ==>
              h.Some? && h.value * 60.0 == if Minutes(checkOut).value >= Minutes(checkIn).value
                                           then (Minutes(checkOut).value - Minutes(checkIn).value) as real
                                           else 0.0
  {
    if checkIn != "--" && checkOut != "--" then
      match (Minutes(checkIn), Minutes(checkOut))
      case (Some(a), Some(b)) =>
        var diff := (b as real - a as real) / 60.0;
        Some(if diff > 0.0 then diff else 0.0)
      case _ => None
    else Some(0.0)
  }

  lemma NineToHalfPastFive()
    ensures WorkHours("09:00", "17:30") == Some(8.5)
  {
    assert Minutes("09:00") == Some(540);
    assert Minutes("17:30") == Some(1050);
  }

  /** The dialog opened on a record: "--" times shown as empty inputs. */
  function EditFormOf(r: AttendanceRecord): EditForm {
    EditForm(r.status, if r.checkIn == "--" then "" else r.checkIn,
             if r.checkOut == "--" then "" else r.checkOut, r.notes)
  }

  /** The record after the dialog is saved: empty times become "--", the hours are recomputed. */
  function Edited(r: AttendanceRecord, f: EditForm): (n: AttendanceRecord)
    ensures n.id == r.id && n.date == r.date && n.employeeId == r.employeeId
    ensures n.employeeName == r.employeeName && n.department == r.department
    ensures n.status == f.status && n.notes == f.notes
    ensures n.checkIn == (if f.checkIn == "" then "--" else f.checkIn)
    ensures n.checkOut == (if f.checkOut == "" then "--" else f.checkOut)
    ensures n.workHours == WorkHours(n.checkIn, n.checkOut)
  {
    var checkIn := if f.checkIn == "" then "--" else f.checkIn;
    var checkOut := if f.checkOut == "" then "--" else f.checkOut;
    r.(status := f.status, checkIn := checkIn, checkOut := checkOut,
       workHours := WorkHours(checkIn, checkOut), notes := f.notes)
  }

  /** Opening a record and saving the dialog unchanged keeps its status, times and note. */
  lemma SaveUnchangedKeepsRecord(r: AttendanceRecord)
    requires r.checkIn != "" && r.checkOut != ""
    ensures Edited(r, EditFormOf(r)).(workHours := r.workHours) == r
  {
  }

  /** One employee after the save: the record with the id replaced, the counters recomputed, the day total kept. */
  function UpdatedStaff(s: Staff, recordId: RecordKey, f: EditForm): Staff {
    var att := Seqs.Map(s.attendance, (r: AttendanceRecord) => if r.id == recordId then Edited(r, f) else r);
    var present := PresentDays(att);
    s.(attendance := att, presentDays := present, attendanceRate := SaveRate(present, |att|))
  }

  /** handleSaveEdit: the employee with the selected key is updated, every other employee kept. */
  function SaveEdit(staff: seq<Staff>, employeeKey: Option<string>, recordId: RecordKey, f: EditForm): (r: seq<Staff>)
    ensures |r| == |staff|
  {
    Seqs.Map(staff, (s: Staff) => if s.employee.id == employeeKey then UpdatedStaff(s, recordId, f) else s)
  }

  /** Pairwise different record ids. */
  predicate UniqueIds(rs: seq<AttendanceRecord>) {
    forall i, j :: 0 <= i < j < |rs| ==> rs[i].id != rs[j].id
  }

  /**
   * A save changes only the record with the selected id, in the employee with
   * the selected key: other employees are unchanged, the selected employee
   * keeps every other record and its day total, and its counters and rate
   * are recomputed from its records (the rate has no value when it has none).
   */
  lemma SaveEditTouchesOneRecord(staff: seq<Staff>, employeeKey: Option<string>, recordId: RecordKey, f: EditForm)
    ensures forall i :: 0 <= i < |staff| && staff[i].employee.id != employeeKey ==>
              SaveEdit(staff, employeeKey, recordId, f)[i] == staff[i]
    ensures forall i :: 0 <= i < |staff| && staff[i].employee.id == employeeKey ==>
              var n := SaveEdit(staff, employeeKey, recordId, f)[i];
              n.employee == staff[i].employee && n.totalDays == staff[i].totalDays &&
              |n.attendance| == |staff[i].attendance| &&
              n.presentDays == PresentDays(n.attendance) &&
              n.attendanceRate == SaveRate(n.presentDays, |n.attendance|) &&
              forall j :: 0 <= j < |n.attendance| ==>
                if staff[i].attendance[j].id == recordId then n.attendance[j] == Edited(staff[i].attendance[j], f)
                else n.attendance[j] == staff[i].attendance[j]
  {
  }

  /** Under unique ids at most one record of an employee carries the selected id. */
  lemma AtMostOneSelected(rs: seq<AttendanceRecord>, recordId: RecordKey, j: nat, k: nat)
    requires UniqueIds(rs) && j < |rs| && k < |rs|
    requires rs[j].id == recordId && rs[k].id == recordId
    ensures j == k
  {
  }

  /** A save keeps every employee's counters and rate consistent with its records. */
  lemma SaveEditKeepsConsistent(staff: seq<Staff>, employeeKey: Option<string>, recordId: RecordKey, f: EditForm)
    requires forall i :: 0 <= i < |staff| ==> Consistent(staff[i])
    ensures forall i :: 0 <= i < |staff| ==> Consistent(SaveEdit(staff, employeeKey, recordId, f)[i])
  {
  }

  // ---------------------------------------------------------------- filters

  /** The search over name, code and department. */
  predicate Matches(s: Staff, term: string) {
    Mentions(s.employee.name, term) || Mentions(s.employee.employeeId, term) || Mentions(s.employee.department, term)
  }

  function FilteredStaff(staff: seq<Staff>, term: string): (r: seq<Staff>)
    ensures |r| <= |staff|
    ensures forall s :: s in r <==> s in staff && Matches(s, term)
  {
    Seqs.Filter(staff, s => Matches(s, term))
  }

  /** `record.date.startsWith(filterMonth)`. */
  predicate InMonth(r: AttendanceRecord, month: string) {
    StartsWith(DateText(r.date), month)
  }

  /** How many records `keep` accepts, added up over the employees. */
  function KeptTotal(staff: seq<Staff>, keep: AttendanceRecord -> bool): nat {
    if staff == [] then 0
    else KeptTotal(staff[..|staff| - 1], keep) + Seqs.Count(staff[|staff| - 1].attendance, keep)
  }

  /**
   * Every employee's records that `keep` accepts, employee after employee:
   * only records of some employee, all accepted ones, each as often as the
   * employees hold it.
   */
  function RecordsWhere(staff: seq<Staff>, keep: AttendanceRecord -> bool): (rs: seq<AttendanceRecord>)
    ensures forall r :: r in rs ==> keep(r) && exists i :: 0 <= i < |staff| && r in staff[i].attendance
    ensures forall i, r :: 0 <= i < |staff| && r in staff[i].attendance && keep(r) ==> r in rs
    ensures |rs| == KeptTotal(staff, keep)
  {
    if staff == [] then []
    else
      var init := staff[..|staff| - 1];
      var last := staff[|staff| - 1];
      var rest := RecordsWhere(init, keep);
      var mine := Seqs.Filter(last.attendance, keep);
      assert forall i :: 0 <= i < |init| ==> init[i] == staff[i];
      rest + mine
  }

  /** The record filter of the month view. */
  function MonthTest(month: string): AttendanceRecord -> bool {
    r => InMonth(r, month)
  }

  /**
   * currentMonthRecords: every employee's records of the month, employee after
   * employee, and nothing else; `totalRecords` is its length.
   */
  function MonthRecords(staff: seq<Staff>, month: string): (rs: seq<AttendanceRecord>)
    ensures forall r :: r in rs ==> InMonth(r, month) && exists i :: 0 <= i < |staff| && r in staff[i].attendance
    ensures forall i, r :: 0 <= i < |staff| && r in staff[i].attendance && InMonth(r, month) ==> r in rs
    ensures |rs| == KeptTotal(staff, MonthTest(month))
  {
    RecordsWhere(staff, MonthTest(month))
  }

  datatype MonthlyStats = MonthlyStats(totalRecords: nat, presentCount: nat, absentCount: nat, lateCount: nat)

  /**
   * monthlyStats: the month's records, and how many of them have each of the
   * three statuses; the three counts never add up to more than the records.
   */
  function Stats(rs: seq<AttendanceRecord>): (st: MonthlyStats)
    ensures st.totalRecords == |rs|
    ensures st.presentCount + st.absentCount + st.lateCount <= st.totalRecords
    ensures st.presentCount == |Seqs.Filter(rs, (r: AttendanceRecord) => r.status == "Present")|
    ensures st.absentCount == |Seqs.Filter(rs, (r: AttendanceRecord) => r.status == "Absent")|
    ensures st.lateCount == |Seqs.Filter(rs, (r: AttendanceRecord) => r.status == "Late")|
  {
    Seqs.CountDisjoint(rs, (r: AttendanceRecord) => r.status == "Present",
                       (r: AttendanceRecord) => r.status == "Absent",
                       (r: AttendanceRecord) => r.status == "Late");
    MonthlyStats(|rs|,
                 Seqs.Count(rs, (r: AttendanceRecord) => r.status == "Present"),
                 Seqs.Count(rs, (r: AttendanceRecord) => r.status == "Absent"),
                 Seqs.Count(rs, (r: AttendanceRecord) => r.status == "Late"))
  }

  /**
   * The monthly "present" counter counts status "Present" only, so it never
   * exceeds the attended-day count behind the rate; no counter exceeds the
   * number of records.
   */
  lemma StatsBounds(rs: seq<AttendanceRecord>)
    ensures Stats(rs).presentCount <= PresentDays(rs)
    ensures Stats(rs).presentCount <= Stats(rs).totalRecords
    ensures Stats(rs).absentCount <= Stats(rs).totalRecords && Stats(rs).lateCount <= Stats(rs).totalRecords
  {
    Seqs.CountMonotone(rs, (r: AttendanceRecord) => r.status == "Present", Attended);
  }

  /** One employee as a fetch builds it from the calendar and its draws. */
  function StaffFor(e: EmployeeList.Employee, cal: Calendar, draw: nat -> real): Staff {
    WithAttendance(e, SampleRecords(e, cal, draw, LastDay(cal)))
  }

  /**
   * A fetched employee's counters agree with its records: the day total is the
   * number of workdays so far, the attended days are at most that, and the rate
   * lies between 0 and 100. Its record ids are pairwise different, so an edit
   * selects at most one of its records (`AtMostOneSelected`).
   */
  lemma FetchedStaffConsistent(e: EmployeeList.Employee, cal: Calendar, draw: nat -> real)
    ensures Consistent(StaffFor(e, cal, draw))
    ensures StaffFor(e, cal, draw).totalDays == |Workdays(cal, LastDay(cal))|
    ensures StaffFor(e, cal, draw).presentDays <= StaffFor(e, cal, draw).totalDays
    ensures StaffFor(e, cal, draw).attendanceRate.Some? &&
            0.0 <= Value(StaffFor(e, cal, draw).attendanceRate.value) <= 100.0
    ensures UniqueIds(StaffFor(e, cal, draw).attendance)
  {
    var records := SampleRecords(e, cal, draw, LastDay(cal));
    SampleRecordsShape(e, cal, draw);
    FetchRateBounds(PresentDays(records), |records|);
  }

  /** `data.map(...)` of the fetch: the k-th employee with its own run of draws, `draws(k)`. */
  function FetchedStaff(data: seq<EmployeeList.Employee>, cal: Calendar, draws: nat -> nat -> real): (r: seq<Staff>)
    ensures |r| == |data|
  {
    seq(|data|, k requires 0 <= k < |data| => StaffFor(data[k], cal, draws(k)))
  }

  /**
   * Every fetched entry is the k-th employee, normalised, with its own month
   * of records, and counters and a rate that agree with those records.
   */
  lemma FetchedListConsistent(data: seq<EmployeeList.Employee>, cal: Calendar, draws: nat -> nat -> real)
    ensures forall k :: 0 <= k < |data| ==>
              FetchedStaff(data, cal, draws)[k].employee == EmployeeList.Normalize(data[k]) &&
              FetchedStaff(data, cal, draws)[k].attendance == SampleRecords(data[k], cal, draws(k), LastDay(cal))
    ensures forall k :: 0 <= k < |data| ==> Consistent(FetchedStaff(data, cal, draws)[k])
    ensures forall k :: 0 <= k < |data| ==>
              FetchedStaff(data, cal, draws)[k].attendanceRate.Some? &&
              0.0 <= Value(FetchedStaff(data, cal, draws)[k].attendanceRate.value) <= 100.0
  {
    forall k | 0 <= k < |data|
      ensures FetchedStaff(data, cal, draws)[k].employee == EmployeeList.Normalize(data[k])
      ensures FetchedStaff(data, cal, draws)[k].attendance == SampleRecords(data[k], cal, draws(k), LastDay(cal))
      ensures FetchedStaff(data, cal, draws)[k].attendanceRate.Some? &&
              0.0 <= Value(FetchedStaff(data, cal, draws)[k].attendanceRate.value) <= 100.0
    {
      assert FetchedStaff(data, cal, draws)[k] == StaffFor(data[k], cal, draws(k));
      FetchedStaffConsistent(data[k], cal, draws(k));
    }
  }

  // ---------------------------------------------------------------- view

  /** The state of the attendance view that its handlers change. */
  class AttendanceView {
    var staff: seq<Staff>
    var loading: bool
    var showEditModal: bool
    var selected: Option<(Option<string>, RecordKey)>
    var editForm: EditForm

    constructor ()
      ensures staff == [] && !loading && !showEditModal && selected.None?
    {
      staff := [];
      loading := false;
      showEditModal := false;
      selected := None;
      editForm := EditForm("", "", "", "");
    }

    /**
     * fetchEmployees: on success every employee gets its synthesised records
     * (its own draws, `draws(i)` for the i-th) and counters; on failure the
     * list is kept.
     */
    method FetchEmployees(load: Load, cal: Calendar, draws: nat -> nat -> real)
      modifies this
      ensures load.Loaded? ==> staff == FetchedStaff(load.records, cal, draws)
      ensures load.LoadFailed? ==> staff == old(staff)
      ensures !loading && showEditModal == old(showEditModal) && selected == old(selected) && editForm == old(editForm)
    {
      loading := true;
      if load.Loaded? {
        staff := FetchedStaff(load.records, cal, draws);
      }
      loading := false;
    }

    /** handleEditRecord: the record and its employee selected, the dialog filled and opened. */
    method EditRecord(employee: Staff, record: AttendanceRecord)
      modifies this
      ensures selected == Some((employee.employee.id, record.id)) && editForm == EditFormOf(record) && showEditModal
      ensures staff == old(staff) && loading == old(loading)
    {
      selected := Some((employee.employee.id, record.id));
      editForm := EditFormOf(record);
      showEditModal := true;
    }

    /** handleSaveEdit (a record must be selected: Attendance.js reads the selection's fields). */
    method SaveEditRecord()
      requires selected.Some?
      modifies this
      ensures staff == SaveEdit(old(staff), old(selected).value.0, old(selected).value.1, old(editForm))
      ensures !showEditModal && selected.None? && loading == old(loading) && editForm == old(editForm)
    {
      staff := SaveEdit(staff, selected.value.0, selected.value.1, editForm);
      showEditModal := false;
      selected := None;
    }
  }
}
