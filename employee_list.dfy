/**
 * The employee roster view (EmployeeList.js): the records fetched from the
 * server, the add/edit form, the next "EMP" code, the search filter, the
 * salary sanitiser, the CSV export, and the handlers that update the view's
 * state around each request. A request's outcome is an input of the handler
 * that waits for it.
 */
module EmployeeList {
  import opened Wrappers
  import opened Text
  import opened Money
  import Seqs
  import Csv
  import Codes

  /**
   * An employee as the view holds it after a fetch. Any text field may be
   * missing from the server's JSON; `mongoId` is the `_id` key.
   */
  datatype Employee = Employee(
    mongoId: Option<string>,
    id: Option<string>,
    employeeId: Option<string>,
    name: Option<string>,
    email: Option<string>,
    department: Option<string>,
    position: Option<string>,
    status: Option<string>,
    salary: Cents,
    joinDate: Option<string>,
    phone: Option<string>,
    manager: Option<string>)

  /** The add/edit form: every input holds text, '' when empty. */
  datatype EmployeeForm = EmployeeForm(
    id: string,
    employeeId: string,
    name: string,
    email: string,
    department: string,
    position: string,
    status: string,
    salary: string,
    joinDate: string,
    phone: string,
    manager: string)

  /** The JSON body of an add or edit request; `salary` is the text handed to parseFloat. */
  datatype EmployeePayload = EmployeePayload(
    employeeId: string,
    name: string,
    email: string,
    department: string,
    position: string,
    status: string,
    salary: string,
    joinDate: string,
    phone: string,
    manager: string)

  /** The outcome of an add, edit or delete request. */
  datatype Reply = Ok | NotOk | Thrown(message: string)

  /** The outcome of the list request. */
  datatype Load = Loaded(records: seq<Employee>) | LoadNotOk | LoadThrown(message: string)

  const Prefix := "EMP"
  const Width := 3

  /** The form after a reset: every field empty except the status, "Active". */
  const BlankForm := EmployeeForm("", "", "", "", "", "", "Active", "", "", "", "")

  // ---------------------------------------------------------------- fetch

  /** `id: emp._id || emp.id`: a non-empty `_id` wins over the `id` field. */
  function Normalize(e: Employee): (r: Employee)
    ensures e.mongoId.Some? && e.mongoId.value != "" ==> r.id == e.mongoId
    ensures !(e.mongoId.Some? && e.mongoId.value != "") ==> r.id == e.id
    ensures r.(id := e.id) == e
  {
    e.(id := if e.mongoId.Some? && e.mongoId.value != "" then e.mongoId else e.id)
  }

  /** The list after a fetch: the normalised records when it succeeded, else the old list. */
  function AfterLoad(employees: seq<Employee>, load: Load): seq<Employee> {
    if load.Loaded? then Seqs.Map(load.records, Normalize) else employees
  }

  /** The error text a fetch leaves behind. */
  function LoadError(load: Load): string {
    match load
    case Loaded(_) => ""
    case LoadNotOk => "Error loading employees: " + "Failed to fetch employees"
    case LoadThrown(m) => "Error loading employees: " + m
  }

  /** The error text a failed add, edit or delete leaves behind. */
  function ReplyError(context: string, reply: Reply, notOk: string): string
    requires !reply.Ok?
  {
    context + (if reply.NotOk? then notOk else reply.message)
  }

  // ---------------------------------------------------------------- codes

  /** generateEmployeeId: "EMP" and the largest suffix plus one, padded to three digits. */
  function GenerateEmployeeId(employees: seq<Employee>): (code: string)
    ensures StartsWith(code, Prefix) && |code| >= |Prefix| + Width
    ensures forall i :: 0 <= i < |employees| ==> employees[i].employeeId != Some(code)
  {
    var codes := Seqs.Map(employees, (e: Employee) => e.employeeId);
    Codes.NextCodeIsNew(codes, Prefix, Width);
    Codes.NextCode(codes, Prefix, Width)
  }

  /** With no employees the first code is "EMP001". */
  lemma FirstEmployeeId()
    ensures GenerateEmployeeId([]) == "EMP001"
  {
    var codes := Seqs.Map([], (e: Employee) => e.employeeId);
    assert codes == [];
    assert Codes.MaxSuffix(codes, Prefix) == 0;
    CodeForOne();
  }

  lemma CodeForOne()
    ensures Codes.CodeFor(1, Prefix, Width) == "EMP001"
  {
    assert DigitChar(1) == '1';
    assert Decimal(1) == "1";
    ShortZeroRuns();
    assert PadStart("1", 3, '0') == "00" + "1" == "001";
    assert Codes.CodeFor(1, Prefix, Width) == "EMP" + "001";
  }

  lemma FiveDigitsValue()
    ensures DigitsValue("005", 10) == 5
  {
    assert "005"[..2] == "00" && "00"[..1] == "0" && ""[..0] == "";
  }

  lemma SuffixOfFive()
    ensures Codes.SuffixNumber(Some("EMP005"), Prefix) == Some(5)
  {
    assert "EMP005" == "EMP" + "005";
    ReplaceLeading("EMP", "005");
    assert ReplaceFirst("EMP005", "EMP", "") == "005";
    ParseDigits("005");
    FiveDigitsValue();
  }

  lemma CodeForSix()
    ensures Codes.CodeFor(6, Prefix, Width) == "EMP006"
  {
    assert DigitChar(6) == '6';
    assert Decimal(6) == "6";
    ShortZeroRuns();
    assert PadStart("6", 3, '0') == "00" + "6" == "006";
    assert Codes.CodeFor(6, Prefix, Width) == "EMP" + "006";
  }

  /** After the single code "EMP005" comes "EMP006". */
  lemma EmployeeIdAfterFive(e: Employee)
    requires e.employeeId == Some("EMP005")
    ensures GenerateEmployeeId([e]) == "EMP006"
  {
    var codes := Seqs.Map([e], (e: Employee) => e.employeeId);
    assert codes == [Some("EMP005")];
    SuffixOfFive();
    assert Codes.Suffixes(codes, Prefix) == [Some(5)];
    assert [Some(5)][..0] == [];
    assert Codes.MaxSuffix(codes, Prefix) == 5;
    CodeForSix();
  }

  // ---------------------------------------------------------------- form

  /** The guard of both handlers: a required input is empty. */
  predicate MissingRequired(f: EmployeeForm) {
    f.name == "" || f.email == "" || f.department == "" || f.position == "" || f.salary == "" || f.joinDate == ""
  }

  /**
   * Blanking any of name, email, department, position, salary or join date
   * trips the guard, and only those six inputs decide it: employee code,
   * status, phone and manager may stay empty.
   */
  lemma RequiredGuard(f: EmployeeForm, g: EmployeeForm)
    ensures MissingRequired(f.(name := "")) && MissingRequired(f.(email := ""))
    ensures MissingRequired(f.(department := "")) && MissingRequired(f.(position := ""))
    ensures MissingRequired(f.(salary := "")) && MissingRequired(f.(joinDate := ""))
    ensures f.name == g.name && f.email == g.email && f.department == g.department &&
            f.position == g.position && f.salary == g.salary && f.joinDate == g.joinDate ==>
              (MissingRequired(f) <==> MissingRequired(g))
  {
  }

  /** `salary.replace(/[$,]/g, '')`: every '$' and ',' removed, the other characters kept in order. */
  function SanitizeSalary(s: string): (r: string)
    ensures '$' !in r && ',' !in r
    ensures forall c :: c in r <==> c in s && c != '$' && c != ','
    ensures |r| <= |s|
  {
    Seqs.Filter(s, c => c != '$' && c != ',')
  }

  /** Sanitising is idempotent: a sanitised salary is left as it is. */
  lemma SanitizeSalaryIdempotent(s: string)
    ensures SanitizeSalary(SanitizeSalary(s)) == SanitizeSalary(s)
  {
    var r := SanitizeSalary(s);
    Seqs.FilterKeepsAll(r, c => c != '$' && c != ',');
  }

  /** The body of an edit request, and of an add request before its code is chosen. */
  function PayloadOf(f: EmployeeForm, employeeId: string): (p: EmployeePayload)
    ensures p.employeeId == employeeId && p.salary == SanitizeSalary(f.salary)
    ensures p.name == f.name && p.email == f.email && p.department == f.department
    ensures p.position == f.position && p.status == f.status && p.joinDate == f.joinDate
    ensures p.phone == f.phone && p.manager == f.manager
  {
    EmployeePayload(employeeId, f.name, f.email, f.department, f.position, f.status,
                    SanitizeSalary(f.salary), f.joinDate, f.phone, f.manager)
  }

  /**
   * The body of an add request: a typed code is sent verbatim; a blank one is
   * replaced by a generated code that no listed employee holds.
   */
  function AddPayload(f: EmployeeForm, employees: seq<Employee>): (p: EmployeePayload)
    ensures f.employeeId != "" ==> p == PayloadOf(f, f.employeeId)
    ensures f.employeeId == "" ==> p == PayloadOf(f, GenerateEmployeeId(employees))
    ensures f.employeeId == "" ==>
              StartsWith(p.employeeId, Prefix) &&
              forall i :: 0 <= i < |employees| ==> employees[i].employeeId != Some(p.employeeId)
  {
    PayloadOf(f, if f.employeeId != "" then f.employeeId else GenerateEmployeeId(employees))
  }

  /** An edit request: addressed by the stored record's key, carrying the form's code unchanged. */
  function EditRequest(f: EmployeeForm): (r: (string, EmployeePayload))
    ensures r.0 == f.id
    ensures r.1 == PayloadOf(f, f.employeeId)
  {
    (f.id, PayloadOf(f, f.employeeId))
  }

  /**
   * The form filled from a listed employee by the edit button; `joinDay` is the
   * join date already printed as YYYY-MM-DD. Missing texts become ''.
   */
  function FormOf(e: Employee, joinDay: string): EmployeeForm {
    EmployeeForm(
      e.id.GetOr(""), e.employeeId.GetOr(""), e.name.GetOr(""), e.email.GetOr(""),
      e.department.GetOr(""), e.position.GetOr(""), e.status.GetOr(""),
      AmountText(e.salary), if e.joinDate.Some? then joinDay else "",
      e.phone.GetOr(""), e.manager.GetOr(""))
  }

  /**
   * Opening the edit form on a record and saving it addresses the request by
   * that record's key (not its code), sends its code unchanged, and sends its
   * salary as printed, which holds no '$' or ','.
   */
  lemma EditTargetsOpenedRecord(e: Employee, joinDay: string)
    ensures EditRequest(FormOf(e, joinDay)).0 == e.id.GetOr("")
    ensures EditRequest(FormOf(e, joinDay)).1.employeeId == e.employeeId.GetOr("")
    ensures EditRequest(FormOf(e, joinDay)).1.salary == AmountText(e.salary)
  {
    var s := AmountText(e.salary);
    AmountTextPlain(e.salary);
    Seqs.FilterKeepsAll(s, c => c != '$' && c != ',');
  }

  // ---------------------------------------------------------------- filter

  /** The filter over the search term, the department select and the status select. */
  predicate Matches(e: Employee, term: string, dept: string, status: string) {
    (Mentions(e.name, term) || Mentions(e.email, term) || Mentions(e.employeeId, term)) &&
    (dept == "" || dept == "All Departments" || e.department == Some(dept)) &&
    (status == "" || status == "All Status" || e.status == Some(status))
  }

  /** filteredEmployees: the matching employees, in their original order. */
  function FilteredEmployees(employees: seq<Employee>, term: string, dept: string, status: string): (r: seq<Employee>)
    ensures |r| <= |employees|
    ensures forall e :: e in r <==> e in employees && Matches(e, term, dept, status)
  {
    Seqs.Filter(employees, e => Matches(e, term, dept, status))
  }

  /** The search ignores the case of the term. */
  lemma SearchIgnoresCase(e: Employee, term: string, dept: string, status: string)
    ensures Matches(e, term, dept, status) <==> Matches(e, Lower(term), dept, status)
  {
    LowerIdempotent(term);
  }

  /** An empty term with both selects on "All …" keeps every employee that has a name. */
  lemma BlankFilterKeepsNamed(employees: seq<Employee>)
    requires forall i :: 0 <= i < |employees| ==> employees[i].name.Some?
    ensures FilteredEmployees(employees, "", "All Departments", "All Status") == employees
  {
    forall i | 0 <= i < |employees|
      ensures Matches(employees[i], "", "All Departments", "All Status")
    {
      assert OccursAt(Lower(employees[i].name.value), Lower(""), 0);
    }
    Seqs.FilterKeepsAll(employees, e => Matches(e, "", "All Departments", "All Status"));
  }

  // ---------------------------------------------------------------- export

  const Headers: seq<string> :=
    ["Employee ID", "Name", "Email", "Department", "Position", "Status", "Salary", "Join Date", "Phone", "Manager"]

  /** No text field of the employee holds a ',' or a line break. */
  predicate PlainTexts(e: Employee) {
    Csv.PlainText(e.employeeId.GetOr("")) && Csv.PlainText(e.name.GetOr("")) &&
    Csv.PlainText(e.email.GetOr("")) && Csv.PlainText(e.department.GetOr("")) &&
    Csv.PlainText(e.position.GetOr("")) && Csv.PlainText(e.status.GetOr("")) &&
    Csv.PlainText(e.joinDate.GetOr("")) && Csv.PlainText(e.phone.GetOr("")) &&
    Csv.PlainText(e.manager.GetOr(""))
  }

  /**
   * One exported row: ten cells, a missing text printed as ''. The salary cell
   * never holds a separator, so the row is plain when the texts are.
   */
  function ExportRow(e: Employee): (row: seq<string>)
    ensures |row| == |Headers|
    ensures PlainTexts(e) ==> forall j :: 0 <= j < |row| ==> Csv.PlainText(row[j])
  {
    AmountTextPlain(e.salary);
    [e.employeeId.GetOr(""), e.name.GetOr(""), e.email.GetOr(""), e.department.GetOr(""),
     e.position.GetOr(""), e.status.GetOr(""), AmountText(e.salary), e.joinDate.GetOr(""),
     e.phone.GetOr(""), e.manager.GetOr("")]
  }

  /**
   * Each text cell stands under its own header; a missing text, phone and
   * manager included, exports as ''; the salary cell is the formatted amount.
   */
  lemma ExportCellsUnderHeaders(e: Employee)
    ensures Headers[0] == "Employee ID" && ExportRow(e)[0] == e.employeeId.GetOr("")
    ensures Headers[1] == "Name" && ExportRow(e)[1] == e.name.GetOr("")
    ensures Headers[2] == "Email" && ExportRow(e)[2] == e.email.GetOr("")
    ensures Headers[3] == "Department" && ExportRow(e)[3] == e.department.GetOr("")
    ensures Headers[4] == "Position" && ExportRow(e)[4] == e.position.GetOr("")
    ensures Headers[5] == "Status" && ExportRow(e)[5] == e.status.GetOr("")
    ensures Headers[6] == "Salary" && ExportRow(e)[6] == AmountText(e.salary)
    ensures Headers[7] == "Join Date" && ExportRow(e)[7] == e.joinDate.GetOr("")
    ensures Headers[8] == "Phone" && (e.phone.None? ==> ExportRow(e)[8] == "") &&
            (e.phone.Some? ==> ExportRow(e)[8] == e.phone.value)
    ensures Headers[9] == "Manager" && (e.manager.None? ==> ExportRow(e)[9] == "") &&
            (e.manager.Some? ==> ExportRow(e)[9] == e.manager.value)
  {
  }

  /** The header row followed by one row per fetched employee (the whole list, not the filtered one). */
  function ExportRows(employees: seq<Employee>): (rows: seq<seq<string>>)
    ensures |rows| == |employees| + 1 && rows[0] == Headers
    ensures forall i :: 0 <= i < |employees| ==> rows[i + 1] == ExportRow(employees[i])
  {
    [Headers] + Seqs.Map(employees, ExportRow)
  }

  /** The CSV text of the export. */
  function ExportCsv(employees: seq<Employee>): string {
    Csv.Encode(ExportRows(employees))
  }

  /**
   * When no text field holds a separator, reading the export back gives the
   * header row and exactly one row per employee, cell for cell.
   */
  lemma ExportReadsBack(employees: seq<Employee>)
    requires forall i :: 0 <= i < |employees| ==> PlainTexts(employees[i])
    ensures Csv.Decode(ExportCsv(employees)) == ExportRows(employees)
  {
    var rows := ExportRows(employees);
    forall i | 0 <= i < |rows|
      ensures |rows[i]| >= 1 && forall j :: 0 <= j < |rows[i]| ==> Csv.PlainText(rows[i][j])
    {
      if i > 0 {
        assert rows[i] == ExportRow(employees[i - 1]);
      }
    }
    Csv.DecodeEncode(rows);
  }

  // ---------------------------------------------------------------- view

  /** The state of the roster view that its handlers change. */
  class RosterView {
    var employees: seq<Employee>
    var form: EmployeeForm
    var loading: bool
    var error: string
    var showAddForm: bool
    var showEditModal: bool

    /** The view as first mounted: no records, a blank form, nothing open. */
    constructor ()
      ensures employees == [] && form == BlankForm && !loading && error == ""
      ensures !showAddForm && !showEditModal
    {
      employees := [];
      form := BlankForm;
      loading := false;
      error := "";
      showAddForm := false;
      showEditModal := false;
    }

    /** fetchEmployees: loading is raised and lowered, the error cleared or set, the list replaced on success. */
    method FetchEmployees(load: Load)
      modifies this
      ensures employees == AfterLoad(old(employees), load)
      ensures error == LoadError(load) && !loading
      ensures form == old(form) && showAddForm == old(showAddForm) && showEditModal == old(showEditModal)
    {
      loading := true;
      error := "";
      match load {
        case Loaded(records) =>
          employees := Seqs.Map(records, Normalize);
        case LoadNotOk =>
          error := "Error loading employees: " + "Failed to fetch employees";
        case LoadThrown(m) =>
          error := "Error loading employees: " + m;
      }
      loading := false;
    }

    /** resetForm: the blank form, and the add form closed. */
    method ResetForm()
      modifies this
      ensures form == BlankForm && !showAddForm
      ensures employees == old(employees) && loading == old(loading) && error == old(error)
      ensures showEditModal == old(showEditModal)
    {
      form := BlankForm;
      showAddForm := false;
    }

    /** handleEditClick: the form filled from the record, and the edit dialog opened. */
    method EditClick(e: Employee, joinDay: string)
      modifies this
      ensures form == FormOf(e, joinDay) && showEditModal
      ensures employees == old(employees) && loading == old(loading) && error == old(error)
      ensures showAddForm == old(showAddForm)
    {
      form := FormOf(e, joinDay);
      showEditModal := true;
    }

    /**
     * handleAddEmployee. With a required field empty nothing is sent and nothing
     * changes. Otherwise the add body is sent; on success the list is fetched
     * again (`reload`) and the form reset; on failure the error is shown and
     * the list and form are kept.
     */
    method AddEmployee(reply: Reply, reload: Load) returns (sent: Option<EmployeePayload>)
      modifies this
      ensures MissingRequired(old(form)) ==> sent.None? && unchanged(this)
      ensures !MissingRequired(old(form)) ==>
                sent == Some(AddPayload(old(form), old(employees))) && !loading
      ensures !MissingRequired(old(form)) && reply.Ok? ==>
                employees == AfterLoad(old(employees), reload) && error == LoadError(reload) &&
                form == BlankForm && !showAddForm
      ensures !MissingRequired(old(form)) && !reply.Ok? ==>
                employees == old(employees) && form == old(form) && showAddForm == old(showAddForm) &&
                error == ReplyError("Error adding employee: ", reply, "Failed to add employee")
      ensures showEditModal == old(showEditModal)
    {
      if MissingRequired(form) {
        return None;
      }
      loading := true;
      error := "";
      var payload := AddPayload(form, employees);
      sent := Some(payload);
      match reply {
        case Ok =>
          FetchEmployees(reload);
          ResetForm();
        case NotOk =>
          error := "Error adding employee: " + "Failed to add employee";
        case Thrown(m) =>
          error := "Error adding employee: " + m;
      }
      loading := false;
    }

    /**
     * handleEditEmployee. The same guard; the request goes to the form's stored
     * key with the form's code. On success the list is fetched again, the form
     * reset and the dialog closed.
     */
    method EditEmployee(reply: Reply, reload: Load) returns (sent: Option<(string, EmployeePayload)>)
      modifies this
      ensures MissingRequired(old(form)) ==> sent.None? && unchanged(this)
      ensures !MissingRequired(old(form)) ==> sent == Some(EditRequest(old(form))) && !loading
      ensures !MissingRequired(old(form)) && reply.Ok? ==>
                employees == AfterLoad(old(employees), reload) && error == LoadError(reload) &&
                form == BlankForm && !showAddForm && !showEditModal
      ensures !MissingRequired(old(form)) && !reply.Ok? ==>
                employees == old(employees) && form == old(form) && showAddForm == old(showAddForm) &&
                showEditModal == old(showEditModal) &&
                error == ReplyError("Error updating employee: ", reply, "Failed to update employee")
    {
      if MissingRequired(form) {
        return None;
      }
      loading := true;
      error := "";
      var request := EditRequest(form);
      sent := Some(request);
      match reply {
        case Ok =>
          FetchEmployees(reload);
          ResetForm();
          showEditModal := false;
        case NotOk =>
          error := "Error updating employee: " + "Failed to update employee";
        case Thrown(m) =>
          error := "Error updating employee: " + m;
      }
      loading := false;
    }

    /**
     * handleDeleteEmployee. Without confirmation nothing is sent. Otherwise the
     * delete goes to `id`; on success the list is fetched again, on failure the
     * error is shown. The loading flag is left to the fetch.
     */
    method DeleteEmployee(confirmed: bool, id: string, reply: Reply, reload: Load) returns (sent: Option<string>)
      modifies this
      ensures !confirmed ==> sent.None? && unchanged(this)
      ensures confirmed ==> sent == Some(id)
      ensures confirmed && reply.Ok? ==>
                employees == AfterLoad(old(employees), reload) && error == LoadError(reload) && !loading
      ensures confirmed && !reply.Ok? ==>
                employees == old(employees) && loading == old(loading) &&
                error == ReplyError("Error deleting employee: ", reply, "Failed to delete employee")
      ensures form == old(form) && showAddForm == old(showAddForm) && showEditModal == old(showEditModal)
    {
      if !confirmed {
        return None;
      }
      sent := Some(id);
      match reply {
        case Ok =>
          FetchEmployees(reload);
        case NotOk =>
          error := "Error deleting employee: " + "Failed to delete employee";
        case Thrown(m) =>
          error := "Error deleting employee: " + m;
      }
    }
  }
}
