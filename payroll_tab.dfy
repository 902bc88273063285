/**
 * The payroll view (Payroll.js): the fetched payroll records, the modal form
 * whose gross pay, deductions and net pay follow every monetary edit, the
 * next "PR" code, the submit guard and body, the CSV export, the filter, and
 * the handlers around each request. Amounts are whole cents; a blank amount
 * input is `None`.
 */
module PayrollTab {
  import opened Wrappers
  import opened Text
  import opened Money
  import Seqs
  import Csv
  import Codes

  /** A payroll record as fetched; `mongoId` is the `_id` key. */
  datatype PayrollRecord = PayrollRecord(
    mongoId: Option<string>,
    id: Option<string>,
    payrollId: Option<string>,
    employeeId: Option<string>,
    employeeName: Option<string>,
    department: Option<string>,
    payPeriodStart: Option<string>,
    payPeriodEnd: Option<string>,
    baseSalary: Option<Cents>,
    overtime: Option<Cents>,
    bonus: Option<Cents>,
    taxWithholding: Option<Cents>,
    healthInsurance: Option<Cents>,
    retirement401k: Option<Cents>,
    grossPay: Option<Cents>,
    totalDeductions: Option<Cents>,
    netPay: Option<Cents>,
    status: Option<string>,
    payDate: Option<string>)

  /** The modal form. Amount inputs are `None` while blank. */
  datatype PayrollForm = PayrollForm(
    id: string,
    payrollId: string,
    employeeId: string,
    employeeName: string,
    department: string,
    payPeriodStart: string,
    payPeriodEnd: string,
    baseSalary: Option<Cents>,
    overtime: Option<Cents>,
    bonus: Option<Cents>,
    taxWithholding: Option<Cents>,
    healthInsurance: Option<Cents>,
    retirement401k: Option<Cents>,
    grossPay: Option<Cents>,
    totalDeductions: Option<Cents>,
    netPay: Option<Cents>,
    status: string,
    payDate: string)

  /** The JSON body of a submit: blank amounts sent as 0, blank dates as null. */
  datatype PayrollPayload = PayrollPayload(
    payrollId: string,
    employeeId: string,
    employeeName: string,
    department: string,
    payPeriodStart: Option<string>,
    payPeriodEnd: Option<string>,
    baseSalary: Cents,
    overtime: Cents,
    bonus: Cents,
    taxWithholding: Cents,
    healthInsurance: Cents,
    retirement401k: Cents,
    grossPay: Cents,
    totalDeductions: Cents,
    netPay: Cents,
    status: string,
    payDate: Option<string>)

  /** The inputs that hold text, and the six that hold amounts. */
  datatype TextField = EmployeeIdInput | EmployeeNameInput | DepartmentInput | StatusInput | PeriodStartInput | PeriodEndInput
  datatype AmountField = BaseSalaryInput | OvertimeInput | BonusInput | TaxInput | HealthInput | RetirementInput

  /** One input event: the field's name and its new value. */
  datatype Change = SetText(textField: TextField, text: string) | SetAmount(amountField: AmountField, amount: Option<Cents>)

  datatype ModalType = Add | Edit | View
  datatype Verb = Post | Put

  /** A submit request: the method, the record key in the path for a PUT, and the body. */
  datatype SubmitRequest = SubmitRequest(verb: Verb, path: Option<string>, body: PayrollPayload)

  /** The outcome of a submit or delete request. */
  datatype Reply = Ok | NotOk | Thrown(message: string)

  /** The outcome of the list request. */
  datatype Load = Loaded(records: seq<PayrollRecord>) | LoadNotOk | LoadThrown(message: string)

  const Prefix := "PR"
  const Width := 4

  /** The form after a reset: all blank, the status "Draft". */
  const BlankForm := PayrollForm("", "", "", "", "", "", "", None, None, None, None, None, None, None, None, None, "Draft", "")

  // ---------------------------------------------------------------- derived amounts

  /** `parseFloat(x || 0)`: a blank amount counts as 0. */
  function Amount(o: Option<Cents>): Cents {
    o.GetOr(0)
  }

  function GrossOf(f: PayrollForm): Cents {
    Amount(f.baseSalary) + Amount(f.overtime) + Amount(f.bonus)
  }

  function DeductionsOf(f: PayrollForm): Cents {
    Amount(f.taxWithholding) + Amount(f.healthInsurance) + Amount(f.retirement401k)
  }

  /** The three read-only amounts agree with the six inputs. */
  predicate Derived(f: PayrollForm) {
    f.grossPay == Some(GrossOf(f)) &&
    f.totalDeductions == Some(DeductionsOf(f)) &&
    f.netPay == Some(GrossOf(f) - DeductionsOf(f))
  }

  /** The form with one text input set. */
  function WithText(f: PayrollForm, field: TextField, v: string): PayrollForm {
    match field
    case EmployeeIdInput => f.(employeeId := v)
    case EmployeeNameInput => f.(employeeName := v)
    case DepartmentInput => f.(department := v)
    case StatusInput => f.(status := v)
    case PeriodStartInput => f.(payPeriodStart := v)
    case PeriodEndInput => f.(payPeriodEnd := v)
  }

  /** The form with one amount input set. */
  function WithAmount(f: PayrollForm, field: AmountField, v: Option<Cents>): PayrollForm {
    match field
    case BaseSalaryInput => f.(baseSalary := v)
    case OvertimeInput => f.(overtime := v)
    case BonusInput => f.(bonus := v)
    case TaxInput => f.(taxWithholding := v)
    case HealthInput => f.(healthInsurance := v)
    case RetirementInput => f.(retirement401k := v)
  }

  /** A text edit never touches an amount, so it keeps the derived amounts in agreement. */
  lemma TextChangeKeepsDerived(f: PayrollForm, field: TextField, v: string)
    requires Derived(f)
    ensures Derived(WithText(f, field, v))
    ensures WithText(f, field, v).grossPay == f.grossPay
    ensures WithText(f, field, v).netPay == f.netPay
  {
  }

  /** The worked example: 5000 + 200 + 100 gross, 800 + 150 + 250 deducted, 4100 net. */
  lemma WorkedExample(f: PayrollForm)
    requires Derived(f)
    requires f.baseSalary == Some(500000) && f.overtime == Some(20000) && f.bonus == Some(10000)
    requires f.taxWithholding == Some(80000) && f.healthInsurance == Some(15000) && f.retirement401k == Some(25000)
    ensures f.grossPay == Some(530000) && f.totalDeductions == Some(120000) && f.netPay == Some(410000)
  {
  }

  // ---------------------------------------------------------------- codes and submit

  /** generatePayrollId: "PR" and the largest suffix plus one, padded to four digits. */
  function GeneratePayrollId(records: seq<PayrollRecord>): (code: string)
    ensures StartsWith(code, Prefix) && |code| >= |Prefix| + Width
    ensures forall i :: 0 <= i < |records| ==> records[i].payrollId != Some(code)
  {
    var codes := Seqs.Map(records, (r: PayrollRecord) => r.payrollId);
    Codes.NextCodeIsNew(codes, Prefix, Width);
    Codes.NextCode(codes, Prefix, Width)
  }

  lemma CodeForOne()
    ensures Codes.CodeFor(1, Prefix, Width) == "PR0001"
  {
    assert DigitChar(1) == '1';
    assert Decimal(1) == "1";
    ShortZeroRuns();
    assert PadStart("1", 4, '0') == "000" + "1" == "0001";
    assert Codes.CodeFor(1, Prefix, Width) == "PR" + "0001";
  }

  /** With no records the first code is "PR0001". */
  lemma FirstPayrollId()
    ensures GeneratePayrollId([]) == "PR0001"
  {
    var codes := Seqs.Map([], (r: PayrollRecord) => r.payrollId);
    assert codes == [];
    assert Codes.MaxSuffix(codes, Prefix) == 0;
    CodeForOne();
  }

  /** The submit guard: employee id, employee name or base salary is blank. */
  predicate MissingRequired(f: PayrollForm) {
    f.employeeId == "" || f.employeeName == "" || f.baseSalary.None?
  }

  /**
   * Blanking employee id, employee name or base salary trips the guard, and
   * only those three inputs decide it.
   */
  lemma RequiredGuard(f: PayrollForm, g: PayrollForm)
    ensures MissingRequired(f.(employeeId := "")) && MissingRequired(f.(employeeName := ""))
    ensures MissingRequired(f.(baseSalary := None))
    ensures f.employeeId == g.employeeId && f.employeeName == g.employeeName && f.baseSalary == g.baseSalary ==>
              (MissingRequired(f) <==> MissingRequired(g))
  {
  }

  /** `x ? x.toString() : null` for a date input. */
  function DateOrNull(s: string): (r: Option<string>)
    ensures r.None? <==> s == ""
    ensures r.Some? ==> r.value == s
  {
    if s == "" then None else Some(s)
  }

  /**
   * The submit body: a blank payroll code is replaced by a generated one that
   * no listed record holds, a typed one is kept; blank amounts become 0 and
   * the derived amounts are sent as the form shows them.
   */
  function SubmitPayload(f: PayrollForm, records: seq<PayrollRecord>): (p: PayrollPayload)
    ensures f.payrollId != "" ==> p.payrollId == f.payrollId
    ensures f.payrollId == "" ==> p.payrollId == GeneratePayrollId(records)
    ensures f.payrollId == "" ==>
              StartsWith(p.payrollId, Prefix) &&
              forall i :: 0 <= i < |records| ==> records[i].payrollId != Some(p.payrollId)
    ensures p.employeeId == f.employeeId && p.employeeName == f.employeeName
    ensures p.department == f.department && p.status == f.status
    ensures p.payPeriodStart == DateOrNull(f.payPeriodStart) && p.payPeriodEnd == DateOrNull(f.payPeriodEnd)
    ensures p.payDate == DateOrNull(f.payDate)
    ensures p.baseSalary == Amount(f.baseSalary) && p.overtime == Amount(f.overtime) && p.bonus == Amount(f.bonus)
    ensures p.taxWithholding == Amount(f.taxWithholding) && p.healthInsurance == Amount(f.healthInsurance)
    ensures p.retirement401k == Amount(f.retirement401k)
    ensures p.grossPay == Amount(f.grossPay) && p.totalDeductions == Amount(f.totalDeductions)
    ensures p.netPay == Amount(f.netPay)
  {
    PayrollPayload(
      if f.payrollId != "" then f.payrollId else GeneratePayrollId(records),
      f.employeeId, f.employeeName, f.department,
      DateOrNull(f.payPeriodStart), DateOrNull(f.payPeriodEnd),
      Amount(f.baseSalary), Amount(f.overtime), Amount(f.bonus),
      Amount(f.taxWithholding), Amount(f.healthInsurance), Amount(f.retirement401k),
      Amount(f.grossPay), Amount(f.totalDeductions), Amount(f.netPay),
      f.status, DateOrNull(f.payDate))
  }

  /** The request of a submit: a PUT to the form's stored key when editing, else a POST. */
  function Request(f: PayrollForm, records: seq<PayrollRecord>, modal: ModalType): (r: SubmitRequest)
    ensures r.verb == Put <==> modal == Edit
    ensures r.verb == Put ==> r.path == Some(f.id)
    ensures r.verb == Post ==> r.path.None?
    ensures r.body == SubmitPayload(f, records)
  {
    if modal == Edit then SubmitRequest(Put, Some(f.id), SubmitPayload(f, records))
    else SubmitRequest(Post, None, SubmitPayload(f, records))
  }

  /** The opening of a submit error: only an edit says "updating". */
  function ErrorPrefix(modal: ModalType): string {
    if modal == Edit then "Error updating payroll: " else "Error adding payroll: "
  }

  /** `Failed to ${modalType} payroll record`, thrown when the server refuses a submit. */
  function RefusedText(modal: ModalType): string {
    match modal
    case Add => "Failed to add payroll record"
    case Edit => "Failed to edit payroll record"
    case View => "Failed to view payroll record"
  }

  /**
   * The error text a failed submit leaves behind: a refused request names the
   * dialog's mode, a thrown error passes its message on; a submit from the
   * view dialog is reported as "adding".
   */
  function SubmitError(modal: ModalType, reply: Reply): (msg: string)
    requires !reply.Ok?
    ensures reply.NotOk? && modal == Add ==> msg == "Error adding payroll: " + "Failed to add payroll record"
    ensures reply.NotOk? && modal == Edit ==> msg == "Error updating payroll: " + "Failed to edit payroll record"
    ensures reply.NotOk? && modal == View ==> msg == "Error adding payroll: " + "Failed to view payroll record"
    ensures reply.Thrown? && modal == Edit ==> msg == "Error updating payroll: " + reply.message
    ensures reply.Thrown? && modal != Edit ==> msg == "Error adding payroll: " + reply.message
  {
    ErrorPrefix(modal) + (if reply.NotOk? then RefusedText(modal) else reply.message)
  }

  /** A successful fetch: every record with `id` set from a non-empty `_id`. */
  function Normalize(r: PayrollRecord): (n: PayrollRecord)
    ensures r.mongoId.Some? && r.mongoId.value != "" ==> n.id == r.mongoId
    ensures !(r.mongoId.Some? && r.mongoId.value != "") ==> n.id == r.id
    ensures n.(id := r.id) == r
  {
    r.(id := if r.mongoId.Some? && r.mongoId.value != "" then r.mongoId else r.id)
  }

  /** The error text after a fetch: kept on success, set from the failure otherwise. */
  function LoadError(previous: string, load: Load): (e: string)
    ensures load.Loaded? ==> e == previous
    ensures load.LoadNotOk? ==> e == "Error loading payroll: " + "Failed to fetch payroll records"
    ensures load.LoadThrown? ==> e == "Error loading payroll: " + load.message
  {
    match load
    case Loaded(_) => previous
    case LoadNotOk => "Error loading payroll: " + "Failed to fetch payroll records"
    case LoadThrown(m) => "Error loading payroll: " + m
  }

  function AfterLoad(records: seq<PayrollRecord>, load: Load): seq<PayrollRecord> {
    if load.Loaded? then Seqs.Map(load.records, Normalize) else records
  }

  /** The form filled from a record by the edit and view buttons; missing texts and amounts become blank. */
  function FormOf(r: PayrollRecord): PayrollForm {
    PayrollForm(
      r.id.GetOr(""), r.payrollId.GetOr(""), r.employeeId.GetOr(""), r.employeeName.GetOr(""),
      r.department.GetOr(""), r.payPeriodStart.GetOr(""), r.payPeriodEnd.GetOr(""),
      r.baseSalary, r.overtime, r.bonus, r.taxWithholding, r.healthInsurance, r.retirement401k,
      r.grossPay, r.totalDeductions, r.netPay, r.status.GetOr(""), r.payDate.GetOr(""))
  }

  /** Editing a listed record and submitting addresses the PUT to that record's key and keeps its code. */
  lemma EditTargetsOpenedRecord(r: PayrollRecord, records: seq<PayrollRecord>)
    requires r.payrollId.Some? && r.payrollId.value != ""
    ensures Request(FormOf(r), records, Edit).path == Some(r.id.GetOr(""))
    ensures Request(FormOf(r), records, Edit).body.payrollId == r.payrollId.value
  {
  }

  // ---------------------------------------------------------------- filter

  /** The filter over the search term and the status select. */
  predicate Matches(r: PayrollRecord, term: string, status: string) {
    (Mentions(r.employeeName, term) || Mentions(r.employeeId, term) || Mentions(r.payrollId, term)) &&
    (status == "" || status == "All Status" || r.status == Some(status))
  }

  /** filteredRecords: the matching records, in their original order. */
  function FilteredRecords(records: seq<PayrollRecord>, term: string, status: string): (r: seq<PayrollRecord>)
    ensures |r| <= |records|
    ensures forall x :: x in r <==> x in records && Matches(x, term, status)
  {
    Seqs.Filter(records, x => Matches(x, term, status))
  }

  /** A term that occurs in a record's payroll code finds it under "All Status". */
  lemma CodeSearchFinds(r: PayrollRecord, records: seq<PayrollRecord>, term: string)
    requires r in records && r.payrollId.Some? && Contains(Lower(r.payrollId.value), Lower(term))
    ensures r in FilteredRecords(records, term, "All Status")
  {
  }

  // ---------------------------------------------------------------- export

  const Headers: seq<string> :=
    ["Payroll ID", "Employee ID", "Employee Name", "Department", "Period Start", "Period End",
     "Base Salary", "Overtime", "Bonus", "Tax Withholding", "Health Insurance", "401k",
     "Gross Pay", "Total Deductions", "Net Pay", "Status", "Pay Date"]

  /** No header holds a ',' or a line break. */
  lemma HeadersPlain()
    ensures forall j :: 0 <= j < |Headers| ==> Csv.PlainText(Headers[j])
  {
    forall j | 0 <= j < |Headers|
      ensures Csv.PlainText(Headers[j])
    {
      var h := Headers[j];
      forall c | c in h
        ensures c != ',' && c != '\n'
      {
      }
    }
  }

  /** A cell for an amount that prints as '' when missing. */
  function AmountCell(o: Option<Cents>): string {
    if o.Some? then AmountText(o.value) else ""
  }

  /** No text field of the record holds a ',' or a line break. */
  predicate PlainTexts(r: PayrollRecord) {
    Csv.PlainText(r.payrollId.GetOr("")) && Csv.PlainText(r.employeeId.GetOr("")) &&
    Csv.PlainText(r.employeeName.GetOr("")) && Csv.PlainText(r.department.GetOr("")) &&
    Csv.PlainText(r.payPeriodStart.GetOr("")) && Csv.PlainText(r.payPeriodEnd.GetOr("")) &&
    Csv.PlainText(r.status.GetOr("")) && Csv.PlainText(r.payDate.GetOr(""))
  }

  /** The six leading text cells of a row: codes, name, department and period. */
  function TextCells(r: PayrollRecord): seq<string> {
    [r.payrollId.GetOr(""), r.employeeId.GetOr(""), r.employeeName.GetOr(""), r.department.GetOr(""),
     r.payPeriodStart.GetOr(""), r.payPeriodEnd.GetOr("")]
  }

  /**
   * The nine amounts of a row, from base salary to net pay; overtime, bonus
   * and the three deductions fall back to 0 when missing.
   */
  function AmountFields(r: PayrollRecord): seq<Option<Cents>> {
    [r.baseSalary, Some(Amount(r.overtime)), Some(Amount(r.bonus)), Some(Amount(r.taxWithholding)),
     Some(Amount(r.healthInsurance)), Some(Amount(r.retirement401k)), r.grossPay, r.totalDeductions, r.netPay]
  }

  /** The nine amount cells of a row. */
  function AmountCells(r: PayrollRecord): seq<string> {
    Seqs.Map(AmountFields(r), AmountCell)
  }

  /** One exported row of 17 cells, in the order of the headers. */
  function ExportRow(r: PayrollRecord): (row: seq<string>)
    ensures |row| == |Headers|
  {
    TextCells(r) + AmountCells(r) + [r.status.GetOr(""), r.payDate.GetOr("")]
  }

  lemma ZeroText()
    ensures AmountText(0) == "0"
  {
    assert Decimal(0) == [DigitChar(0)] == "0";
  }

  /**
   * Missing overtime, bonus, tax, health insurance or 401k print as "0"; a
   * missing department or pay date as ''.
   */
  lemma MissingCellsExport(r: PayrollRecord)
    ensures r.overtime.None? ==> ExportRow(r)[7] == "0"
    ensures r.bonus.None? ==> ExportRow(r)[8] == "0"
    ensures r.taxWithholding.None? ==> ExportRow(r)[9] == "0"
    ensures r.healthInsurance.None? ==> ExportRow(r)[10] == "0"
    ensures r.retirement401k.None? ==> ExportRow(r)[11] == "0"
    ensures r.department.None? ==> ExportRow(r)[3] == ""
    ensures r.payDate.None? ==> ExportRow(r)[16] == ""
  {
    var row, texts, fields := ExportRow(r), TextCells(r), AmountFields(r);
    assert row == texts + AmountCells(r) + [r.status.GetOr(""), r.payDate.GetOr("")];
    assert row[3] == r.department.GetOr("") && row[16] == r.payDate.GetOr("");
    forall j | 1 <= j <= 5
      ensures row[6 + j] == AmountCell(fields[j])
    {
      assert row[6 + j] == AmountCells(r)[j];
    }
    ZeroText();
  }

  lemma AmountCellPlain(o: Option<Cents>)
    ensures Csv.PlainText(AmountCell(o)) && Csv.PlainText(AmountText(Amount(o)))
  {
    AmountTextPlain(Amount(o));
    if o.Some? {
      AmountTextPlain(o.value);
    }
  }

  /** The amount cells never hold a ',' or a line break. */
  lemma AmountCellsPlain(r: PayrollRecord)
    ensures forall j :: 0 <= j < |AmountCells(r)| ==> Csv.PlainText(AmountCells(r)[j])
  {
    var cells := AmountCells(r);
    forall j | 0 <= j < |cells|
      ensures Csv.PlainText(cells[j])
    {
      AmountCellPlain(AmountFields(r)[j]);
    }
  }

  /** The amount cells never hold a separator, so a row is plain when its texts are. */
  lemma ExportRowPlain(r: PayrollRecord)
    requires PlainTexts(r)
    ensures forall j :: 0 <= j < |ExportRow(r)| ==> Csv.PlainText(ExportRow(r)[j])
  {
    var texts, amounts, tail := TextCells(r), AmountCells(r), [r.status.GetOr(""), r.payDate.GetOr("")];
    AmountCellsPlain(r);
    var row := ExportRow(r);
    assert row == texts + amounts + tail;
    forall j | 0 <= j < |row|
      ensures Csv.PlainText(row[j])
    {
      if j < |texts| {
        assert row[j] == texts[j];
      } else if j < |texts| + |amounts| {
        assert row[j] == amounts[j - |texts|];
      } else {
        assert row[j] == tail[j - |texts| - |amounts|];
      }
    }
  }

  /** The header row followed by one row per fetched record. */
  function ExportRows(records: seq<PayrollRecord>): (rows: seq<seq<string>>)
    ensures |rows| == |records| + 1 && rows[0] == Headers
    ensures forall i :: 0 <= i < |records| ==> rows[i + 1] == ExportRow(records[i])
  {
    [Headers] + Seqs.Map(records, ExportRow)
  }

  function ExportCsv(records: seq<PayrollRecord>): string {
    Csv.Encode(ExportRows(records))
  }

  /** Every row of the export is non-empty and free of separators when no text field holds one. */
  lemma ExportRowsPlain(records: seq<PayrollRecord>)
    requires forall i :: 0 <= i < |records| ==> PlainTexts(records[i])
    ensures Csv.Plain(ExportRows(records))
  {
    var rows := ExportRows(records);
    HeadersPlain();
    forall i | 0 <= i < |rows|
      ensures |rows[i]| >= 1 && forall j :: 0 <= j < |rows[i]| ==> Csv.PlainText(rows[i][j])
    {
      if i > 0 {
        assert rows[i] == ExportRow(records[i - 1]);
        ExportRowPlain(records[i - 1]);
      }
    }
  }

  /** When no text field holds a separator, the export reads back row for row and cell for cell. */
  lemma ExportReadsBack(records: seq<PayrollRecord>)
    requires forall i :: 0 <= i < |records| ==> PlainTexts(records[i])
    ensures Csv.Decode(ExportCsv(records)) == ExportRows(records)
  {
    ExportRowsPlain(records);
    Csv.DecodeEncode(ExportRows(records));
  }

  // ---------------------------------------------------------------- view

  /** The state of the payroll view that its handlers change. */
  class PayrollView {
    var records: seq<PayrollRecord>
    var form: PayrollForm
    var modal: ModalType
    var showModal: bool
    var selected: Option<PayrollRecord>
    var loading: bool
    var error: string

    constructor ()
      ensures records == [] && form == BlankForm && modal == Add && !showModal
      ensures selected.None? && !loading && error == ""
    {
      records := [];
      form := BlankForm;
      modal := Add;
      showModal := false;
      selected := None;
      loading := false;
      error := "";
    }

    /**
     * handleInputChange: the field is set; after an amount edit the gross pay,
     * deductions and net pay are recomputed from the six amounts. A text edit
     * changes that one field only.
     */
    method HandleInputChange(change: Change)
      modifies this
      ensures change.SetText? ==> form == WithText(old(form), change.textField, change.text)
      ensures change.SetAmount? ==>
                Derived(form) &&
                form.(grossPay := old(form).grossPay, totalDeductions := old(form).totalDeductions,
                      netPay := old(form).netPay) == WithAmount(old(form), change.amountField, change.amount)
      ensures records == old(records) && modal == old(modal) && showModal == old(showModal)
      ensures selected == old(selected) && loading == old(loading) && error == old(error)
    {
      var updated := form;
      match change {
        case SetText(field, v) =>
          updated := WithText(updated, field, v);
        case SetAmount(field, v) =>
          updated := WithAmount(updated, field, v);
          var gross := Amount(updated.baseSalary) + Amount(updated.overtime) + Amount(updated.bonus);
          var deductions := Amount(updated.taxWithholding) + Amount(updated.healthInsurance) + Amount(updated.retirement401k);
          updated := updated.(grossPay := Some(gross));
          updated := updated.(totalDeductions := Some(deductions));
          updated := updated.(netPay := Some(gross - deductions));
      }
      form := updated;
    }

    /** fetchPayrollRecords: the list replaced on success, the error set on failure (and not cleared on success). */
    method FetchRecords(load: Load)
      modifies this
      ensures records == AfterLoad(old(records), load) && !loading
      ensures error == LoadError(old(error), load)
      ensures load.Loaded? ==> error == old(error)
      ensures load.LoadNotOk? ==> error == "Error loading payroll: " + "Failed to fetch payroll records"
      ensures load.LoadThrown? ==> error == "Error loading payroll: " + load.message
      ensures form == old(form) && modal == old(modal) && showModal == old(showModal) && selected == old(selected)
    {
      loading := true;
      match load {
        case Loaded(data) =>
          records := Seqs.Map(data, Normalize);
        case LoadNotOk =>
          error := "Error loading payroll: " + "Failed to fetch payroll records";
        case LoadThrown(m) =>
          error := "Error loading payroll: " + m;
      }
      loading := false;
    }

    /** resetForm: the blank form, the modal closed, no record selected. */
    method ResetForm()
      modifies this
      ensures form == BlankForm && !showModal && selected.None?
      ensures records == old(records) && modal == old(modal) && loading == old(loading) && error == old(error)
    {
      form := BlankForm;
      showModal := false;
      selected := None;
    }

    /** openModal: "add" starts from a blank form; edit and view fill it from the record when one is given. */
    method OpenModal(kind: ModalType, record: Option<PayrollRecord>)
      modifies this
      ensures modal == kind && showModal
      ensures kind == Add ==> form == BlankForm && selected.None?
      ensures kind != Add ==> selected == record
      ensures kind != Add && record.Some? ==> form == FormOf(record.value)
      ensures kind != Add && record.None? ==> form == old(form)
      ensures records == old(records) && loading == old(loading) && error == old(error)
    {
      modal := kind;
      selected := record;
      if kind == Add {
        ResetForm();
      } else if record.Some? {
        form := FormOf(record.value);
      }
      showModal := true;
    }

    /**
     * handleSubmit. With a required field blank nothing is sent. Otherwise the
     * request is sent; on success the list is fetched again and the form reset,
     * on failure the error is set and the form kept.
     */
    method Submit(reply: Reply, reload: Load) returns (sent: Option<SubmitRequest>)
      modifies this
      ensures MissingRequired(old(form)) ==> sent.None? && unchanged(this)
      ensures !MissingRequired(old(form)) ==> sent == Some(Request(old(form), old(records), old(modal))) && !loading
      ensures !MissingRequired(old(form)) && reply.Ok? ==>
                records == AfterLoad(old(records), reload) && form == BlankForm && !showModal && selected.None? &&
                error == LoadError(old(error), reload)
      ensures !MissingRequired(old(form)) && !reply.Ok? ==>
                records == old(records) && form == old(form) && showModal == old(showModal) &&
                error == SubmitError(old(modal), reply) && selected == old(selected)
      ensures modal == old(modal)
    {
      if MissingRequired(form) {
        return None;
      }
      loading := true;
      var request := Request(form, records, modal);
      sent := Some(request);
      match reply {
        case Ok =>
          FetchRecords(reload);
          ResetForm();
        case NotOk =>
          error := SubmitError(modal, reply);
        case Thrown(_) =>
          error := SubmitError(modal, reply);
      }
      loading := false;
    }

    /** handleDelete: nothing without confirmation; otherwise the DELETE, then a fetch or the error. */
    method Delete(confirmed: bool, id: string, reply: Reply, reload: Load) returns (sent: Option<string>)
      modifies this
      ensures !confirmed ==> sent.None? && unchanged(this)
      ensures confirmed ==> sent == Some(id)
      ensures confirmed && reply.Ok? ==>
                records == AfterLoad(old(records), reload) && !loading && error == LoadError(old(error), reload)
      ensures confirmed && !reply.Ok? ==> loading == old(loading)
      ensures confirmed && reply.NotOk? ==> records == old(records) && error == "Error deleting: " + "Failed to delete"
      ensures confirmed && reply.Thrown? ==> records == old(records) && error == "Error deleting: " + reply.message
      ensures form == old(form) && modal == old(modal) && showModal == old(showModal) && selected == old(selected)
    {
      if !confirmed {
        return None;
      }
      sent := Some(id);
      match reply {
        case Ok =>
          FetchRecords(reload);
        case NotOk =>
          error := "Error deleting: " + "Failed to delete";
        case Thrown(m) =>
          error := "Error deleting: " + m;
      }
    }
  }
}
