/**
 * The payroll REST controller
 * (ems-backend/src/main/java/com/ems/controller/PayrollController.java):
 * create, read, update and delete over the payroll collection, with the
 * three derived amounts recomputed on every write. The collection is a map
 * from document id to the stored document.
 */
module PayrollController {
  import opened Wrappers
  import opened Money
  import Stores

  /** A stored payroll document; dates are kept as their ISO text. */
  datatype PayrollDoc = PayrollDoc(
    id: Option<string>,
    payrollId: Option<string>,
    employeeId: Option<string>,
    employeeName: Option<string>,
    department: Option<string>,
    payPeriodStart: Option<string>,
    payPeriodEnd: Option<string>,
    baseSalary: Cents,
    overtime: Cents,
    bonus: Cents,
    taxWithholding: Cents,
    healthInsurance: Cents,
    retirement401k: Cents,
    grossPay: Cents,
    totalDeductions: Cents,
    netPay: Cents,
    status: Option<string>,
    payDate: Option<string>)

  /** The three derived amounts agree with the six entered ones. */
  predicate Calculated(d: PayrollDoc) {
    d.grossPay == d.baseSalary + d.overtime + d.bonus
    && d.totalDeductions == d.taxWithholding + d.healthInsurance + d.retirement401k
    && d.netPay == d.grossPay - d.totalDeductions
  }

  /**
   * The document calculatePayroll leaves behind: the derived amounts
   * computed from the entered ones, whatever the client sent for them, and
   * every other field as it was.
   */
  function Recalculated(d: PayrollDoc): (r: PayrollDoc)
    ensures Calculated(r)
    ensures r.(grossPay := d.grossPay, totalDeductions := d.totalDeductions, netPay := d.netPay) == d
  {
    var gross := d.baseSalary + d.overtime + d.bonus;
    var deductions := d.taxWithholding + d.healthInsurance + d.retirement401k;
    d.(grossPay := gross, totalDeductions := deductions, netPay := gross - deductions)
  }

  /** A document whose derived amounts already agree is left as it is; so recalculating twice is recalculating once. */
  lemma RecalculatedFixesCalculated(d: PayrollDoc)
    ensures Calculated(d) <==> Recalculated(d) == d
    ensures Recalculated(Recalculated(d)) == Recalculated(d)
  {
  }

  /** The request body, a mutable entity with one setter per field. */
  class Payroll {
    var id: Option<string>
    var payrollId: Option<string>
    var employeeId: Option<string>
    var employeeName: Option<string>
    var department: Option<string>
    var payPeriodStart: Option<string>
    var payPeriodEnd: Option<string>
    var baseSalary: Cents
    var overtime: Cents
    var bonus: Cents
    var taxWithholding: Cents
    var healthInsurance: Cents
    var retirement401k: Cents
    var grossPay: Cents
    var totalDeductions: Cents
    var netPay: Cents
    var status: Option<string>
    var payDate: Option<string>

    /** The body as it arrives from the JSON request. */
    constructor(d: PayrollDoc)
      ensures Doc() == d
    {
      id, payrollId, employeeId, employeeName := d.id, d.payrollId, d.employeeId, d.employeeName;
      department, payPeriodStart, payPeriodEnd := d.department, d.payPeriodStart, d.payPeriodEnd;
      baseSalary, overtime, bonus := d.baseSalary, d.overtime, d.bonus;
      taxWithholding, healthInsurance, retirement401k := d.taxWithholding, d.healthInsurance, d.retirement401k;
      grossPay, totalDeductions, netPay := d.grossPay, d.totalDeductions, d.netPay;
      status, payDate := d.status, d.payDate;
    }

    /** The document that saving this entity writes. */
    function Doc(): PayrollDoc
      reads this
    {
      PayrollDoc(id, payrollId, employeeId, employeeName, department, payPeriodStart, payPeriodEnd,
        baseSalary, overtime, bonus, taxWithholding, healthInsurance, retirement401k,
        grossPay, totalDeductions, netPay, status, payDate)
    }
  }

  /** A response: 200 with a body, 404 with none, or 204 with none. */
  datatype Reply<T> = Ok(body: T) | NotFound | NoContent

  class Controller {
    /** The payroll collection, by document id. */
    var store: map<string, PayrollDoc>

    /** Every document is stored under its own id and has consistent derived amounts. */
    ghost predicate Valid()
      reads this
    {
      forall k :: k in store ==> store[k].id == Some(k) && Calculated(store[k])
    }

    constructor()
      ensures store == map[] && Valid()
    {
      store := map[];
    }

    /** calculatePayroll: sets the three derived amounts through the setters. */
    method CalculatePayroll(payroll: Payroll)
      modifies payroll
      ensures payroll.Doc() == Recalculated(old(payroll.Doc()))
    {
      var gross := payroll.baseSalary + payroll.overtime + payroll.bonus;
      var deductions := payroll.taxWithholding + payroll.healthInsurance + payroll.retirement401k;
      payroll.grossPay := gross;
      payroll.totalDeductions := deductions;
      payroll.netPay := gross - deductions;
    }

    /** getAllPayrolls. */
    method GetAll() returns (r: Reply<seq<PayrollDoc>>)
      ensures r.Ok? && |r.body| == |store|
      ensures forall d :: d in r.body <==> d in store.Values
    {
      var all := Stores.Values(store);
      r := Ok(all);
    }

    /** getPayrollById: the stored document, or not found. */
    method GetById(id: string) returns (r: Reply<PayrollDoc>)
      ensures id in store ==> r == Ok(store[id])
      ensures id !in store ==> r == NotFound
    {
      if id in store {
        r := Ok(store[id]);
      } else {
        r := NotFound;
      }
    }

    /**
     * createPayroll: the derived amounts are recomputed and the document is
     * saved, under its own id when it has one (replacing what was there) and
     * under the id the database generates (`freshId`) when it has none.
     */
    method Create(payroll: Payroll, freshId: string) returns (r: Reply<PayrollDoc>)
      requires Valid()
      modifies this, payroll
      ensures Valid()
      ensures var key := old(payroll.id).GetOr(freshId);
        store == old(store)[key := Recalculated(old(payroll.Doc())).(id := Some(key))] && r == Ok(store[key])
    {
      CalculatePayroll(payroll);
      if payroll.id.None? {
        payroll.id := Some(freshId);
      }
      var saved := payroll.Doc();
      store := store[payroll.id.value := saved];
      r := Ok(saved);
    }

    /**
     * updatePayroll: not found, and nothing stored, when the id is absent;
     * otherwise the body replaces the document with its id forced to the
     * path id and its derived amounts recomputed. No other document changes.
     */
    method Update(id: string, payroll: Payroll) returns (r: Reply<PayrollDoc>)
      requires Valid()
      modifies this, payroll
      ensures Valid()
      ensures id !in old(store) ==> r == NotFound && store == old(store)
      ensures id in old(store) ==>
        (store == old(store)[id := Recalculated(old(payroll.Doc())).(id := Some(id))] && r == Ok(store[id]))
    {
      if id !in store {
        r := NotFound;
        return;
      }
      payroll.id := Some(id);
      CalculatePayroll(payroll);
      var saved := payroll.Doc();
      store := store[id := saved];
      r := Ok(saved);
    }

    /** deletePayroll: not found when absent; otherwise exactly that document is removed (204). */
    method Delete(id: string) returns (r: Reply<()>)
      requires Valid()
      modifies this
      ensures Valid()
      ensures id !in old(store) ==> r == NotFound && store == old(store)
      ensures id in old(store) ==> r == NoContent && store == old(store) - {id}
    {
      if id !in store {
        r := NotFound;
        return;
      }
      store := store - {id};
      r := NoContent;
    }
  }
}
