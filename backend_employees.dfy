/**
 * The employee service (ems-backend/src/main/java/com/ems/service/EmployeeService.java):
 * list, add, read, update and delete over the employee collection, a map
 * from document id to the stored document.
 */
module EmployeeService {
  import opened Wrappers
  import opened Money
  import Stores

  /** A stored employee document; the join date is kept as its ISO text. */
  datatype EmployeeDoc = EmployeeDoc(
    id: Option<string>,
    employeeId: Option<string>,
    name: Option<string>,
    email: Option<string>,
    department: Option<string>,
    position: Option<string>,
    status: Option<string>,
    salary: Cents,
    joinDate: Option<string>,
    manager: Option<string>,
    phone: Option<string>)

  /**
   * The document updateEmployee saves: every one of the ten data fields,
   * the business `employeeId` included, taken from the update, and the
   * stored document's id kept.
   */
  function Updated(stored: EmployeeDoc, update: EmployeeDoc): (r: EmployeeDoc)
    ensures r.id == stored.id
    ensures r.(id := update.id) == update
  {
    var e := stored;
    var e := e.(employeeId := update.employeeId);
    var e := e.(name := update.name);
    var e := e.(email := update.email);
    var e := e.(department := update.department);
    var e := e.(position := update.position);
    var e := e.(status := update.status);
    var e := e.(salary := update.salary);
    var e := e.(joinDate := update.joinDate);
    var e := e.(manager := update.manager);
    e.(phone := update.phone)
  }

  /** Applying the same update twice stores the same document as applying it once. */
  lemma UpdateIdempotent(stored: EmployeeDoc, update: EmployeeDoc)
    ensures Updated(Updated(stored, update), update) == Updated(stored, update)
  {
  }

  class Service {
    /** The employee collection, by document id. */
    var store: map<string, EmployeeDoc>

    /** Every document is stored under its own id. */
    ghost predicate Valid()
      reads this
    {
      forall k :: k in store ==> store[k].id == Some(k)
    }

    constructor()
      ensures store == map[] && Valid()
    {
      store := map[];
    }

    /** getAllEmployees: every stored document. */
    method GetAll() returns (all: seq<EmployeeDoc>)
      ensures |all| == |store|
      ensures forall e :: e in all <==> e in store.Values
    {
      all := Stores.Values(store);
    }

    /**
     * addEmployee: saved under its own id when it has one (replacing what was
     * there), otherwise under the id the database generates (`freshId`).
     */
    method Add(employee: EmployeeDoc, freshId: string) returns (saved: EmployeeDoc)
      requires Valid()
      modifies this
      ensures Valid()
      ensures saved == employee.(id := Some(employee.id.GetOr(freshId)))
      ensures store == old(store)[saved.id.value := saved]
    {
      var key := if employee.id.Some? then employee.id.value else freshId;
      saved := employee.(id := Some(key));
      store := store[key := saved];
    }

    /** getEmployeeById: the stored document, or null (None). */
    method Get(id: string) returns (r: Option<EmployeeDoc>)
      ensures id in store ==> r == Some(store[id])
      ensures id !in store ==> r.None?
    {
      if id in store {
        r := Some(store[id]);
      } else {
        r := None;
      }
    }

    /**
     * updateEmployee: null (None) and nothing changed when the id is absent;
     * otherwise the stored document is overwritten field by field and saved
     * under the same id. No other document changes.
     */
    method Update(id: string, update: EmployeeDoc) returns (r: Option<EmployeeDoc>)
      requires Valid()
      modifies this
      ensures Valid()
      ensures id !in old(store) ==> r.None? && store == old(store)
      ensures id in old(store) ==> r == Some(Updated(old(store)[id], update)) && store == old(store)[id := r.value]
    {
      if id !in store {
        r := None;
        return;
      }
      var e := store[id];
      e := e.(employeeId := update.employeeId);
      e := e.(name := update.name);
      e := e.(email := update.email);
      e := e.(department := update.department);
      e := e.(position := update.position);
      e := e.(status := update.status);
      e := e.(salary := update.salary);
      e := e.(joinDate := update.joinDate);
      e := e.(manager := update.manager);
      e := e.(phone := update.phone);
      store := store[id := e];
      r := Some(e);
    }

    /** deleteEmployee: afterwards no document has that id; an absent id is no error. */
    method Delete(id: string)
      requires Valid()
      modifies this
      ensures Valid()
      ensures store == old(store) - {id}
    {
      store := store - {id};
    }
  }
}
