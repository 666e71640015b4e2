/** `src/redux/slices/employeeSlice.ts`: the employee list, the four request thunks and the
    reducers that apply their outcomes. */
module EmployeeSlice {
  import opened Wrappers
  import opened Sequences
  import opened Text

  /** A record of the `/employees` collection; `id` is assigned by the data service. */
  datatype Employee = Employee(id: string, firstName: string, lastName: string, age: int,
                               gender: string, role: string, yearsOfExperience: int,
                               salary: int, address: string)

  /** The request body of an add or an update: every field but the id. */
  datatype EmployeeData = EmployeeData(firstName: string, lastName: string, age: int,
                                       gender: string, role: string, yearsOfExperience: int,
                                       salary: int, address: string)

  datatype EmployeeRequest =
    | GetEmployees
    | PostEmployee(body: EmployeeData)
    | PutEmployee(id: string, body: EmployeeData)
    | DeleteEmployeeById(id: string)

  const FetchFailed: string := "Failed to fetch employees"
  const AddFailed: string := "Failed to add employee"
  const UpdateFailed: string := "Failed to update employee"
  const DeleteFailed: string := "Failed to delete employee"
  /** Used by `updateEmployee.rejected` when the action carries no message. */
  const EditFailed: string := "Error Editing Employee!"

  function IdIs(id: string): Employee -> bool
  {
    (e: Employee) => e.id == id
  }

  function IdIsNot(id: string): Employee -> bool
  {
    (e: Employee) => e.id != id
  }

  /** A request that resolves to its decoded body when the response is ok, and otherwise
      throws `failure`. */
  function Settle<P>(response: Option<P>, failure: string): Result<P>
  {
    if response.Some? then Ok(response.value) else Err(failure)
  }

  /** `fetchEmployees`: GET /employees. */
  function FetchEmployees(response: Option<seq<Employee>>): (run: ThunkRun<seq<Employee>, EmployeeRequest>)
    ensures run.requests == [GetEmployees]
    ensures run.result == if response.Some? then Ok(response.value) else Err(FetchFailed)
  {
    ThunkRun(Settle(response, FetchFailed), [GetEmployees])
  }

  /** `addEmployee`: POST /employees with the data; the payload is the created record. */
  function AddEmployee(data: EmployeeData, response: Option<Employee>): (run: ThunkRun<Employee, EmployeeRequest>)
    ensures run.requests == [PostEmployee(data)]
    ensures run.result == if response.Some? then Ok(response.value) else Err(AddFailed)
  {
    ThunkRun(Settle(response, AddFailed), [PostEmployee(data)])
  }

  /** `updateEmployee`: PUT /employees/{id} with the data; the payload is the server's record. */
  function UpdateEmployee(id: string, data: EmployeeData, response: Option<Employee>): (run: ThunkRun<Employee, EmployeeRequest>)
    ensures run.requests == [PutEmployee(id, data)]
    ensures run.result == if response.Some? then Ok(response.value) else Err(UpdateFailed)
  {
    ThunkRun(Settle(response, UpdateFailed), [PutEmployee(id, data)])
  }

  /** `deleteEmployee`: DELETE /employees/{id}; the payload is the id passed in, not the body. */
  function DeleteEmployee(id: string, ok: bool): (run: ThunkRun<string, EmployeeRequest>)
    ensures run.requests == [DeleteEmployeeById(id)]
    ensures run.result.Ok? <==> ok
    ensures run.result.Ok? ==> run.result.value == id
    ensures run.result.Err? ==> run.result.message == DeleteFailed
  {
    ThunkRun(if ok then Ok(id) else Err(DeleteFailed), [DeleteEmployeeById(id)])
  }

  /** `findIndex` by the payload's id, then assignment at that index: only the first record
      with that id is replaced, in place; with no such record the list is unchanged. */
  function ReplaceFirstById(employees: seq<Employee>, updated: Employee): (r: seq<Employee>)
    ensures |r| == |employees|
    ensures forall j :: 0 <= j < |employees| ==>
      r[j] == if IsFirst(employees, IdIs(updated.id), j) then updated else employees[j]
    ensures (forall j :: 0 <= j < |employees| ==> employees[j].id != updated.id) ==> r == employees
  {
    var index := FirstIndex(employees, IdIs(updated.id));
    if index == -1 then employees else employees[index := updated]
  }

  /** `filter(emp => emp.id !== id)`: every record with that id is removed, every other
      occurrence is kept, in order; an absent id leaves the list unchanged. */
  function RemoveById(employees: seq<Employee>, id: string): (r: seq<Employee>)
    ensures IsSubsequence(r, employees)
    ensures forall j :: 0 <= j < |r| ==> r[j].id != id
    ensures forall e :: multiset(r)[e] == if e.id == id then 0 else multiset(employees)[e]
    ensures (forall j :: 0 <= j < |employees| ==> employees[j].id != id) ==> r == employees
  {
    FilterIsSubsequence(employees, IdIsNot(id));
    FilterCounts(employees, IdIsNot(id));
    FilterKeepsAll(employees, IdIsNot(id));
    Filter(employees, IdIsNot(id))
  }

  /** The observable fields of the slice. */
  datatype EmployeeState = EmployeeState(employees: seq<Employee>, selectedEmployee: Option<Employee>,
                                         loading: bool, error: Option<string>, searchQuery: string)

  const InitialState: EmployeeState := EmployeeState([], None, false, None, "")

  /** The slice's draft state. */
  class EmployeeStore {
    var employees: seq<Employee>
    var selectedEmployee: Option<Employee>
    var loading: bool
    var error: Option<string>
    var searchQuery: string

    function State(): EmployeeState
      reads this
    {
      EmployeeState(employees, selectedEmployee, loading, error, searchQuery)
    }

    /** `initialState`. */
    constructor ()
      ensures State() == InitialState
    {
      employees := [];
      selectedEmployee := None;
      loading := false;
      error := None;
      searchQuery := "";
    }

    /** `setSearchQuery`: only the query changes. */
    method SetSearchQuery(query: string)
      modifies this
      ensures State() == old(State()).(searchQuery := query)
    {
      searchQuery := query;
    }

    /** `setSelectedEmployee`: only the selection changes. */
    method SetSelectedEmployee(employee: Option<Employee>)
      modifies this
      ensures State() == old(State()).(selectedEmployee := employee)
    {
      selectedEmployee := employee;
    }

    /** `clearEmployeeError`: only the error changes. */
    method ClearEmployeeError()
      modifies this
      ensures State() == old(State()).(error := None)
    {
      error := None;
    }

    /** The `pending` case of `fetchEmployees`, `addEmployee` and `updateEmployee`. */
    method Pending()
      modifies this
      ensures State() == old(State()).(loading := true, error := None)
    {
      loading := true;
      error := None;
    }

    /** `fetchEmployees.rejected`: the list and the selection are kept. */
    method FetchRejected(message: Option<string>)
      modifies this
      ensures State() == old(State()).(loading := false, error := Some(OrElse(message, "Failed to fetch employees")))
    {
      loading := false;
      error := Some(OrElse(message, FetchFailed));
    }

    /** `addEmployee.rejected`: the list and the selection are kept. */
    method AddRejected(message: Option<string>)
      modifies this
      ensures State() == old(State()).(loading := false, error := Some(OrElse(message, "Failed to add employee")))
    {
      loading := false;
      error := Some(OrElse(message, AddFailed));
    }

    /** `updateEmployee.rejected`: the list and the selection are kept; its fallback is not the
        message the thunk throws. */
    method UpdateRejected(message: Option<string>)
      modifies this
      ensures State() == old(State()).(loading := false, error := Some(OrElse(message, "Error Editing Employee!")))
    {
      loading := false;
      error := Some(OrElse(message, EditFailed));
    }

    /** `fetchEmployees.fulfilled`: the list is replaced wholesale. */
    method FetchFulfilled(payload: seq<Employee>)
      modifies this
      ensures State() == old(State()).(loading := false, employees := payload)
    {
      loading := false;
      employees := payload;
    }

    /** `addEmployee.fulfilled`: the record is pushed at the end. */
    method AddFulfilled(payload: Employee)
      modifies this
      ensures State() == old(State()).(loading := false, employees := old(employees) + [payload])
      ensures |employees| == |old(employees)| + 1
      ensures employees[..|old(employees)|] == old(employees) && employees[|employees| - 1] == payload
    {
      loading := false;
      employees := employees + [payload];
    }

    /** `updateEmployee.fulfilled`: the first record with the payload's id is replaced in place
        and the selection is cleared, whether or not a record matched. */
    method UpdateFulfilled(payload: Employee)
      modifies this
      ensures State() == old(State()).(loading := false, selectedEmployee := None,
                                       employees := ReplaceFirstById(old(employees), payload))
    {
      loading := false;
      selectedEmployee := None;
      var index := FirstIndex(employees, IdIs(payload.id));
      if index != -1 {
        employees := employees[index := payload];
      }
    }

    /** `deleteEmployee.fulfilled`: every record with the id is removed; loading and error are
        not touched (the thunk has no pending or rejected case). */
    method DeleteFulfilled(id: string)
      modifies this
      ensures State() == old(State()).(employees := RemoveById(old(employees), id))
    {
      employees := Filter(employees, IdIsNot(id));
    }

    /** Dispatching `fetchEmployees`. */
    method DispatchFetch(response: Option<seq<Employee>>) returns (run: ThunkRun<seq<Employee>, EmployeeRequest>)
      modifies this
      ensures run == FetchEmployees(response)
      ensures response.Some? ==>
        State() == old(State()).(employees := response.value, loading := false, error := None)
      ensures response.None? ==>
        State() == old(State()).(loading := false, error := Some(FetchFailed))
    {
      Pending();
      run := FetchEmployees(response);
      if run.result.Ok? {
        FetchFulfilled(run.result.value);
      } else {
        FetchRejected(Some(run.result.message));
      }
    }

    /** Dispatching `addEmployee`: on success exactly one record, the server's, is appended. */
    method DispatchAdd(data: EmployeeData, response: Option<Employee>) returns (run: ThunkRun<Employee, EmployeeRequest>)
      modifies this
      ensures run == AddEmployee(data, response)
      ensures response.Some? ==>
        State() == old(State()).(employees := old(employees) + [response.value], loading := false, error := None)
      ensures response.None? ==>
        State() == old(State()).(loading := false, error := Some(AddFailed))
    {
      Pending();
      run := AddEmployee(data, response);
      if run.result.Ok? {
        AddFulfilled(run.result.value);
      } else {
        AddRejected(Some(run.result.message));
      }
    }

    /** Dispatching `updateEmployee`: the replacement is located by the id of the server's
        record, not by the id that was sent. */
    method DispatchUpdate(id: string, data: EmployeeData, response: Option<Employee>) returns (run: ThunkRun<Employee, EmployeeRequest>)
      modifies this
      ensures run == UpdateEmployee(id, data, response)
      ensures response.Some? ==>
        State() == old(State()).(employees := ReplaceFirstById(old(employees), response.value),
                                 selectedEmployee := None, loading := false, error := None)
      ensures response.None? ==>
        State() == old(State()).(loading := false, error := Some(UpdateFailed))
    {
      Pending();
      run := UpdateEmployee(id, data, response);
      if run.result.Ok? {
        UpdateFulfilled(run.result.value);
      } else {
        UpdateRejected(Some(run.result.message));
      }
    }

    /** Dispatching `deleteEmployee`: a failed delete reaches no reducer, so nothing changes. */
    method DispatchDelete(id: string, ok: bool) returns (run: ThunkRun<string, EmployeeRequest>)
      modifies this
      ensures run == DeleteEmployee(id, ok)
      ensures ok ==> State() == old(State()).(employees := RemoveById(old(employees), id))
      ensures !ok ==> State() == old(State())
    {
      run := DeleteEmployee(id, ok);
      if run.result.Ok? {
        DeleteFulfilled(run.result.value);
      }
    }
  }
}
