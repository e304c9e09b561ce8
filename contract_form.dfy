/** The create / edit form of a contract. The form holds a name, an ordered
    list of tasks and a list of tags; an edit form is given the contract it
    edits and starts out with that contract's fields. Submitting checks the
    tasks on the client side and then asks the service to update the given
    contract or to create a new one; only a create that succeeded clears
    the form. */
module ContractForm {
  import opened Results
  import opened Schema
  import Text

  /** The contract an edit form is given. */
  datatype ExistingContract = ExistingContract(id: string, name: string, tasks: seq<Task>, tags: seq<string>)

  /** `handleTaskChange(index, field, value)`: the field and its new value. */
  datatype TaskEdit = SetTaskName(name: string) | SetTaskAmount(amount: real)

  // ---------------------------------------------------------------------
  // The task list operations
  // ---------------------------------------------------------------------

  /** `{ ...tasks[index], [field]: value }` written into a copy of the list:
      the one field of the one task changes, nothing else does. */
  function WithTaskEdit(tasks: seq<Task>, index: nat, edit: TaskEdit): (r: seq<Task>)
    requires index < |tasks|
    ensures |r| == |tasks|
    ensures forall k :: 0 <= k < |r| && k != index ==> r[k] == tasks[k]
    ensures edit.SetTaskName? ==> r[index].name == edit.name && r[index].amount == tasks[index].amount
    ensures edit.SetTaskAmount? ==> r[index].amount == edit.amount && r[index].name == tasks[index].name
  {
    var t := tasks[index];
    tasks[index := match edit
                   case SetTaskName(n) => t.(name := n)
                   case SetTaskAmount(a) => t.(amount := a)]
  }

  /** The task `addTask` appends. */
  const BlankTask: Task := Task("", 0.0)

  /** `[...tasks, { name: '', amount: 0 }]`. */
  function WithNewTask(tasks: seq<Task>): (r: seq<Task>)
    ensures |r| == |tasks| + 1
    ensures r[..|tasks|] == tasks && r[|tasks|] == BlankTask
  {
    tasks + [BlankTask]
  }

  /** `tasks.filter((_, i) => i !== index)`, walking the list with `index`
      counting down to the position to drop. */
  function WithoutTask(tasks: seq<Task>, index: int): (r: seq<Task>)
    ensures 0 <= index < |tasks| ==> r == tasks[..index] + tasks[index + 1..]
    ensures !(0 <= index < |tasks|) ==> r == tasks
  {
    if tasks == [] then []
    else
      var rest := WithoutTask(tasks[1..], index - 1);
      if index == 0 then
        assert tasks[..0] + tasks[1..] == tasks[1..];
        rest
      else
        assert index > 0 && index < |tasks| ==> tasks[..index] == [tasks[0]] + tasks[1..][..index - 1];
        assert index > 0 && index < |tasks| ==> tasks[index + 1..] == tasks[1..][index..];
        assert [tasks[0]] + tasks[1..] == tasks;
        [tasks[0]] + rest
  }

  /** Removing a task keeps every other task, in order, and shifts the
      later ones down by one. */
  lemma RemovedTaskShiftsTheRest(tasks: seq<Task>, index: nat)
    requires index < |tasks|
    ensures |WithoutTask(tasks, index)| == |tasks| - 1
    ensures forall k :: 0 <= k < index ==> WithoutTask(tasks, index)[k] == tasks[k]
    ensures forall k :: index <= k < |tasks| - 1 ==> WithoutTask(tasks, index)[k] == tasks[k + 1]
  {
  }

  /** Removing the task just added gives the list back. */
  lemma RemoveUndoesAdd(tasks: seq<Task>)
    ensures WithoutTask(WithNewTask(tasks), |tasks|) == tasks
  {
    assert WithNewTask(tasks)[..|tasks|] == tasks;
  }

  // ---------------------------------------------------------------------
  // The submit checks
  // ---------------------------------------------------------------------

  /** Why the form refuses to submit, and the alert it shows. */
  datatype Rejection = NoTasks | EmptyTaskName | NonPositiveAmount
  {
    function Message(): string
    {
      match this
      case NoTasks => "Please add at least one task."
      case EmptyTaskName => "Task name cannot be empty."
      case NonPositiveAmount => "Task amount must be greater than zero."
    }
  }

  /** A task passes both checks: its name is not whitespace only (its
      trimmed name is not empty) and its amount is positive. */
  predicate TaskIsValid(t: Task)
  {
    !Text.IsBlank(t.name) && t.amount > 0.0
  }

  /** The first check a task list fails, looking at the tasks in order and,
      for each task, at the name before the amount. */
  function TaskRejection(tasks: seq<Task>): (r: Option<Rejection>)
    ensures r != Some(NoTasks)
    ensures r.None? <==> forall k :: 0 <= k < |tasks| ==> TaskIsValid(tasks[k])
  {
    if tasks == [] then None
    else if Text.IsBlank(tasks[0].name) then Some(EmptyTaskName)
    else if tasks[0].amount <= 0.0 then Some(NonPositiveAmount)
    else
      var rest := TaskRejection(tasks[1..]);
      assert forall k :: 1 <= k < |tasks| ==> tasks[k] == tasks[1..][k - 1];
      rest
  }

  /** A rejection names the first failing task: every task before it passes
      both checks, and it fails the name check (a blank name) or passes the
      name check and fails the amount check. */
  lemma {:induction false} RejectedAtFirstFailingTask(tasks: seq<Task>) returns (i: nat)
    requires TaskRejection(tasks).Some?
    ensures i < |tasks| && forall k :: 0 <= k < i ==> TaskIsValid(tasks[k])
    ensures TaskRejection(tasks) == Some(EmptyTaskName) <==> Text.IsBlank(tasks[i].name)
    ensures TaskRejection(tasks) == Some(NonPositiveAmount) <==> !Text.IsBlank(tasks[i].name) && tasks[i].amount <= 0.0
  {
    if Text.IsBlank(tasks[0].name) || tasks[0].amount <= 0.0 {
      i := 0;
    } else {
      var j := RejectedAtFirstFailingTask(tasks[1..]);
      i := j + 1;
      forall k | 0 <= k < i ensures TaskIsValid(tasks[k]) {
        if k > 0 {
          assert tasks[k] == tasks[1..][k - 1];
        }
      }
    }
  }

  /** The first check the form's tasks fail, if any. */
  function Rejected(tasks: seq<Task>): (r: Option<Rejection>)
    ensures r == Some(NoTasks) <==> tasks == []
    ensures r.None? <==> tasks != [] && forall k :: 0 <= k < |tasks| ==> TaskIsValid(tasks[k])
  {
    if tasks == [] then Some(NoTasks) else TaskRejection(tasks)
  }

  /** Tasks that pass the checks have a positive total. */
  lemma AcceptedTasksHavePositiveTotal(tasks: seq<Task>)
    requires Rejected(tasks).None?
    ensures Sum(tasks) > 0.0
  {
    PositiveAmountsGivePositiveTotal(tasks);
  }

  /** The service call a submit makes. */
  datatype ServiceCall = CreateCall(data: Contract) | UpdateCall(contractId: string, data: Contract)

  /** What a submit does: show an alert and stop, or make one service call. */
  datatype SubmitOutcome = Alerted(message: string) | Called(call: ServiceCall)

  // ---------------------------------------------------------------------
  // The form
  // ---------------------------------------------------------------------

  class Form {
    /** The `contract` prop: the contract being edited, if any. */
    var contract: Option<ExistingContract>
    var name: string
    var tasks: seq<Task>
    var tags: seq<string>

    /** Mounting with the given prop: empty fields, then the pre-fill effect
        copies a given contract into them. */
    constructor (contract: Option<ExistingContract>)
      ensures this.contract == contract
      ensures contract.Some? ==> name == contract.value.name && tasks == contract.value.tasks && tags == contract.value.tags
      ensures contract.None? ==> name == "" && tasks == [] && tags == []
    {
      this.contract := contract;
      name, tasks, tags := "", [], [];
      if contract.Some? {
        name, tasks, tags := contract.value.name, contract.value.tasks, contract.value.tags;
      }
    }

    /** A new `contract` prop: the pre-fill effect copies a given contract
        into the fields; when the prop becomes null the fields stay as they are. */
    method ReceiveContract(c: Option<ExistingContract>)
      modifies this
      ensures contract == c
      ensures c.Some? ==> name == c.value.name && tasks == c.value.tasks && tags == c.value.tags
      ensures c.None? ==> name == old(name) && tasks == old(tasks) && tags == old(tags)
    {
      contract := c;
      if c.Some? {
        name, tasks, tags := c.value.name, c.value.tasks, c.value.tags;
      }
    }

    /** Typing in the name field. */
    method SetName(value: string)
      modifies this
      ensures name == value
      ensures contract == old(contract) && tasks == old(tasks) && tags == old(tags)
    {
      name := value;
    }

    /** The tag selector: the selection replaces the tags, in its order. */
    method SetTags(values: seq<string>)
      modifies this
      ensures tags == values
      ensures contract == old(contract) && name == old(name) && tasks == old(tasks)
    {
      tags := values;
    }

    /** `handleTaskChange(index, field, value)` on a rendered task row. */
    method HandleTaskChange(index: nat, edit: TaskEdit)
      requires index < |tasks|
      modifies this
      ensures tasks == WithTaskEdit(old(tasks), index, edit)
      ensures contract == old(contract) && name == old(name) && tags == old(tags)
    {
      tasks := WithTaskEdit(tasks, index, edit);
    }

    /** `addTask`. */
    method AddTask()
      modifies this
      ensures tasks == WithNewTask(old(tasks))
      ensures contract == old(contract) && name == old(name) && tags == old(tags)
    {
      tasks := WithNewTask(tasks);
    }

    /** `removeTask(index)`. */
    method RemoveTask(index: int)
      modifies this
      ensures tasks == WithoutTask(old(tasks), index)
      ensures contract == old(contract) && name == old(name) && tags == old(tags)
    {
      tasks := WithoutTask(tasks, index);
    }

    /** The submit button's caption. */
    function SubmitLabel(): (r: string)
      reads this
      ensures r == "Update Contract" <==> contract.Some?
      ensures r == "Create Contract" <==> contract.None?
    {
      if contract.Some? then "Update Contract" else "Create Contract"
    }

    /** `handleSubmit`: refuse an empty task list, then check the tasks in
        order, stopping at the first failure; otherwise update the given
        contract, or create one, with the name, tasks and tags exactly as
        held (the name is not trimmed). A submit changes no field of the
        form; the reset after a create happens when the call succeeds. */
    method HandleSubmit() returns (outcome: SubmitOutcome)
      ensures Rejected(tasks).Some? ==> outcome == Alerted(Rejected(tasks).value.Message())
      ensures Rejected(tasks).None? && contract.Some? ==>
        outcome == Called(UpdateCall(contract.value.id, Contract(name, tasks, tags)))
      ensures Rejected(tasks).None? && contract.None? ==>
        outcome == Called(CreateCall(Contract(name, tasks, tags)))
    {
      if |tasks| == 0 {
        return Alerted(NoTasks.Message());
      }
      var i := 0;
      while i < |tasks|
        invariant 0 <= i <= |tasks|
        invariant forall k :: 0 <= k < i ==> TaskIsValid(tasks[k])
        invariant TaskRejection(tasks) == TaskRejection(tasks[i..])
      {
        var task := tasks[i];
        assert tasks[i..][0] == task && tasks[i..][1..] == tasks[i + 1..];
        Text.TrimIsEmptyIffBlank(task.name);
        if Text.Trim(task.name) == "" {
          return Alerted(EmptyTaskName.Message());
        }
        if task.amount <= 0.0 {
          return Alerted(NonPositiveAmount.Message());
        }
        i := i + 1;
      }
      var data := Contract(name, tasks, tags);
      if contract.Some? {
        outcome := Called(UpdateCall(contract.value.id, data));
      } else {
        outcome := Called(CreateCall(data));
      }
    }

    /** The settling of the call a submit made: on success the parent is
        told (`onContractCreated`), and after a successful create the form
        is cleared; an update, or a failed call, leaves the fields alone. */
    method SubmitSettled(call: ServiceCall, succeeded: bool) returns (notified: bool)
      modifies this
      ensures notified == succeeded
      ensures succeeded && call.CreateCall? ==> name == "" && tasks == [] && tags == []
      ensures !(succeeded && call.CreateCall?) ==> name == old(name) && tasks == old(tasks) && tags == old(tags)
      ensures contract == old(contract)
    {
      notified := succeeded;
      if succeeded && call.CreateCall? {
        name, tasks, tags := "", [], [];
      }
    }
  }
}
