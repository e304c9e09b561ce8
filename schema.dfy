/** The request body of the contract endpoints: a contract is a name, an
    ordered list of priced tasks and a list of tags, and its total is
    computed from the tasks. The schema checks types only: a task may have
    an empty name or a zero or negative amount, and the task list may be
    empty. Amounts are exact (real) numbers. */
module Schema {

  datatype Task = Task(name: string, amount: real)

  datatype Contract = Contract(name: string, tasks: seq<Task>, tags: seq<string>)
  {
    /** The computed `total_amount` field. */
    function TotalAmount(): real
    {
      Sum(tasks)
    }
  }

  /** `sum(task.amount for task in tasks)`: 0 for no tasks. */
  function Sum(tasks: seq<Task>): real
  {
    if tasks == [] then 0.0 else tasks[0].amount + Sum(tasks[1..])
  }

  /** The total of a concatenation is the sum of the totals. */
  lemma {:induction false} SumConcat(a: seq<Task>, b: seq<Task>)
    ensures Sum(a + b) == Sum(a) + Sum(b)
  {
    if a == [] {
      assert a + b == b;
    } else {
      SumConcat(a[1..], b);
      assert (a + b)[1..] == a[1..] + b;
    }
  }

  /** Appending a task raises the total by exactly that task's amount. */
  lemma SumAppend(tasks: seq<Task>, t: Task)
    ensures Sum(tasks + [t]) == Sum(tasks) + t.amount
  {
    SumConcat(tasks, [t]);
    assert Sum([t]) == t.amount + Sum([]);
  }

  /** The total depends on the tasks alone, not on the name or the tags. */
  lemma TotalDependsOnTasksOnly(c: Contract, d: Contract)
    requires c.tasks == d.tasks
    ensures c.TotalAmount() == d.TotalAmount()
  {
  }

  /** A contract whose tasks all have a positive amount, and which has at
      least one task, has a positive total (the client-side checks of the
      form therefore guarantee a positive stored total). */
  lemma {:induction false} PositiveAmountsGivePositiveTotal(tasks: seq<Task>)
    requires |tasks| >= 1
    requires forall i :: 0 <= i < |tasks| ==> tasks[i].amount > 0.0
    ensures Sum(tasks) > 0.0
  {
    if |tasks| > 1 {
      PositiveAmountsGivePositiveTotal(tasks[1..]);
    }
  }

  /** Nothing in the schema forbids a negative total: the body below is a
      well-formed contract whose total is -5. */
  lemma SchemaAdmitsNegativeTotal()
    ensures Contract("", [Task("", -5.0)], []).TotalAmount() == -5.0
  {
    assert [Task("", -5.0)][1..] == [];
  }
}
