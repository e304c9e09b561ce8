/** The contract endpoints of the backend over an abstract document store.
    The store keeps its documents in insertion order (the order a `find`
    without a sort returns them in), a map from ObjectId to document, and
    the two vocabularies of known task names and tags. */
module ContractStore {
  import opened Results
  import opened Schema
  import ObjectIds
  import Text

  type ObjectId = ObjectIds.ObjectId

  /** A stored contract document: the request body plus its computed total. */
  datatype Doc = Doc(name: string, tasks: seq<Task>, tags: seq<string>, totalAmount: real)

  /** `contract.model_dump()` with `total_amount` set to the computed total. */
  function ToDoc(c: Contract): Doc
  {
    Doc(c.name, c.tasks, c.tags, c.TotalAmount())
  }

  /** A contract as the API returns it: `id` holds `str(_id)` and there is no `_id`. */
  datatype ContractView = ContractView(id: string, name: string, tasks: seq<Task>, tags: seq<string>, totalAmount: real)

  function ToView(id: ObjectId, d: Doc): ContractView
  {
    ContractView(ObjectIds.ToString(id), d.name, d.tasks, d.tags, d.totalAmount)
  }

  /** Why a request fails: the 404 the handlers raise with the detail
      "Contract not found", or an exception they let through (a malformed
      id, an `_id` collision on insert, a search term the database refuses
      as a regular expression), which the server answers with a 500. */
  datatype Failure = NotFound | InvalidObjectId | DuplicateKey | InvalidPattern
  {
    function Status(): int
    {
      if NotFound? then 404 else 500
    }
  }

  /** The body of a successful update or delete: `{"status": "ok"}`. */
  const StatusOk: string := "ok"

  // ---------------------------------------------------------------------
  // Store order
  // ---------------------------------------------------------------------

  predicate NoDuplicates(ids: seq<ObjectId>)
  {
    forall i, j :: 0 <= i < j < |ids| ==> ids[i] != ids[j]
  }

  /** `a` is `b` with some elements dropped, the rest in the same order. */
  predicate IsSubsequence<T(==)>(a: seq<T>, b: seq<T>)
    decreases |b|
  {
    a == [] || (b != [] && ((a[0] == b[0] && IsSubsequence(a[1..], b[1..])) || IsSubsequence(a, b[1..])))
  }

  /** The store's invariant: every document appears once in the store
      order, and every stored total is the sum of the stored tasks. */
  ghost predicate Consistent(order: seq<ObjectId>, docs: map<ObjectId, Doc>)
  {
    && NoDuplicates(order)
    && (forall id :: id in docs <==> id in order)
    && (forall id :: id in docs ==> docs[id].totalAmount == Sum(docs[id].tasks))
  }

  lemma NoDuplicatesCons(h: ObjectId, rest: seq<ObjectId>)
    ensures NoDuplicates(rest) && h !in rest ==> NoDuplicates([h] + rest)
  {
    if NoDuplicates(rest) && h !in rest {
      var s := [h] + rest;
      forall i, j | 0 <= i < j < |s| ensures s[i] != s[j] {
        assert s[j] == rest[j - 1];
        if i > 0 {
          assert s[i] == rest[i - 1];
        }
      }
    }
  }

  lemma NoDuplicatesTail(ids: seq<ObjectId>)
    requires ids != []
    ensures NoDuplicates(ids) ==> NoDuplicates(ids[1..]) && ids[0] !in ids[1..]
  {
    if NoDuplicates(ids) {
      forall k | 0 <= k < |ids| - 1 ensures ids[1..][k] != ids[0] {
        assert ids[1..][k] == ids[k + 1];
      }
    }
  }

  /** `ids` without `x`, the rest in the same order. */
  function Without(ids: seq<ObjectId>, x: ObjectId): (r: seq<ObjectId>)
    ensures forall y :: y in r <==> y in ids && y != x
    ensures IsSubsequence(r, ids)
    ensures x !in ids ==> r == ids
    ensures NoDuplicates(ids) ==> NoDuplicates(r)
    ensures NoDuplicates(ids) && x in ids ==> |r| == |ids| - 1
  {
    if ids == [] then []
    else
      var rest := Without(ids[1..], x);
      NoDuplicatesTail(ids);
      if ids[0] == x then rest
      else
        NoDuplicatesCons(ids[0], rest);
        assert x !in ids ==> [ids[0]] + ids[1..] == ids;
        [ids[0]] + rest
  }

  lemma ConsistentInsert(order: seq<ObjectId>, docs: map<ObjectId, Doc>, id: ObjectId, d: Doc)
    requires Consistent(order, docs) && id !in docs && d.totalAmount == Sum(d.tasks)
    ensures Consistent(order + [id], docs[id := d])
  {
    var o := order + [id];
    forall i, j | 0 <= i < j < |o| ensures o[i] != o[j] {
      assert o[i] == order[i];
      if j < |order| {
        assert o[j] == order[j];
      } else {
        assert order[i] in docs;
      }
    }
  }

  lemma ConsistentReplace(order: seq<ObjectId>, docs: map<ObjectId, Doc>, id: ObjectId, d: Doc)
    requires Consistent(order, docs) && id in docs && d.totalAmount == Sum(d.tasks)
    ensures Consistent(order, docs[id := d])
  {
  }

  lemma ConsistentRemove(order: seq<ObjectId>, docs: map<ObjectId, Doc>, id: ObjectId)
    requires Consistent(order, docs) && id in docs
    ensures Consistent(Without(order, id), docs - {id})
  {
  }

  // ---------------------------------------------------------------------
  // Listing
  // ---------------------------------------------------------------------

  /** A Mongo query: `tags` holds the `$in` list, `search` the regex; None
      means the query has no condition on that field. */
  datatype Query = Query(tags: Option<seq<string>>, search: Option<string>)

  /** The query `get_contracts` builds from its parameters: an absent or
      empty parameter adds no condition, and `tags` is split at commas. */
  function BuildQuery(tags: Option<string>, search: Option<string>): Query
  {
    Query(if tags.Some? && tags.value != "" then Some(Text.Split(tags.value, ',')) else None,
          if search.Some? && search.value != "" then search else None)
  }

  /** `$in` on an array field: some element of `values` is among `wanted`. */
  predicate HasAnyOf(values: seq<string>, wanted: seq<string>)
  {
    exists i :: 0 <= i < |values| && values[i] in wanted
  }

  /** A document matches when it carries at least one of the query's tags
      and its name matches the query's pattern, each only if present.
      `regexMatch(pattern, name)` is the case-insensitive regex search. */
  predicate Matches(d: Doc, q: Query, regexMatch: (string, string) -> bool)
  {
    && (q.tags.Some? ==> HasAnyOf(d.tags, q.tags.value))
    && (q.search.Some? ==> regexMatch(q.search.value, d.name))
  }

  /** The documents of `ids` that match `q`, in that order. */
  function Filter(ids: seq<ObjectId>, docs: map<ObjectId, Doc>, q: Query, regexMatch: (string, string) -> bool): (r: seq<ObjectId>)
    requires forall id :: id in ids ==> id in docs
    ensures forall id :: id in r <==> id in ids && Matches(docs[id], q, regexMatch)
    ensures IsSubsequence(r, ids)
    ensures NoDuplicates(ids) ==> NoDuplicates(r)
  {
    if ids == [] then []
    else
      var rest := Filter(ids[1..], docs, q, regexMatch);
      NoDuplicatesTail(ids);
      if Matches(docs[ids[0]], q, regexMatch) then
        NoDuplicatesCons(ids[0], rest);
        [ids[0]] + rest
      else rest
  }

  /** `cursor.skip(skip).limit(limit)`: the elements at positions
      skip, skip + 1, ..., at most `limit` of them; a limit of 0 means no limit. */
  function Window<T>(s: seq<T>, skip: nat, limit: nat): (r: seq<T>)
    ensures limit > 0 ==> |r| <= limit
    ensures |r| == if skip >= |s| then 0 else if limit == 0 || |s| - skip <= limit then |s| - skip else limit
    ensures forall k :: 0 <= k < |r| ==> r[k] == s[skip + k]
  {
    if skip >= |s| then []
    else if limit == 0 || |s| - skip <= limit then s[skip..]
    else s[skip..skip + limit]
  }

  /** The documents of `ids` as the API shows them, in the same order. */
  function Views(ids: seq<ObjectId>, docs: map<ObjectId, Doc>): (r: seq<ContractView>)
    requires forall id :: id in ids ==> id in docs
    ensures |r| == |ids| && forall k :: 0 <= k < |r| ==> r[k] == ToView(ids[k], docs[ids[k]])
  {
    if ids == [] then [] else Views(ids[..|ids| - 1], docs) + [ToView(ids[|ids| - 1], docs[ids[|ids| - 1]])]
  }

  /** The response of `get_contracts`. */
  datatype ListPage = ListPage(totalCount: nat, contracts: seq<ContractView>)

  // ---------------------------------------------------------------------
  // Vocabularies
  // ---------------------------------------------------------------------

  /** The vocabulary after upserting each of `names` in turn with `$setOnInsert`. */
  function Upserted(vocab: set<string>, names: seq<string>): set<string>
  {
    if names == [] then vocab else Upserted(vocab, names[..|names| - 1]) + {names[|names| - 1]}
  }

  /** Upserting adds exactly the given names and loses none. */
  lemma {:induction false} UpsertedMembers(vocab: set<string>, names: seq<string>)
    ensures forall n :: n in Upserted(vocab, names) <==> n in vocab || n in names
  {
    if names != [] {
      var init := names[..|names| - 1];
      UpsertedMembers(vocab, init);
      assert names == init + [names[|names| - 1]];
    }
  }

  /** Upserting the same names again changes nothing: a name already
      present is never duplicated. */
  lemma UpsertIdempotent(vocab: set<string>, names: seq<string>)
    ensures Upserted(Upserted(vocab, names), names) == Upserted(vocab, names)
  {
    UpsertedMembers(vocab, names);
    UpsertedMembers(Upserted(vocab, names), names);
  }

  function TaskNames(tasks: seq<Task>): (r: seq<string>)
    ensures |r| == |tasks| && forall k :: 0 <= k < |r| ==> r[k] == tasks[k].name
  {
    if tasks == [] then [] else [tasks[0].name] + TaskNames(tasks[1..])
  }

  // ---------------------------------------------------------------------
  // Summary
  // ---------------------------------------------------------------------

  /** The response of `get_summary`. */
  datatype SummaryData = SummaryData(totalContracts: nat, totalAmount: real,
                                     contractsByTags: map<string, nat>, contractsByTasks: map<string, nat>)

  /** The documents of the store, in store order. */
  function Documents(order: seq<ObjectId>, docs: map<ObjectId, Doc>): (r: seq<Doc>)
    requires forall id :: id in order ==> id in docs
    ensures |r| == |order| && forall k :: 0 <= k < |r| ==> r[k] == docs[order[k]]
  {
    if order == [] then [] else [docs[order[0]]] + Documents(order[1..], docs)
  }

  /** `$unwind` on `tags`: every tag of every document, duplicates kept. */
  function AllTags(ds: seq<Doc>): seq<string>
  {
    if ds == [] then [] else ds[0].tags + AllTags(ds[1..])
  }

  /** `$unwind` on `tasks`, projected to `tasks.name`. */
  function AllTaskNames(ds: seq<Doc>): seq<string>
  {
    if ds == [] then [] else TaskNames(ds[0].tasks) + AllTaskNames(ds[1..])
  }

  /** Every task of every document, in order. */
  function AllTasks(ds: seq<Doc>): seq<Task>
  {
    if ds == [] then [] else ds[0].tasks + AllTasks(ds[1..])
  }

  /** `$group` by value with `{"$sum": 1}`: how often each value occurs. */
  function GroupCount(items: seq<string>): (r: map<string, nat>)
    ensures forall x :: x in r <==> x in items
    ensures forall x :: x in r ==> r[x] == multiset(items)[x]
  {
    if items == [] then map[]
    else
      var init := items[..|items| - 1];
      var x := items[|items| - 1];
      assert items == init + [x];
      var m := GroupCount(init);
      m[x := (if x in m then m[x] else 0) + 1]
  }

  /** `$group` with `{"$sum": "$total_amount"}`. */
  function SumTotals(ds: seq<Doc>): real
  {
    if ds == [] then 0.0 else ds[0].totalAmount + SumTotals(ds[1..])
  }

  /** When every stored total is its task sum, the sum of the stored totals
      is the sum of the amounts of all tasks of all contracts. */
  lemma {:induction false} SumTotalsIsTaskSum(ds: seq<Doc>)
    requires forall k :: 0 <= k < |ds| ==> ds[k].totalAmount == Sum(ds[k].tasks)
    ensures SumTotals(ds) == Sum(AllTasks(ds))
  {
    if ds != [] {
      SumTotalsIsTaskSum(ds[1..]);
      SumConcat(ds[0].tasks, AllTasks(ds[1..]));
    }
  }

  /** `contracts_by_tasks` counts task occurrences, not contracts: a single
      contract with two tasks of the same name contributes two. */
  lemma ByTasksCountsOccurrences(name: string, a: real, b: real)
    ensures GroupCount(AllTaskNames([Doc("c", [Task(name, a), Task(name, b)], [], a + b)]))[name] == 2
  {
    var d := Doc("c", [Task(name, a), Task(name, b)], [], a + b);
    assert TaskNames(d.tasks) == [name, name];
    assert [d][1..] == [];
    assert AllTaskNames([d]) == [name, name];
    assert multiset([name, name])[name] == 2;
  }

  // ---------------------------------------------------------------------
  // The store
  // ---------------------------------------------------------------------

  class Store {
    var order: seq<ObjectId>
    var docs: map<ObjectId, Doc>
    var taskNames: set<string>
    var tagNames: set<string>

    ghost predicate Valid()
      reads this
    {
      Consistent(order, docs)
    }

    constructor ()
      ensures Valid()
      ensures order == [] && docs == map[] && taskNames == {} && tagNames == {}
    {
      order, docs, taskNames, tagNames := [], map[], {}, {};
    }

    /** `create_contract`: insert the document with its computed total under
        the ObjectId the driver generated, then upsert every task name and
        every tag into the vocabularies. */
    method Create(c: Contract, newId: ObjectId) returns (r: Result<string, Failure>)
      requires Valid()
      modifies this
      ensures Valid()
      ensures r.Err? ==> r.error.Status() == 500
      ensures newId in old(docs) ==>
        && r == Err(DuplicateKey)
        && order == old(order) && docs == old(docs)
        && taskNames == old(taskNames) && tagNames == old(tagNames)
      ensures newId !in old(docs) ==>
        && r == Ok(ObjectIds.ToString(newId))
        && order == old(order) + [newId]
        && docs == old(docs)[newId := ToDoc(c)]
        && docs[newId].totalAmount == Sum(c.tasks)
        && taskNames == Upserted(old(taskNames), TaskNames(c.tasks))
        && tagNames == Upserted(old(tagNames), c.tags)
    {
      if newId in docs {
        return Err(DuplicateKey);
      }
      ConsistentInsert(order, docs, newId, ToDoc(c));
      order := order + [newId];
      docs := docs[newId := ToDoc(c)];

      UpsertTaskNames(c.tasks);
      UpsertTags(c.tags);
      r := Ok(ObjectIds.ToString(newId));
    }

    /** The upsert loop over the task names of a new contract. */
    method UpsertTaskNames(tasks: seq<Task>)
      modifies this
      ensures taskNames == Upserted(old(taskNames), TaskNames(tasks))
      ensures order == old(order) && docs == old(docs) && tagNames == old(tagNames)
    {
      ghost var names := TaskNames(tasks);
      var i := 0;
      while i < |tasks|
        invariant 0 <= i <= |tasks|
        invariant taskNames == Upserted(old(taskNames), names[..i])
        invariant order == old(order) && docs == old(docs) && tagNames == old(tagNames)
      {
        assert names[..i + 1][..i] == names[..i];
        taskNames := taskNames + {tasks[i].name};
        i := i + 1;
      }
      assert names[..|tasks|] == names;
    }

    /** The upsert loop over the tags of a new contract. */
    method UpsertTags(tags: seq<string>)
      modifies this
      ensures tagNames == Upserted(old(tagNames), tags)
      ensures order == old(order) && docs == old(docs) && taskNames == old(taskNames)
    {
      var j := 0;
      while j < |tags|
        invariant 0 <= j <= |tags|
        invariant tagNames == Upserted(old(tagNames), tags[..j])
        invariant order == old(order) && docs == old(docs) && taskNames == old(taskNames)
      {
        assert tags[..j + 1][..j] == tags[..j];
        tagNames := tagNames + {tags[j]};
        j := j + 1;
      }
      assert tags[..|tags|] == tags;
    }

    /** `get_contracts`: count all matching documents, then return the
        matching documents at positions [skip, skip + limit) of store order,
        each with `id` in place of `_id`. A search term that is not a valid
        regular expression (`regexValid`) makes the count raise, which the
        server answers with a 500. */
    method List(tags: Option<string>, search: Option<string>, skip: nat, limit: nat,
                regexValid: string -> bool, regexMatch: (string, string) -> bool) returns (r: Result<ListPage, Failure>)
      requires Valid()
      ensures var q := BuildQuery(tags, search);
        q.search.Some? && !regexValid(q.search.value) ==> r == Err(InvalidPattern)
      ensures var q := BuildQuery(tags, search);
        !(q.search.Some? && !regexValid(q.search.value)) ==>
          var matching := Filter(order, docs, q, regexMatch);
          && r.Ok?
          && r.value.totalCount == |matching|
          && r.value.contracts == Views(Window(matching, skip, limit), docs)
    {
      var query := BuildQuery(tags, search);
      if query.search.Some? && !regexValid(query.search.value) {
        return Err(InvalidPattern);
      }
      assert forall id :: id in order ==> id in docs;
      var matching := Filter(order, docs, query, regexMatch);
      var cursor := Window(matching, skip, limit);
      var contracts: seq<ContractView> := [];
      var i := 0;
      while i < |cursor|
        invariant 0 <= i <= |cursor|
        invariant contracts == Views(cursor[..i], docs)
      {
        assert cursor[..i + 1][..i] == cursor[..i];
        var id := cursor[i];
        contracts := contracts + [ToView(id, docs[id])];
        i := i + 1;
      }
      assert cursor[..i] == cursor;
      r := Ok(ListPage(|matching|, contracts));
    }

    /** `get_contract`. */
    function Get(contractId: string): (r: Result<ContractView, Failure>)
      reads this
      ensures ObjectIds.Parse(contractId).None? ==> r == Err(InvalidObjectId)
      ensures r.Err? ==> (r.error.Status() == 404 <==> ObjectIds.Parse(contractId).Some?)
      ensures ObjectIds.Parse(contractId).Some? ==>
        var id := ObjectIds.Parse(contractId).value;
        && (id in docs ==> r == Ok(ToView(id, docs[id])))
        && (id !in docs ==> r == Err(NotFound))
    {
      match ObjectIds.Parse(contractId)
      case None => Err(InvalidObjectId)
      case Some(id) => if id in docs then Ok(ToView(id, docs[id])) else Err(NotFound)
    }

    /** `update_contract`: `$set` the new fields; success only when exactly
        one document was modified, so an absent id and an update that
        changes nothing both answer 404. The vocabularies are not touched. */
    method Update(contractId: string, c: Contract) returns (r: Result<string, Failure>)
      requires Valid()
      modifies this
      ensures Valid()
      ensures order == old(order) && taskNames == old(taskNames) && tagNames == old(tagNames)
      ensures r.Err? ==> (r.error.Status() == 404 <==> ObjectIds.Parse(contractId).Some?)
      ensures match ObjectIds.Parse(contractId)
        case None => r == Err(InvalidObjectId) && docs == old(docs)
        case Some(id) =>
          if id in old(docs) && old(docs)[id] != ToDoc(c)
          then r == Ok(StatusOk) && docs == old(docs)[id := ToDoc(c)]
          else r == Err(NotFound) && docs == old(docs)
    {
      var parsed := ObjectIds.Parse(contractId);
      if parsed.None? {
        return Err(InvalidObjectId);
      }
      var id := parsed.value;
      var modifiedCount := if id in docs && docs[id] != ToDoc(c) then 1 else 0;
      if modifiedCount == 1 {
        ConsistentReplace(order, docs, id, ToDoc(c));
        docs := docs[id := ToDoc(c)];
        r := Ok(StatusOk);
      } else {
        r := Err(NotFound);
      }
    }

    /** `delete_contract`: remove exactly the named document. */
    method Delete(contractId: string) returns (r: Result<string, Failure>)
      requires Valid()
      modifies this
      ensures Valid()
      ensures taskNames == old(taskNames) && tagNames == old(tagNames)
      ensures r.Err? ==> (r.error.Status() == 404 <==> ObjectIds.Parse(contractId).Some?)
      ensures match ObjectIds.Parse(contractId)
        case None => r == Err(InvalidObjectId) && docs == old(docs) && order == old(order)
        case Some(id) =>
          if id in old(docs)
          then r == Ok(StatusOk) && docs == old(docs) - {id} && order == Without(old(order), id)
          else r == Err(NotFound) && docs == old(docs) && order == old(order)
    {
      var parsed := ObjectIds.Parse(contractId);
      if parsed.None? {
        return Err(InvalidObjectId);
      }
      var id := parsed.value;
      if id in docs {
        ConsistentRemove(order, docs, id);
        docs := docs - {id};
        order := Without(order, id);
        r := Ok(StatusOk);
      } else {
        r := Err(NotFound);
      }
    }

    /** `get_summary`: the number of contracts, the sum of their stored
        totals (0 for an empty store), and how often each tag and each task
        name occurs across all contracts. */
    function Summary(): (s: SummaryData)
      reads this
      requires Valid()
      ensures s.totalContracts == |order|
      ensures s.totalAmount == Sum(AllTasks(Documents(order, docs)))
      ensures forall t :: t in s.contractsByTags <==> t in AllTags(Documents(order, docs))
      ensures forall t :: t in s.contractsByTags ==> s.contractsByTags[t] == multiset(AllTags(Documents(order, docs)))[t]
      ensures forall n :: n in s.contractsByTasks <==> n in AllTaskNames(Documents(order, docs))
      ensures forall n :: n in s.contractsByTasks ==> s.contractsByTasks[n] == multiset(AllTaskNames(Documents(order, docs)))[n]
    {
      var ds := Documents(order, docs);
      SumTotalsIsTaskSum(ds);
      var totalAmount := if ds == [] then 0.0 else SumTotals(ds);
      SummaryData(|order|, totalAmount, GroupCount(AllTags(ds)), GroupCount(AllTaskNames(ds)))
    }
  }
}
