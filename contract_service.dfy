/** The client side of the contract endpoints: which HTTP request each
    service call sends. The list call builds its query string by appending
    parameters one at a time; the others go to a fixed path with the
    contract's name, tasks and tags as the body. */
module ContractService {
  import opened Results
  import opened Schema
  import Text

  /** One `key=value` pair of a `URLSearchParams`. */
  datatype Param = Param(key: string, value: string)

  datatype Verb = Get | Post | Put | Delete

  /** A request: verb, path, query parameters in order, and the JSON body.
      The body type has only `name`, `tasks` and `tags`, so no request can
      carry an `id` or a `total_amount`. */
  datatype Request = Request(verb: Verb, path: string, query: seq<Param>, body: Option<Contract>)

  /** The value of the first parameter named `key`, as `params.get(key)`. */
  function Lookup(params: seq<Param>, key: string): Option<string>
  {
    if params == [] then None
    else if params[0].key == key then Some(params[0].value)
    else Lookup(params[1..], key)
  }

  /** A lookup finds nothing exactly when no parameter has the key, and
      otherwise the value of the first parameter that has it. */
  lemma {:induction false} LookupFindsTheFirst(params: seq<Param>, key: string)
    ensures Lookup(params, key).None? <==> forall k :: 0 <= k < |params| ==> params[k].key != key
    ensures Lookup(params, key).Some? ==>
      exists i :: 0 <= i < |params| && params[i] == Param(key, Lookup(params, key).value) &&
        forall k :: 0 <= k < i ==> params[k].key != key
  {
    if params != [] && params[0].key != key {
      LookupFindsTheFirst(params[1..], key);
      assert forall k :: 1 <= k < |params| ==> params[k] == params[1..][k - 1];
      if Lookup(params, key).Some? {
        var i :| 0 <= i < |params[1..]| && params[1..][i] == Param(key, Lookup(params, key).value) &&
          forall k :: 0 <= k < i ==> params[1..][k].key != key;
        assert params[i + 1] == params[1..][i];
      }
    }
  }

  /** Appending a parameter changes a lookup only when the key was not there yet. */
  lemma {:induction false} LookupAppend(params: seq<Param>, p: Param, key: string)
    ensures Lookup(params + [p], key) ==
      if Lookup(params, key).Some? then Lookup(params, key)
      else if p.key == key then Some(p.value) else None
  {
    if params != [] {
      LookupAppend(params[1..], p, key);
      assert (params + [p])[1..] == params[1..] + [p];
    }
  }

  const ContractsPath: string := "/contracts"

  /** `getContracts(page, itemsPerPage, tags, search)`: the offset and the
      page size always, in that order; the tags joined with commas when
      there are any; the search term, last, when it is not empty. */
  method GetContracts(page: int, itemsPerPage: int, tags: seq<string>, search: string) returns (req: Request)
    ensures req.verb == Get && req.path == ContractsPath && req.body == None
    ensures |req.query| == 2 + (if tags != [] then 1 else 0) + (if search != "" then 1 else 0)
    ensures req.query[0] == Param("skip", Text.IntToString((page - 1) * itemsPerPage))
    ensures req.query[1] == Param("limit", Text.IntToString(itemsPerPage))
    ensures Lookup(req.query, "skip") == Some(Text.IntToString((page - 1) * itemsPerPage))
    ensures Lookup(req.query, "limit") == Some(Text.IntToString(itemsPerPage))
    ensures tags != [] ==> req.query[2] == Param("tags", Text.Join(tags, ','))
    ensures Lookup(req.query, "tags") == if tags != [] then Some(Text.Join(tags, ',')) else None
    ensures search != "" ==> req.query[|req.query| - 1] == Param("search", search)
    ensures Lookup(req.query, "search") == if search != "" then Some(search) else None
  {
    var skip := (page - 1) * itemsPerPage;
    KeysDiffer();
    var params: seq<Param> := [];
    var p := Param("skip", Text.IntToString(skip));
    ListKeysAfterAppend(params, p);
    params := params + [p];
    p := Param("limit", Text.IntToString(itemsPerPage));
    ListKeysAfterAppend(params, p);
    params := params + [p];
    if |tags| > 0 {
      p := Param("tags", Text.Join(tags, ','));
      ListKeysAfterAppend(params, p);
      params := params + [p];
    }
    if search != "" {
      p := Param("search", search);
      ListKeysAfterAppend(params, p);
      params := params + [p];
    }
    req := Request(Get, ContractsPath, params, None);
  }

  /** `LookupAppend` for the four parameter names of a list request. */
  lemma ListKeysAfterAppend(params: seq<Param>, p: Param)
    ensures forall key | key in ["skip", "limit", "tags", "search"] ::
      Lookup(params + [p], key) == (if Lookup(params, key).Some? then Lookup(params, key)
                                    else if p.key == key then Some(p.value) else None)
  {
    LookupAppend(params, p, "skip");
    LookupAppend(params, p, "limit");
    LookupAppend(params, p, "tags");
    LookupAppend(params, p, "search");
  }

  /** The four parameter names of a list request are distinct. */
  lemma KeysDiffer()
    ensures "skip" != "limit" && "skip" != "tags" && "skip" != "search"
    ensures "limit" != "tags" && "limit" != "search" && "tags" != "search"
  {
  }

  /** `/contracts/` followed by the id, as the id was given. */
  function ContractPath(contractId: string): string
  {
    ContractsPath + "/" + contractId
  }

  /** `getContractById`. */
  function GetContractById(contractId: string): Request
  {
    Request(Get, ContractPath(contractId), [], None)
  }

  /** `createContract`. */
  function CreateContract(data: Contract): Request
  {
    Request(Post, ContractsPath, [], Some(data))
  }

  /** `updateContract`. */
  function UpdateContract(contractId: string, data: Contract): Request
  {
    Request(Put, ContractPath(contractId), [], Some(data))
  }

  /** `deleteContract`. */
  function DeleteContract(contractId: string): Request
  {
    Request(Delete, ContractPath(contractId), [], None)
  }

  /** The id the backend's `/contracts/{contract_id}` route reads out of a
      path: the rest of the path after `/contracts/`, when that is one
      non-empty path segment. */
  function RouteContractId(path: string): (r: Option<string>)
    ensures r.Some? ==> path == ContractPath(r.value) && r.value != "" && '/' !in r.value
  {
    var prefix := ContractsPath + "/";
    if |path| > |prefix| && path[..|prefix|] == prefix && '/' !in path[|prefix|..] then
      assert path == prefix + path[|prefix|..];
      Some(path[|prefix|..])
    else None
  }

  /** The get, update and delete calls reach the route for exactly the id
      they were given, provided the id is one path segment; the get and the
      delete send no body, the update sends exactly the given data. */
  lemma CallsTargetTheirContract(contractId: string, data: Contract)
    requires contractId != "" && '/' !in contractId
    ensures RouteContractId(GetContractById(contractId).path) == Some(contractId)
    ensures RouteContractId(UpdateContract(contractId, data).path) == Some(contractId)
    ensures RouteContractId(DeleteContract(contractId).path) == Some(contractId)
    ensures GetContractById(contractId).body == None && DeleteContract(contractId).body == None
    ensures UpdateContract(contractId, data).body == Some(data)
  {
  }

  /** The create call goes to the collection path, which no single-contract
      route matches, and carries exactly the given data. */
  lemma CreateTargetsTheCollection(data: Contract)
    ensures CreateContract(data).path == ContractsPath
    ensures RouteContractId(CreateContract(data).path) == None
    ensures CreateContract(data).verb == Post && CreateContract(data).body == Some(data)
  {
  }
}
