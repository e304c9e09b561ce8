/** How the client and the backend fit together: the list request the
    client builds is read back by the backend as the same filters and the
    same window, the pages of nine cover every match exactly once, a listed
    contract can be fetched by its id, and a contract the form lets through
    is stored with a positive total. */
module EndToEnd {
  import opened Results
  import opened Schema
  import Text
  import ObjectIds
  import Pagination
  import ContractService
  import ContractStore
  import ContractForm

  /** The filters and the window the backend runs a listing with. */
  datatype ServerView = ServerView(query: ContractStore.Query, skip: int, limit: int)

  /** The declared defaults of `get_contracts`'s `skip` and `limit`. */
  const DefaultSkip: int := 0
  const DefaultLimit: int := 10

  /** An integer query parameter: its default when absent, its value when
      it is an integer, and `None` (FastAPI's 422) when it is not. */
  function Parameter(params: seq<ContractService.Param>, key: string, default: int): Option<int>
  {
    match ContractService.Lookup(params, key)
    case None => Some(default)
    case Some(text) => Text.ParseInt(text)
  }

  /** What the backend reads out of a list request's query string, or `None`
      when `skip` or `limit` is not an integer. Parameters are read with the
      first-match `Lookup`; Starlette keeps the last value of a repeated
      key, which is the same value on every request `getContracts` builds,
      since those never repeat a key. */
  function ReadRequest(req: ContractService.Request): Option<ServerView>
  {
    var skip := Parameter(req.query, "skip", DefaultSkip);
    var limit := Parameter(req.query, "limit", DefaultLimit);
    if skip.None? || limit.None? then None
    else Some(ServerView(ContractStore.BuildQuery(ContractService.Lookup(req.query, "tags"), ContractService.Lookup(req.query, "search")),
                         skip.value, limit.value))
  }

  /** The part of a list request the client's `getContracts` fixes. */
  predicate BuiltFor(req: ContractService.Request, page: int, itemsPerPage: int, tags: seq<string>, search: string)
  {
    && ContractService.Lookup(req.query, "skip") == Some(Text.IntToString((page - 1) * itemsPerPage))
    && ContractService.Lookup(req.query, "limit") == Some(Text.IntToString(itemsPerPage))
    && ContractService.Lookup(req.query, "tags") == (if tags != [] then Some(Text.Join(tags, ',')) else None)
    && ContractService.Lookup(req.query, "search") == (if search != "" then Some(search) else None)
  }

  /** The backend reads back exactly the filters and the window the client
      asked for: the joined tags split back into the selected tags, provided
      no tag contains a comma and the selection is not the single empty tag;
      an empty selection or an empty term adds no condition. */
  lemma ListRequestRoundTrip(req: ContractService.Request, page: int, itemsPerPage: int, tags: seq<string>, search: string)
    requires BuiltFor(req, page, itemsPerPage, tags, search)
    requires forall k :: 0 <= k < |tags| ==> ',' !in tags[k]
    requires tags != [""]
    ensures ReadRequest(req).Some?
    ensures ReadRequest(req).value.skip == (page - 1) * itemsPerPage
    ensures ReadRequest(req).value.limit == itemsPerPage
    ensures ReadRequest(req).value.query.tags == if tags != [] then Some(tags) else None
    ensures ReadRequest(req).value.query.search == if search != "" then Some(search) else None
  {
    Text.ParseIntRoundTrip((page - 1) * itemsPerPage);
    Text.ParseIntRoundTrip(itemsPerPage);
    if tags != [] {
      Text.SplitJoin(tags, ',');
      if |tags| == 1 {
        assert Text.Join(tags, ',') == tags[0];
      } else {
        assert |Text.Join(tags, ',')| >= 1;
      }
    }
  }

  /** Selecting only the empty tag sends `tags=` and the backend then
      applies no tag filter at all. */
  lemma SingleEmptyTagIsIgnored(req: ContractService.Request, page: int, itemsPerPage: int, search: string)
    requires BuiltFor(req, page, itemsPerPage, [""], search)
    ensures ReadRequest(req).Some? && ReadRequest(req).value.query.tags == None
  {
    Text.ParseIntRoundTrip((page - 1) * itemsPerPage);
    Text.ParseIntRoundTrip(itemsPerPage);
  }

  /** A request without `skip` and `limit` is read with the defaults, so it
      is answered with the first ten matches. */
  lemma MissingWindowGetsTheFirstTen<T>(req: ContractService.Request, matching: seq<T>)
    requires ContractService.Lookup(req.query, "skip").None? && ContractService.Lookup(req.query, "limit").None?
    ensures ReadRequest(req).Some?
    ensures ReadRequest(req).value.skip == 0 && ReadRequest(req).value.limit == 10
    ensures ContractStore.Window(matching, DefaultSkip, DefaultLimit) == if |matching| <= 10 then matching else matching[..10]
  {
  }

  /** A `skip` or `limit` that is present but not an integer makes the
      backend refuse the request. */
  lemma NonIntegerWindowIsRejected(req: ContractService.Request, key: string)
    requires key == "skip" || key == "limit"
    requires ContractService.Lookup(req.query, key).Some?
    requires Text.ParseInt(ContractService.Lookup(req.query, key).value).None?
    ensures ReadRequest(req).None?
  {
  }

  /** With both filters, a document is listed exactly when it carries at
      least one of the tags and its name matches the term. */
  lemma BothFiltersMustHold(d: ContractStore.Doc, tags: seq<string>, search: string, regexMatch: (string, string) -> bool)
    requires tags != [] && search != ""
    ensures ContractStore.Matches(d, ContractStore.Query(Some(tags), Some(search)), regexMatch) <==>
      (exists i, j :: 0 <= i < |d.tags| && 0 <= j < |tags| && d.tags[i] == tags[j]) && regexMatch(search, d.name)
  {
  }

  /** The page that holds the match at position `j` (counting from 0). */
  function PageOf(j: nat): (p: int)
    ensures p >= 1 && Pagination.Skip(p) <= j < Pagination.Skip(p) + Pagination.ItemsPerPage
  {
    j / Pagination.ItemsPerPage + 1
  }

  /** Every match is on exactly one page, that page is among the numbered
      pages, and the window of that page holds it. */
  lemma EveryMatchOnExactlyOnePage<T>(matching: seq<T>, j: nat, q: int)
    requires j < |matching|
    ensures 1 <= PageOf(j) <= Pagination.TotalPages(|matching|)
    ensures ContractStore.Window(matching, Pagination.Skip(PageOf(j)), Pagination.ItemsPerPage)[j - Pagination.Skip(PageOf(j))] == matching[j]
    ensures q >= 1 && Pagination.Skip(q) <= j < Pagination.Skip(q) + Pagination.ItemsPerPage ==> q == PageOf(j)
  {
  }

  /** The caption counts exactly the contracts the page's request returns:
      from the first one on the page to the last one, when the page is not
      past the end. */
  lemma CaptionCountsTheWindow<T>(matching: seq<T>, page: int)
    requires page >= 1 && Pagination.Skip(page) < |matching|
    ensures var range := Pagination.ShowingRange(page, |matching|);
      range.1 - range.0 + 1 == |ContractStore.Window(matching, Pagination.Skip(page), Pagination.ItemsPerPage)|
  {
  }

  /** Every contract of the store is fetched back by the id the listing
      shows for it. */
  lemma ListedIdFetchesTheSameContract(s: ContractStore.Store, id: ObjectIds.ObjectId)
    requires id in s.docs
    ensures s.Get(ContractStore.ToView(id, s.docs[id]).id) == Ok(ContractStore.ToView(id, s.docs[id]))
  {
    ObjectIds.ParseToString(id);
  }

  /** The request the form's service call sends. */
  function Send(call: ContractForm.ServiceCall): ContractService.Request
  {
    match call
    case CreateCall(data) => ContractService.CreateContract(data)
    case UpdateCall(contractId, data) => ContractService.UpdateContract(contractId, data)
  }

  /** A contract the form lets through is stored with a positive total, and
      its request carries exactly the form's name, tasks and tags. */
  lemma AcceptedContractHasPositiveTotal(name: string, tasks: seq<Task>, tags: seq<string>, call: ContractForm.ServiceCall)
    requires ContractForm.Rejected(tasks).None?
    requires call.data == Contract(name, tasks, tags)
    ensures Send(call).body == Some(Contract(name, tasks, tags))
    ensures ContractStore.ToDoc(call.data).totalAmount > 0.0
  {
    ContractForm.AcceptedTasksHavePositiveTotal(tasks);
  }

  /** An edit form sends its update to the route of the contract it edits,
      provided the id is one path segment, as every ObjectId text is. */
  lemma UpdateReachesTheEditedContract(id: ObjectIds.ObjectId, data: Contract)
    ensures ContractService.RouteContractId(Send(ContractForm.UpdateCall(ObjectIds.ToString(id), data)).path) == Some(ObjectIds.ToString(id))
  {
    var text := ObjectIds.ToString(id);
    ContractService.CallsTargetTheirContract(text, data);
  }
}
