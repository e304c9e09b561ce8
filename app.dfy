/** The top-level view: the first page of every contract (nine per page),
    the create-contract modal and the page buttons. The view's state is its
    current page, the last listing it received and whether the modal is
    open; every listing it asks the backend for is recorded, in order, in
    `requests`. */
module App {
  import Pagination
  import ContractStore

  /** `GET /contracts?skip=..&limit=..`. */
  datatype ListRequest = ListRequest(skip: int, limit: nat)

  /** `fetchContracts(page)`: the request for one page. */
  function RequestFor(page: int): (r: ListRequest)
    ensures r.limit == Pagination.ItemsPerPage
    ensures page >= 1 ==> r.skip >= 0 && r.skip % Pagination.ItemsPerPage == 0
    ensures r.skip == Pagination.Skip(page)
  {
    ListRequest((page - 1) * Pagination.ItemsPerPage, Pagination.ItemsPerPage)
  }

  /** Distinct pages are asked for with distinct offsets, so each request
      names its page. */
  lemma RequestNamesItsPage(p: int, q: int)
    requires RequestFor(p) == RequestFor(q)
    ensures p == q
  {
    assert (p - 1) * Pagination.ItemsPerPage == (q - 1) * Pagination.ItemsPerPage;
  }

  class AppView {
    var currentPage: int
    var totalContracts: nat
    var contracts: seq<ContractStore.ContractView>
    var showModal: bool
    var requests: seq<ListRequest>

    /** The most recent request is the one for the page on show. */
    ghost predicate Valid()
      reads this
    {
      |requests| >= 1 && requests[|requests| - 1] == RequestFor(currentPage)
    }

    /** Mounting: page 1, nothing listed, the modal closed, and the fetch
        effect's first run. */
    constructor ()
      ensures Valid()
      ensures currentPage == 1 && totalContracts == 0 && contracts == [] && !showModal
      ensures requests == [RequestFor(1)]
    {
      currentPage := 1;
      totalContracts := 0;
      contracts := [];
      showModal := false;
      requests := [RequestFor(1)];
    }

    /** `handlePageChange(page)`: the page becomes `page` as given, with no
        clamping; the fetch effect runs, and asks for that page, only when
        the page actually changes. */
    method HandlePageChange(page: int)
      requires Valid()
      modifies this
      ensures Valid()
      ensures currentPage == page
      ensures requests == old(requests) + (if page != old(currentPage) then [RequestFor(page)] else [])
      ensures totalContracts == old(totalContracts) && contracts == old(contracts) && showModal == old(showModal)
    {
      if page != currentPage {
        currentPage := page;
        requests := requests + [RequestFor(page)];
      }
    }

    /** A navigation to another location: the fetch effect depends on the
        location too, so the current page is asked for again. */
    method LocationChanged()
      requires Valid()
      modifies this
      ensures Valid()
      ensures requests == old(requests) + [RequestFor(currentPage)]
      ensures currentPage == old(currentPage) && totalContracts == old(totalContracts)
      ensures contracts == old(contracts) && showModal == old(showModal)
    {
      requests := requests + [RequestFor(currentPage)];
    }

    /** `handleContractCreated`: ask for the current page again and close the modal. */
    method HandleContractCreated()
      requires Valid()
      modifies this
      ensures Valid()
      ensures requests == old(requests) + [RequestFor(old(currentPage))]
      ensures !showModal
      ensures currentPage == old(currentPage) && totalContracts == old(totalContracts) && contracts == old(contracts)
    {
      requests := requests + [RequestFor(currentPage)];
      showModal := false;
    }

    /** The "Create Contract" button and the modal's close button. */
    method SetShowModal(show: bool)
      requires Valid()
      modifies this
      ensures Valid()
      ensures showModal == show
      ensures currentPage == old(currentPage) && totalContracts == old(totalContracts)
      ensures contracts == old(contracts) && requests == old(requests)
    {
      showModal := show;
    }

    /** A listing arrived: show its contracts and remember its total count. */
    method FetchSucceeded(page: ContractStore.ListPage)
      requires Valid()
      modifies this
      ensures Valid()
      ensures contracts == page.contracts && totalContracts == page.totalCount
      ensures currentPage == old(currentPage) && showModal == old(showModal) && requests == old(requests)
    {
      contracts := page.contracts;
      totalContracts := page.totalCount;
    }

    /** `totalPages`, with exactly one numbered button per page, the button
        for the current page the only active one. */
    function PageButtons(): (r: seq<Pagination.PageItem>)
      reads this
      ensures |r| == Pagination.TotalPages(totalContracts)
      ensures forall k :: 0 <= k < |r| ==> r[k].number == k + 1
      ensures forall k :: 0 <= k < |r| ==> (r[k].active <==> r[k].number == currentPage)
    {
      Pagination.PageItems(currentPage, Pagination.TotalPages(totalContracts))
    }
  }
}
