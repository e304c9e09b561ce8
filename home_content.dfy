/** The filtered listing: a search field, a tag selector and a paginated
    list of matching contracts, nine per page. Its state is the current
    page, the selected tags and the search term; every call it makes to the
    list service is recorded, in order, in `fetches`.

    Two effects drive the fetches. The filter effect depends on the tags
    and the term: it resets the page to 1 and fetches page 1. The page
    effect depends on the page alone and fetches that page with the current
    filters. A dependency counts as changed when it is not the same value
    as before (`Object.is`): the tag selector always hands over a new
    array, so every tag selection runs the filter effect, while the search
    field runs it only when the text differs. When a filter changes while
    the page is not 1, the reset to 1 then runs the page effect as well,
    which fetches page 1 with the same filters a second time. */
module HomeContent {
  import Pagination
  import ContractStore

  /** The arguments of one `contractService.getContracts` call. */
  datatype FetchArgs = FetchArgs(page: int, itemsPerPage: nat, tags: seq<string>, search: string)

  /** `fetchContracts(page, tags, search)`. */
  function FetchFor(page: int, tags: seq<string>, search: string): (r: FetchArgs)
    ensures r.page == page && r.itemsPerPage == Pagination.ItemsPerPage
    ensures r.tags == tags && r.search == search
  {
    FetchArgs(page, Pagination.ItemsPerPage, tags, search)
  }

  /** The fetches one run of the filter effect leads to when the page was
      `page`: page 1 with the new filters, once more if the page moved. */
  function FilterChangeFetches(page: int, tags: seq<string>, search: string): (r: seq<FetchArgs>)
    ensures |r| == if page == 1 then 1 else 2
    ensures forall k :: 0 <= k < |r| ==> r[k] == FetchArgs(1, Pagination.ItemsPerPage, tags, search)
  {
    var first := FetchFor(1, tags, search);
    if page == 1 then [first] else [first, first]
  }

  class HomeView {
    var currentPage: int
    var selectedTags: seq<string>
    var searchTerm: string
    var totalContracts: nat
    var contracts: seq<ContractStore.ContractView>
    var fetches: seq<FetchArgs>

    /** The most recent fetch is for the page and filters on show. */
    ghost predicate Valid()
      reads this
    {
      |fetches| >= 1 && fetches[|fetches| - 1] == FetchFor(currentPage, selectedTags, searchTerm)
    }

    /** Mounting: page 1, no tags, no term; both effects run once, so page 1
        without filters is fetched twice. */
    constructor ()
      ensures Valid()
      ensures currentPage == 1 && selectedTags == [] && searchTerm == ""
      ensures totalContracts == 0 && contracts == []
      ensures fetches == [FetchFor(1, [], ""), FetchFor(1, [], "")]
    {
      currentPage := 1;
      selectedTags := [];
      searchTerm := "";
      totalContracts := 0;
      contracts := [];
      fetches := [FetchFor(1, [], ""), FetchFor(1, [], "")];
    }

    /** The filter effect, and the page effect the page reset leads to. */
    method RunFilterEffect()
      modifies this
      ensures currentPage == 1
      ensures fetches == old(fetches) + FilterChangeFetches(old(currentPage), selectedTags, searchTerm)
      ensures selectedTags == old(selectedTags) && searchTerm == old(searchTerm)
      ensures totalContracts == old(totalContracts) && contracts == old(contracts)
    {
      var first := FetchFor(1, selectedTags, searchTerm);
      fetches := fetches + [first];
      if currentPage != 1 {
        currentPage := 1;
        fetches := fetches + [first];
      }
    }

    /** Typing in the search field: the term becomes the field's text; if it
        differs from the old term, the page goes back to 1 and page 1 is
        fetched with the selected tags and the new term. */
    method SetSearchTerm(value: string)
      requires Valid()
      modifies this
      ensures Valid()
      ensures searchTerm == value && selectedTags == old(selectedTags)
      ensures value == old(searchTerm) ==> currentPage == old(currentPage) && fetches == old(fetches)
      ensures value != old(searchTerm) ==>
        currentPage == 1 && fetches == old(fetches) + FilterChangeFetches(old(currentPage), selectedTags, value)
      ensures totalContracts == old(totalContracts) && contracts == old(contracts)
    {
      if value != searchTerm {
        searchTerm := value;
        RunFilterEffect();
      }
    }

    /** Choosing tags: the selection replaces the selected tags wholesale, in
        the selector's order, and the filter effect always runs. */
    method SetSelectedTags(values: seq<string>)
      requires Valid()
      modifies this
      ensures Valid()
      ensures selectedTags == values && searchTerm == old(searchTerm) && currentPage == 1
      ensures fetches == old(fetches) + FilterChangeFetches(old(currentPage), values, searchTerm)
      ensures totalContracts == old(totalContracts) && contracts == old(contracts)
    {
      selectedTags := values;
      RunFilterEffect();
    }

    /** `handlePageChange(page)`: the page becomes `page`; when that is a
        change, the page is fetched with the filters unchanged. */
    method HandlePageChange(page: int)
      requires Valid()
      modifies this
      ensures Valid()
      ensures currentPage == page
      ensures fetches == old(fetches) + (if page != old(currentPage) then [FetchFor(page, selectedTags, searchTerm)] else [])
      ensures selectedTags == old(selectedTags) && searchTerm == old(searchTerm)
      ensures totalContracts == old(totalContracts) && contracts == old(contracts)
    {
      if page != currentPage {
        currentPage := page;
        fetches := fetches + [FetchFor(page, selectedTags, searchTerm)];
      }
    }

    /** A listing arrived: show its contracts and remember its total count. */
    method FetchSucceeded(page: ContractStore.ListPage)
      requires Valid()
      modifies this
      ensures Valid()
      ensures contracts == page.contracts && totalContracts == page.totalCount
      ensures currentPage == old(currentPage) && selectedTags == old(selectedTags)
      ensures searchTerm == old(searchTerm) && fetches == old(fetches)
    {
      contracts := page.contracts;
      totalContracts := page.totalCount;
    }

    /** `totalPages`, the page count the pager shows: the fewest pages of
        nine that hold every match, and none when nothing matches. */
    function TotalPages(): (r: int)
      reads this
      ensures r == 0 <==> totalContracts == 0
      ensures totalContracts > 0 ==>
        (r - 1) * Pagination.ItemsPerPage < totalContracts <= r * Pagination.ItemsPerPage
    {
      Pagination.TotalPages(totalContracts)
    }
  }
}
