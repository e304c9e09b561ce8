# LensContract, modelled in Dafny

LensContract keeps service contracts. A contract is a name, an ordered list of
priced tasks and a list of tags; its total is the sum of the task amounts. A
FastAPI backend stores contracts in MongoDB and lists them with tag and name
filters and skip/limit paging. It also keeps vocabularies of known task names
and tags, and it computes a summary. A React client shows the contracts nine
per page, lets the user filter them by tags and name, and creates or edits
them in a form that checks the tasks before it submits.

This project models that logic and proves properties of it:

- `schema.dfy` (`Schema`): the contract body and its computed total.
- `contract_store.dfy` (`ContractStore`): the contract endpoints over a store
  object. The store holds the documents in insertion order, a map from
  ObjectId to document, and the two vocabularies.
- `object_ids.dfy` (`ObjectIds`): ObjectIds and their 24-digit hexadecimal
  text.
- `users.dfy` (`Users`): the in-memory user table and registration.
- `pagination.dfy` (`Pagination`): page arithmetic, the "Showing X - Y of N"
  caption and the page buttons.
- `app.dfy` (`App`): the top-level view as a state machine, recording every
  list request it makes.
- `home_content.dfy` (`HomeContent`): the filtered listing as a state
  machine. The listing has a filter effect and a page effect, and every
  service call it makes is recorded.
- `contract_form.dfy` (`ContractForm`): the form's task-list operations, its
  submit checks and the form object.
- `contract_service.dfy` (`ContractService`): the HTTP requests the client
  service sends.
- `end_to_end.dfy` (`EndToEnd`): lemmas that follow data from the client to
  the backend and back.
- `text.dfy` (`Text`) and `results.dfy` (`Results`) hold helpers:
  - JavaScript `trim` and `join`;
  - Python `split`;
  - integer rendering and parsing;
  - `Option` and `Result`.

Amounts are exact `real` numbers.

Three things the code does are beyond Dafny's reach, so they are given to
the model as parameters:

- the case-insensitive regular-expression match (`regexMatch(pattern, name)`) and
  which search terms are valid patterns (`regexValid`);
- the password hash (`hash`);
- the ObjectId the driver generates for a new document (`newId` of `Create`).

The views are modelled as classes whose fields are the component state.
Effects and handlers are methods. Each request a view sends is appended to a
log field (`requests`, `fetches`), so the contracts can say exactly which
calls a handler makes.

Three places where the code behaves differently from a plain reading of the
intended design. The model follows the code in each:

- A filter change in the filtered listing does not always issue exactly one
  list request. The filter effect resets the page and fetches page 1.
  - When the page was not 1, the reset also re-runs the page effect. That
    fetches page 1 with the same filters a second time (`HomeContent.FilterChangeFetches`).
  - Typing a search term equal to the current one changes no state and fetches nothing.
  - Every tag selection hands over a new array, so it always fetches.
  - Mounting the listing fetches page 1 twice.
- The form's submit handler does not check the contract name. Only the name
  input's `required` attribute asks for one, and the browser enforces that
  before the handler runs. The name is sent as held, untrimmed.
- `update_contract` answers 404 both for an absent id and for an update that
  changes nothing, because it tests `modified_count == 1`.

## Model

| member | source | states |
|---|---|---|
| Schema.SumAppend | backend/schemas/contract.py:15-18 | appending a task raises the total by exactly that task's amount |
| Schema.SumConcat | backend/schemas/contract.py:18 | the total of concatenated task lists is the sum of their totals |
| Schema.TotalDependsOnTasksOnly | backend/schemas/contract.py:10-18 | two contracts with the same tasks have the same total, whatever their names and tags |
| Schema.PositiveAmountsGivePositiveTotal | backend/schemas/contract.py:15-18 | a non-empty task list with every amount positive has a positive total |
| Schema.SchemaAdmitsNegativeTotal | backend/schemas/contract.py:5-13 | the schema accepts a task with a negative amount, giving a total of -5 |
| ObjectIds.ToString | backend/routers/contracts.py:52 | `str(_id)` is 24 hexadecimal digits |
| ObjectIds.Parse | backend/routers/contracts.py:60 | `ObjectId(text)` succeeds exactly on 24 hexadecimal digits |
| ObjectIds.ParseToString | backend/routers/contracts.py:52-60 | the text form of every id parses back to that id |
| ObjectIds.ToStringInjective | backend/routers/contracts.py:52 | distinct ids have distinct text forms |
| Text.TrimIsEmptyIffBlank | frontend/src/components/ContractForm.tsx:80 | `trim() === ''` holds exactly for whitespace-only names |
| Text.Split | backend/routers/contracts.py:45 | `split(",")` gives at least one piece, and no piece contains a comma |
| Text.SplitJoin | backend/routers/contracts.py:45 | splitting a comma join gives back a non-empty list whose parts have no commas |
| Text.JoinSplit | frontend/src/services/contractService.ts:30 | joining the pieces of a split gives back any string |
| Text.ParseIntRoundTrip | backend/routers/contracts.py:37-38 | an integer rendered by the client is parsed back to the same integer |
| ContractStore.Filter | backend/routers/contracts.py:43-49 | the matches are exactly the documents that pass both filters, in store order and without repeats |
| ContractStore.Window | backend/routers/contracts.py:51 | the window holds the elements from `skip` on, at most `limit` of them (0 meaning no limit), with its length given exactly |
| ContractStore.Without | backend/routers/contracts.py:84 | removing an id keeps every other id in order; nothing changes when the id is absent; the store order stays free of duplicates |
| ContractStore.UpsertedMembers | backend/routers/contracts.py:22-29 | after the upserts a vocabulary holds exactly its old names and the new ones |
| ContractStore.UpsertIdempotent | backend/routers/contracts.py:22-29 | upserting the same names again leaves the vocabulary unchanged |
| ContractStore.GroupCount | backend/routers/contracts.py:99-117 | the grouping has a key exactly for each occurring value, counting its occurrences |
| ContractStore.SumTotalsIsTaskSum | backend/routers/contracts.py:92-97 | when stored totals are task sums, their sum is the sum of all task amounts |
| ContractStore.ByTasksCountsOccurrences | backend/routers/contracts.py:108-117 | one contract with two tasks of the same name counts 2 for that name |
| ContractStore.Store.constructor | backend/routers/contracts.py:14-31 | a new store is empty and satisfies the store invariant |
| ContractStore.Store.Create | backend/routers/contracts.py:14-31 | appends one document with the computed total, leaves the others unchanged, upserts every task name and tag, and returns the new id's text; an id collision changes nothing and answers 500 |
| ContractStore.Store.UpsertTaskNames | backend/routers/contracts.py:22-25 | the task-name vocabulary becomes the old one with every task name upserted in order; the rest of the store is untouched |
| ContractStore.Store.UpsertTags | backend/routers/contracts.py:28-29 | the tag vocabulary becomes the old one with every tag upserted in order; the rest of the store is untouched |
| ContractStore.Store.List | backend/routers/contracts.py:34-55 | a non-empty search term that is not a valid pattern fails with a 500; otherwise `total_count` counts all matches and the contracts are the views of the matches in the skip/limit window |
| ContractStore.Store.Get | backend/routers/contracts.py:58-65 | a malformed id fails with a 500, an absent id is 404, a present id gives its view; a failure is 404 exactly when the id is well formed |
| ContractStore.Store.Update | backend/routers/contracts.py:68-79 | ok and the document replaced only when it exists and changes; 404 otherwise, 500 for a malformed id; the order and vocabularies are untouched |
| ContractStore.Store.Delete | backend/routers/contracts.py:82-87 | a present id removes exactly that document; an absent id is 404 and a malformed one 500, and nothing changes |
| ContractStore.Store.Summary | backend/routers/contracts.py:90-124 | the contract count, the sum of all task amounts, and occurrence counts per tag and per task name |
| Users.Seed | backend/main.py:17-25 | the initial table holds exactly `testuser`, with the hash of `testpassword` |
| Users.Register | backend/main.py:46-58 | a taken name gives 400 and no change; a new name adds exactly that key with the hashed password and returns the user without it |
| Users.SecondRegistrationFails | backend/main.py:49-50 | a second registration of a name always fails and changes nothing |
| Users.TestUserIsTaken | backend/main.py:49-50 | the seeded `testuser` cannot be registered |
| Users.UsersDb.constructor | backend/main.py:17-25 | the table starts as the seed |
| Users.UsersDb.RegisterUser | backend/main.py:46-58 | the in-place registration gives the response and the table `Register` describes |
| Pagination.Skip | frontend/src/App.tsx:29-31 | the offset of a page from 1 on is a non-negative multiple of 9 |
| Pagination.TotalPages | frontend/src/App.tsx:51 | 0 pages exactly for no contracts; otherwise the fewest pages of 9 that hold them all |
| Pagination.ShowingRange | frontend/src/App.tsx:99 | for every page number, the caption starts at the page offset + 1; within the listing it spans at most 9 contracts, ending no later than the total; every page before the last is full |
| Pagination.EmptyListingKeepsNextEnabled | frontend/src/App.tsx:101-111 | with no contracts, Previous is disabled on page 1 and Next is not |
| Pagination.NextDisabledOnlyOnLastPage | frontend/src/App.tsx:109 | on a non-empty listing, Next is disabled exactly on the page holding the last contract, for every page number |
| Pagination.PageItems | frontend/src/App.tsx:104-108 | one button per page number 1..totalPages; only the current page's button is active |
| App.RequestFor | frontend/src/App.tsx:29-31 | a page is requested with limit 9 and its page offset |
| App.RequestNamesItsPage | frontend/src/App.tsx:30-31 | distinct pages give distinct requests |
| App.AppView.constructor | frontend/src/App.tsx:22-44 | mounting starts on page 1 with nothing listed and the modal closed, and requests page 1 |
| App.AppView.HandlePageChange | frontend/src/App.tsx:53-55 | the page becomes the given number, unclamped; that page is requested iff the page changed |
| App.AppView.LocationChanged | frontend/src/App.tsx:42-44 | a navigation requests the current page again |
| App.AppView.HandleContractCreated | frontend/src/App.tsx:46-49 | the current page is requested again and the modal closes |
| App.AppView.SetShowModal | frontend/src/App.tsx:62-72 | the modal buttons set only the modal flag |
| App.AppView.FetchSucceeded | frontend/src/App.tsx:32-35 | a response sets the contracts and the total count and nothing else |
| App.AppView.PageButtons | frontend/src/App.tsx:104-108 | one button per page of the total, the current page's the only active one |
| HomeContent.FetchFor | frontend/src/components/HomeContent.tsx:29-31 | every fetch passes the page, 9, the tags and the term |
| HomeContent.FilterChangeFetches | frontend/src/components/HomeContent.tsx:54-61 | a filter change fetches page 1 with the new filters, twice when the page was not 1 |
| HomeContent.HomeView.constructor | frontend/src/components/HomeContent.tsx:21-61 | mounting starts on page 1 without filters and fetches page 1 twice |
| HomeContent.HomeView.RunFilterEffect | frontend/src/components/HomeContent.tsx:54-57 | the page becomes 1, the filters are kept, and the filter-change fetches are made |
| HomeContent.HomeView.SetSearchTerm | frontend/src/components/HomeContent.tsx:78 | the term becomes the input; a changed term resets the page to 1 and fetches page 1 with the new filters; the same term does nothing else |
| HomeContent.HomeView.SetSelectedTags | frontend/src/components/HomeContent.tsx:85 | the tags are replaced wholesale, in order; the page resets to 1 and page 1 is fetched with them |
| HomeContent.HomeView.HandlePageChange | frontend/src/components/HomeContent.tsx:59-67 | a page change fetches that page with the filters unchanged |
| HomeContent.HomeView.FetchSucceeded | frontend/src/components/HomeContent.tsx:31-33 | a response sets the contracts and the total count and nothing else |
| HomeContent.HomeView.TotalPages | frontend/src/components/HomeContent.tsx:63 | 0 exactly when nothing matches; otherwise the fewest pages of 9 that hold every match |
| ContractService.GetContracts | frontend/src/services/contractService.ts:24-37 | skip then limit first; a comma-joined `tags` iff tags are selected; `search` last iff the term is non-empty |
| ContractService.LookupFindsTheFirst | frontend/src/services/contractService.ts:26-34 | a parameter lookup finds nothing iff no entry has the key, and otherwise the value of the first entry with it |
| ContractService.RouteContractId | backend/routers/contracts.py:58 | a route match gives a path of the form `/contracts/` + one non-empty segment |
| ContractService.CallsTargetTheirContract | frontend/src/services/contractService.ts:39-57 | get, update and delete reach the route of their own id; only update has a body, exactly the given data |
| ContractService.CreateTargetsTheCollection | frontend/src/services/contractService.ts:44-47 | create posts exactly the given data to `/contracts` |
| ContractForm.WithTaskEdit | frontend/src/components/ContractForm.tsx:56-60 | one field of one task changes; the other field, the other tasks and the length are kept |
| ContractForm.WithNewTask | frontend/src/components/ContractForm.tsx:62-64 | one more task, the blank task last, the earlier tasks unchanged |
| ContractForm.WithoutTask | frontend/src/components/ContractForm.tsx:66-69 | an index in range drops exactly that task; any other index leaves the list unchanged |
| ContractForm.RemovedTaskShiftsTheRest | frontend/src/components/ContractForm.tsx:66-69 | after a removal the earlier tasks stay in place and the later ones move down by one |
| ContractForm.RemoveUndoesAdd | frontend/src/components/ContractForm.tsx:62-69 | removing the task just added restores the list |
| ContractForm.TaskRejection | frontend/src/components/ContractForm.tsx:79-88 | no rejection exactly when every task has a non-blank name and a positive amount |
| ContractForm.RejectedAtFirstFailingTask | frontend/src/components/ContractForm.tsx:79-88 | the rejection comes from the first failing task, with the name checked before the amount |
| ContractForm.Rejected | frontend/src/components/ContractForm.tsx:74-88 | an empty list is refused first; the tasks pass exactly when the list is non-empty and every task is valid |
| ContractForm.AcceptedTasksHavePositiveTotal | frontend/src/components/ContractForm.tsx:74-88 | tasks the form accepts have a positive total |
| ContractForm.Form.constructor | frontend/src/components/ContractForm.tsx:23-54 | the fields start empty, or as the given contract's |
| ContractForm.Form.ReceiveContract | frontend/src/components/ContractForm.tsx:48-54 | a given contract is copied into the fields; a null one leaves them as they are |
| ContractForm.Form.SetName | frontend/src/components/ContractForm.tsx:118 | the name becomes the input, nothing else changes |
| ContractForm.Form.SetTags | frontend/src/components/ContractForm.tsx:151 | the tags become the selection, nothing else changes |
| ContractForm.Form.HandleTaskChange | frontend/src/components/ContractForm.tsx:56-60 | the tasks become the edited list, nothing else changes |
| ContractForm.Form.AddTask | frontend/src/components/ContractForm.tsx:62-64 | the tasks gain a blank task at the end, nothing else changes |
| ContractForm.Form.RemoveTask | frontend/src/components/ContractForm.tsx:66-69 | the tasks lose the given index, nothing else changes |
| ContractForm.Form.SubmitLabel | frontend/src/components/ContractForm.tsx:155 | "Update Contract" iff a contract is given, "Create Contract" iff not |
| ContractForm.Form.HandleSubmit | frontend/src/components/ContractForm.tsx:71-111 | the first failing check's alert and no call; otherwise exactly one update of the given contract's id, or one create, with `{name, tasks, tags}` as held |
| ContractForm.Form.SubmitSettled | frontend/src/components/ContractForm.tsx:92-111 | success notifies the parent; only a successful create clears the fields |
| EndToEnd.ListRequestRoundTrip | frontend/src/services/contractService.ts:24-37 | the backend accepts the request and reads back the requested skip, limit, tags and term (tags without commas, not the single empty tag) |
| EndToEnd.MissingWindowGetsTheFirstTen | backend/routers/contracts.py:37-38 | a request without `skip` and `limit` is read with the defaults 0 and 10, so it gets the first ten matches |
| EndToEnd.NonIntegerWindowIsRejected | backend/routers/contracts.py:37-38 | a `skip` or `limit` that is not an integer makes the backend refuse the request |
| EndToEnd.SingleEmptyTagIsIgnored | backend/routers/contracts.py:44-45 | selecting only the empty tag sends `tags=`, which the backend accepts and ignores |
| EndToEnd.BothFiltersMustHold | backend/routers/contracts.py:43-47 | with both filters a document matches iff it has one of the tags and its name matches |
| EndToEnd.PageOf | frontend/src/App.tsx:30 | the page number whose offset range holds a given position |
| EndToEnd.EveryMatchOnExactlyOnePage | frontend/src/App.tsx:30-31 | each match is on exactly one numbered page, and that page's window holds it |
| EndToEnd.CaptionCountsTheWindow | frontend/src/App.tsx:99 | the caption counts exactly the contracts that page's request returns |
| EndToEnd.ListedIdFetchesTheSameContract | backend/routers/contracts.py:52-63 | the id a listing shows fetches the same contract |
| EndToEnd.AcceptedContractHasPositiveTotal | frontend/src/components/ContractForm.tsx:74-101 | a contract the form sends carries the form's fields and is stored with a positive total |
| EndToEnd.UpdateReachesTheEditedContract | frontend/src/components/ContractForm.tsx:92-93 | an edit form's update reaches the route of the contract it edits |

## Left out

- HTTP transport, axios and the `api` module are not part of this model. Requests are values of `ContractService.Request`. The URL encoding of query values and the JSON encoding of bodies are not modelled.
- React rendering, MUI, react-select and react-router are not modelled. Effects are modelled by what they do when their dependencies change.
- Asynchronous behaviour is not modelled: promise ordering, stale responses of overlapping fetches, and failed fetches (these only alert). A response is applied by the `FetchSucceeded` methods, and a settled submit by `ContractForm.Form.SubmitSettled`.
- The Login, Register, ContractDetail and Summary views and `PrivateRoute.tsx` are not modelled. They call the API, write and read the token in local storage, navigate, render and alert.
- The read-only `/tasks` and `/tags` routers, the Mongo client, and the service's `getTasks`, `getTags` and `getSummary` wrappers are not modelled. The vocabularies are the `taskNames` and `tagNames` fields of `ContractStore.Store`.
- The form's suggestion loading when the modal opens is not modelled. Neither is the listing's tag-option loading: `fetchTags` reads an undefined `response`, so it never sets the options.
- The authentication module is not part of this model. It holds `get_password_hash`, login, tokens and `get_current_user`. The hash is the `hash` parameter, and every contract endpoint is modelled as called by an authenticated user.
- The regular-expression search is the `regexMatch` parameter, so its case-insensitive matching is not modelled. Which patterns the database accepts is the `regexValid` parameter; the 500 for a refused pattern is modelled as `InvalidPattern`.
- ObjectId generation (clock, machine and counter) is not modelled. `ContractStore.Store.Create` is given the new id.
- `ObjectIds.Parse`: a malformed id raises InvalidId in the backend. The server answers that with a 500, modelled as `InvalidObjectId`. The 12-byte value is modelled as a number below 2^96.
- Floating point is not modelled: `parseFloat` giving NaN, `toFixed`, and rounding in sums. Amounts are exact reals.
- FastAPI's coercion of query strings is modelled only for an optional `-` followed by decimal digits (`Text.ParseInt`), the form the client writes. Other spellings FastAPI's integer coercion may accept, such as a leading `+` or surrounding spaces, are read as not an integer. The body of the 422 answer is not modelled.
- Negative `skip` or `limit` values are not modelled. Mongo rejects a negative skip, so `ContractStore.Store.List` takes both as natural numbers. A page number below 1 on the client therefore has no server-side counterpart here.
- ContractForm.Form.HandleTaskChange: requires an index of an existing task, because the form only offers edits on rendered rows. The JavaScript write past the end of the array, which would leave holes, is not modelled.
- ContractForm.Form.ReceiveContract: models a new `contract` prop object. A re-render with the same object does not re-run the pre-fill effect, and object identity is not modelled.
- The listing's natural `find` order is modelled as insertion order, and `_id` is the only unique index.
- `App.AppView`: the `location` dependency is modelled as the `LocationChanged` method. The route contents are not modelled.
