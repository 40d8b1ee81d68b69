# To-do list: server store, HTTP envelopes and client state, in Dafny

This project models the request/response data flow of a small to-do
application. The backend is a NestJS service that keeps its items in memory.
The frontend is a React page that caches the list.

- `Todos` (todos.dfy) holds the item `{ id, title, completed }` and the one
  matching rule both sides use to search titles. The lowercased title must
  contain the lowercased term. It also holds the filter built on that rule.
- `Service` (service.dfy) models `TodosService` as a class over a
  `seq<Todo>` field. `FindAll` is a function of the store. `Create` and
  `Toggle` are methods that update the field. `Find` is the linear scan
  behind `find`. The uuid generator is replaced by an id the caller supplies,
  which must not already be in the store.
- `Controller` (controller.dfy) models `TodosController`. Pure functions map
  the service's outcome to the `{ data, status, message }` envelope. A class
  holds the service and wires each endpoint to it.
- `Filters` (filters.dfy) models `ValidationFilter.catch` as a function. It
  returns the HTTP status code and the JSON body.
- `Client` (client.dfy) models the `App` component's state as a class.
  The state is `todos`, `searchTerm`, `newTodoTitle`, `loading` and `error`.
  Each handler (`fetchTodos`, `handleAddTodo`, `handleToggleTodo`) is one
  atomic transition. The server's answer is an input to it. `filteredTodos`
  is a function of the state.
- `Scenarios` (scenarios.dfy) runs whole exchanges over fresh objects. The
  client consumes exactly what the controller and the filter produce.

The properties that matter most:
- The filter keeps exactly the matching items, in order (`FilterSelects`).
- The server's `if (search)` guard makes no difference, so the client and
  server filters agree for every term (`FindAll`, `ClientAndServerFiltersAgree`).
- Toggling twice restores the store (`ToggleTwice`).
- A failed optimistic toggle restores the exact pre-toggle list
  (`HandleToggleTodo`).
- With unique ids, the client's optimistic flip equals the server's toggle
  (`FlipMatchingAgreesWithServer`).

## Model

| member | source | states |
|---|---|---|
| `Todos.Flip` | backend/src/todos/todos.service.ts:34 | the flipped item has the same id and title and the negated `completed` |
| `Todos.FlipTwice` | backend/src/todos/todos.service.ts:34 | flipping an item twice gives back the item |
| `Todos.Lower` | backend/src/todos/todos.service.ts:13 | lowercasing keeps the length of the text |
| `Todos.LowerIdempotent` | backend/src/todos/todos.service.ts:13 | lowercasing a lowercased text changes nothing |
| `Todos.LowerHasNoUpper` | frontend/src/App.tsx:97 | no upper-case letter survives lowercasing |
| `Todos.Contains` | backend/src/todos/todos.service.ts:13 | `includes` never finds a needle longer than the text, and finds one of the text's own length exactly when the two are equal |
| `Todos.ContainsIffOccurs` | backend/src/todos/todos.service.ts:13 | the `includes` scan holds exactly when the needle occurs at some position of the text |
| `Todos.ContainsEmpty` | frontend/src/App.tsx:97 | every text includes the empty string |
| `Todos.AbsentFirstCharNotContained` | backend/src/todos/todos.service.ts:13 | a needle whose first character is absent from the text is not included |
| `Todos.Matches` | backend/src/todos/todos.service.ts:13 | the search rule of both sides (also frontend/src/App.tsx:97): a title matches its own text, and never a term longer than itself |
| `Todos.MatchesIgnoresCase` | backend/src/todos/todos.service.ts:13 | a match does not depend on the case of the title or of the term |
| `Todos.MatchesEmptyTerm` | frontend/src/App.tsx:96-98 | the empty term matches every title |
| `Todos.Filter` | backend/src/todos/todos.service.ts:12-14 | the filtered list is never longer than the list |
| `Todos.FilterSelects` | backend/src/todos/todos.service.ts:12-14 | the filter is the order-preserving subsequence of exactly the positions whose title matches |
| `Todos.FilterMembership` | frontend/src/App.tsx:96-98 | an item is shown exactly when it is in the list and its title matches |
| `Todos.FilterEmptyTerm` | frontend/src/App.tsx:96-98 | with the empty term the filter returns the whole list, in order |
| `Service.FirstIndexOf` | backend/src/todos/todos.service.ts:30 | `find` yields the first position with the id, and none exactly when no item has the id |
| `Service.FirstIndexOfIsFirst` | backend/src/todos/todos.service.ts:30 | a position with the id and no earlier one with it is what `find` yields |
| `Service.FirstIndexOfDependsOnIds` | backend/src/todos/todos.service.ts:30 | two stores with the same ids in the same order find the same position |
| `Service.NotFoundMessage` | backend/src/todos/todos.service.ts:32 | the not-found message names the id that was asked for |
| `Service.Toggled` | backend/src/todos/todos.service.ts:30-34 | the store after a toggle has the same length, and equals the store before exactly when no item has the id |
| `Service.ToggledShape` | backend/src/todos/todos.service.ts:30-35 | a toggle keeps length, order, ids and titles, and changes `completed` only at the first item with the id |
| `Service.ToggleTwice` | backend/src/todos/todos.service.ts:34 | toggling the same id twice restores the store, whether the id is present or not |
| `Service.ToggledKeepsUniqueIds` | backend/src/todos/todos.service.ts:29-36 | a toggle keeps the ids unique |
| `Service.TodosService.constructor` | backend/src/todos/todos.service.ts:8 | the store starts empty |
| `Service.TodosService.FindAll` | backend/src/todos/todos.service.ts:10-17 | no term or the empty term lists the whole store in insertion order; any term lists the filter of the store by that term; the store is only read |
| `Service.TodosService.Create` | backend/src/todos/todos.service.ts:19-27 | appends one item with the given id and title, not completed, at the end; earlier items are unchanged; returns that item; ids stay unique |
| `Service.TodosService.Find` | backend/src/todos/todos.service.ts:30 | the loop returns the position of the first item with the id, or none |
| `Service.TodosService.Toggle` | backend/src/todos/todos.service.ts:29-36 | an unknown id raises not-found, with the message naming the id, and leaves the store as it was; a present id flips the first item with it in place and returns it |
| `Controller.ListReply` | backend/src/todos/todos.controller.ts:17-33 | `status` is true exactly on success; success carries the service's list and 'berhasil mendapatkan data'; failure carries `[]` and 'terjadi kesalahan' |
| `Controller.CreateReply` | backend/src/todos/todos.controller.ts:35-51 | `status` is true exactly on success, and then `data` is the created item; failure carries null and 'terjadi kesalahan' |
| `Controller.ToggleReply` | backend/src/todos/todos.controller.ts:53-69 | `status` is true exactly on success, and then `data` is the updated item; failure carries null and 'terjadi kesalahan' |
| `Controller.FailuresIndistinguishable` | backend/src/todos/todos.controller.ts:62-67 | failure envelopes do not depend on what was thrown, so the not-found message, which names the id, never reaches the caller |
| `Controller.TodosController.constructor` | backend/src/todos/todos.controller.ts:15 | the controller holds the given service |
| `Controller.TodosController.FindAll` | backend/src/todos/todos.controller.ts:17-33 | the list endpoint always succeeds with exactly what the service lists |
| `Controller.TodosController.Create` | backend/src/todos/todos.controller.ts:35-51 | the create endpoint appends the item and answers with it and 'berhasil menambahkan data' |
| `Controller.TodosController.Toggle` | backend/src/todos/todos.controller.ts:53-69 | `status` is true exactly when the id was in the store; an unknown id gives `{ null, false, 'terjadi kesalahan' }` and no store change; a present id gives the flipped item |
| `Filters.Catch` | backend/src/common/filters/validation.filter.ts:11-24 | the code is the exception's own status; `data` is null and `status` false; a list message reports its first element; a single message passes through unchanged |
| `Filters.CatchReportsFirstMessage` | backend/src/common/filters/validation.filter.ts:20-22 | the reported message is the first of the exception's messages, and there is one exactly when it has any |
| `Client.TrimStart` | frontend/src/App.tsx:52 | the result is what follows the longest whitespace prefix of the text, and does not start with whitespace |
| `Client.TrimEnd` | frontend/src/App.tsx:52 | the result is what precedes the longest whitespace suffix of the text, and does not end with whitespace |
| `Client.Trim` | frontend/src/App.tsx:52 | `trim()` is no longer than the text, and neither starts nor ends with whitespace |
| `Client.TrimIsSlice` | frontend/src/App.tsx:52 | `trim()` is the slice of the text at some offset, with only whitespace before and after it |
| `Client.TrimStartEmpty` | frontend/src/App.tsx:52 | trimming the front leaves nothing exactly for blank text, and otherwise leaves a non-whitespace first character |
| `Client.TrimEndEmpty` | frontend/src/App.tsx:52 | trimming the end leaves nothing exactly for blank text |
| `Client.TrimEmptyIffBlank` | frontend/src/App.tsx:52 | `trim()` gives the empty string exactly when the title is all whitespace |
| `Client.AddFailureMessage` | frontend/src/App.tsx:67 | the add error is the server's message unless it is missing or empty, else 'Gagal menambahkan data'; it is never empty |
| `Client.FlipMatching` | frontend/src/App.tsx:77-79 | same length, ids and titles; `completed` changes exactly on the items with the id |
| `Client.FlipMatchingTwice` | frontend/src/App.tsx:77-79 | two optimistic flips of the same id give back the list |
| `Client.FlipMatchingAgreesWithServer` | frontend/src/App.tsx:77-79 | with unique ids the optimistic list equals the server's store after the same toggle |
| `Client.App.constructor` | frontend/src/App.tsx:18-22 | empty list and inputs, not loading, no error |
| `Client.App.FilteredTodos` | frontend/src/App.tsx:96-98 | the table is the cached list filtered by the search term: exactly the cached items whose title matches it; an empty term shows the whole list |
| `Client.App.FetchTodos` | frontend/src/App.tsx:27-44 | the error is cleared first; a success replaces the list; `status` false keeps the list and shows the server message; a transport error shows 'Gagal mengambil data dari server'; loading ends false |
| `Client.App.HandleAddTodo` | frontend/src/App.tsx:50-72 | a blank title changes nothing, loading included; a success appends the server's item at the end and clears the input; a failure keeps the list and shows the server message or the fallback; loading ends false |
| `Client.App.HandleToggleTodo` | frontend/src/App.tsx:74-93 | a confirmed toggle keeps the optimistic flip and does not merge the returned item; a refusal or transport error restores the exact pre-toggle list and sets the error; loading is untouched |
| `Client.ClientAndServerFiltersAgree` | frontend/src/App.tsx:96-98 | the table and the server's search select the same items from the same list, for every term |
| `Scenarios.CreateThenList` | backend/src/todos/todos.service.ts:10-27 | after creating "Buy milk", listing gives that one item, not completed |
| `Scenarios.CreateTwiceThenSearch` | backend/src/todos/todos.service.ts:10-27 | after "Buy milk" and "Wash car", searching "wash" gives only "Wash car" |
| `Scenarios.ToggleTwiceOverHttp` | backend/src/todos/todos.controller.ts:53-69 | toggling one item twice over the endpoint answers completed, then not completed |
| `Scenarios.ToggleUnknownOverHttp` | backend/src/todos/todos.controller.ts:62-67 | toggling an unknown id answers the generic failure and the store stays empty |
| `Scenarios.FetchMirrorsStore` | frontend/src/App.tsx:27-44 | after a fetch the client shows exactly the server's store |
| `Scenarios.RefusedToggleRollsBack` | frontend/src/App.tsx:76-88 | the optimistic flip changes a cached item the server does not hold; the refusal restores the list as it was before the flip and shows 'terjadi kesalahan' |
| `Scenarios.ConfirmedToggleMatchesServer` | frontend/src/App.tsx:74-93 | after a confirmed toggle the client cache equals the server store |
| `Scenarios.RejectedTitleShowsFirstMessage` | frontend/src/App.tsx:66-68 | for a chosen 400 validation rejection of the title, the client shows the first validation message and keeps its list |

## Left out

- Case folding covers ASCII letters only. JavaScript's `toLowerCase` folds all of Unicode. Client and server share the same `Lower`, so they still agree.
- `uuidv4()` is not modelled. `Create` takes the id as a parameter and requires that it is not in the store yet.
- The `CreateTodoDto` rules and NestJS's `ValidationPipe` are not part of this model (its rules lie outside this model). The service accepts any title. Rejection reaches the model only through `Filters.Catch`.
- Framework wiring is not modelled: decorators, dependency injection, routing, the query and path parameters, bootstrap, CORS and `listen` (backend/src/main.ts).
- A `search` query given several times arrives as an array. That case is not modelled; the term is absent or one string.
- `Filters.Catch` handles only three shapes of the exception's `message`: one string, a list of strings, or missing. Other JSON values are not modelled. An empty list reports no message, like JavaScript's `undefined`.
- The Express `Response` is not modelled. The filter returns the status code and body instead of writing them.
- The frontend's transport is not modelled: axios, `async`/`await`, React's batching of state updates and re-rendering. Each handler is one atomic transition, and the server's answer is an argument.
- Concurrent toggles are not modelled, including the stale snapshot a second toggle can capture while the first is in flight.
- `Client.App.HandleAddTodo` requires that a `status` true reply carries an item. That is what the client's `ApiResponse<Todo>` type assumes, and `Controller.CreateReply` guarantees it. A reply with `status` true and `data` null is not modelled.
- Rendering (the JSX) is not modelled, and neither are the inline `onChange` setters for the two inputs. `console.log` and `console.error` are not modelled.
- `Controller.TodosController.FindAll` and `Create` never take their failure branch in this model, because the modelled service never throws there. That branch is stated on its own by `ListReply` and `CreateReply` with a `Failure` input.
