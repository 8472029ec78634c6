# Facebook Friend Search: the search-request lifecycle

This project models the `FBFS` widget of `src/fbfs.js` in Dafny. The widget is a
search box over the user's friend list. Each keystroke runs `onSearch`. A
non-empty search sets the `state-searching` class and sends one friend query to
the remote API. The response callback shows results only when the request id it
captured still equals the widget's counter `current_request` ("latest request
wins"). It then either reports an error to `errorCallback`, shows the returned
rows in reverse order, or marks the list empty. A click on a shown friend passes
the friend's record to `onUserSelect` and, under `autoclose`, empties the list.

Layout:

- `js_values.dfy` (module `JsValues`): the JavaScript semantics the widget relies on.
  - `Num = Undefined | NaN | Int`, with `++` (`Inc`) and `===` (`StrictEquals`).
  - `Hook`: the value of a callback option. It is falsy, a function, or truthy but not callable.
  - ASCII `toLowerCase` (`Lower`).
- `settings.dfy` (module `Settings`): friend records, the option bag, the default item template, and the constructor's `$.extend` merge of user options over the defaults.
- `lifecycle.dfy` (module `Lifecycle`): the widget state as a datatype and its three events as functions.
  - `Search` is `onSearch`.
  - `Deliver` is the response callback.
  - `Click` is the item click handler.
  - Around them: the invariant of reachable states and the single-event properties.
- `traces.dfy` (module `Traces`): arbitrary sequences of events.
  - Responses arrive in any order, each under the ticket of the query it answers, and at most once.
  - Proved here: latest-wins, responses arriving out of order, clearing the field while a search is in flight, and the consequences of the uninitialised counter.
- `widget.dfy` (module `Widget`): the class `Fbfs`.
  - The counter, both flags and the displayed list are fields that the handlers update in place.
  - The response handler builds the list with the source's descending loop.
  - Each handler is proved to take the object to the state the matching `Lifecycle` function gives, and to append that function's side effects to a ghost log.

The counter is never initialised. Neither the constructor (src/fbfs.js:35-62)
nor the prototype assigns `current_request`, so the first `++` yields `NaN`.
Every later `++` yields `NaN` too, and `NaN !== NaN`, so the guard at
src/fbfs.js:100 rejects every response. The model keeps both behaviours:

- `Widget.Fbfs.constructor` leaves the counter `Undefined`, as the code does. `Traces.AsWrittenShowsNothing` proves that no sequence of events then ever shows a result or calls a callback.
- `Widget.Fbfs.WithCounter` starts the counter at `Int(0)`. This is the behaviour the guard's comment describes, and all other properties are proved for it. The invariant `Lifecycle.Inv` covers both counters.

On an error response for the current request, the searching flag is left set,
as the code does (src/fbfs.js:105-110). The counter is incremented before the
empty-input check (src/fbfs.js:81, 84), so an empty search also supersedes any
query in flight.

## Model

| member | source | states |
|---|---|---|
| `JsValues.Inc` | src/fbfs.js:81 | `++` keeps an integer counter an integer and makes it larger. `undefined` and `NaN` both become `NaN`, which absorbs every later increment. |
| `JsValues.StrictEquals` | src/fbfs.js:100 | `===` on counter values is equality, except that `NaN` equals nothing, not even itself. |
| `JsValues.Lower` | src/fbfs.js:76 | Lower-casing keeps the length, maps each character on its own, and leaves no upper-case ASCII letter. |
| `Settings.MergeOptions` | src/fbfs.js:38-44 | Every option the caller gives wins. Every absent one takes its default: `onUserSelect` and `errorCallback` false, `user_limit` 10, the prototype template, `autoclose` true. |
| `Settings.DefaultUserTemplate` | src/fbfs.js:151-158 | The default template renders a friend as one `li` element of class `fbfs-user`: the markup opens with that tag and ends with its closing tag. |
| `Settings.OnlyCallbackGiven` | test/fbfs_test.js:36-42 | A caller that passes only `onUserSelect` gets exactly that callback, with every other option at its default: `user_limit` 10, `autoclose` true, no `errorCallback`, the prototype template. |
| `Lifecycle.ReverseAt` | src/fbfs.js:116-120 | Reversal keeps the length and puts element `len-1-k` at position `k`. |
| `Lifecycle.RenderReversed` | src/fbfs.js:116-121 | A list whose item `k` renders row `len-1-k` is exactly the rendering of the reversed rows. |
| `Lifecycle.Search` | src/fbfs.js:73-95 | `onSearch` always increments the counter. It has a side effect (one query) exactly when the input is non-empty, and then adds exactly one issued query. Queries already issued are kept. An empty input empties the list and leaves the outstanding tickets alone. |
| `Lifecycle.Accepts` | src/fbfs.js:99-102 | The guard passes exactly when the counter is not `NaN` and equals the id the callback captured. |
| `Lifecycle.Deliver` | src/fbfs.js:96-126 | A response never changes the counter or the issued queries, and removes only its own ticket from the outstanding ones. A rejected response changes nothing visible and has no effect. At most one effect happens, and only for a string `error_code`. |
| `Lifecycle.Click` | src/fbfs.js:128-138 | A click changes nothing but the displayed list, which either stays or becomes empty. It causes at most one callback. |
| `Lifecycle.InitialInv` | src/fbfs.js:35-62 | The freshly constructed state (marked empty, nothing shown, no query) is reachable, whatever the counter's start value. |
| `Lifecycle.SearchPreservesInv` | src/fbfs.js:73-95 | A search keeps the captured ids strictly increasing and not above an integer counter. It keeps them all `NaN` for a non-integer counter. |
| `Lifecycle.DeliverPreservesInv` | src/fbfs.js:96-126 | A response keeps the reachable-state invariant. |
| `Lifecycle.ClickPreservesInv` | src/fbfs.js:128-138 | A click keeps the reachable-state invariant. |
| `Lifecycle.SearchCounts` | src/fbfs.js:81-84 | Every search increments the counter, an empty one too. No query already issued is altered. |
| `Lifecycle.EmptySearch` | src/fbfs.js:84-88 | Empty input empties the displayed list and sets the empty flag. It issues no query, has no side effect, and leaves the searching flag as it was. |
| `Lifecycle.NonEmptySearch` | src/fbfs.js:75-95 | Non-empty input sets the searching flag and issues exactly one query, for the lower-cased text and `user_limit`, under the new counter value. The list and the empty flag are untouched. |
| `Lifecycle.StaleResponseIgnored` | src/fbfs.js:99-102 | A response whose captured id is not the counter's value changes nothing else and calls no callback. Only its pending mark goes. |
| `Lifecycle.CurrentErrorResponse` | src/fbfs.js:104-110 | A current response with a string `error_code` leaves flags, list, counter and issued queries unchanged, and removes only its own ticket. It calls `errorCallback` once with the payload if that option is a function, and calls nothing if it is falsy. |
| `Lifecycle.CurrentRowsResponse` | src/fbfs.js:112-121 | A current non-empty response clears both flags and shows one item per row, item `k` carrying row `len-1-k` and its template markup. Counter and issued queries are unchanged, and only its own ticket leaves the outstanding ones. |
| `Lifecycle.TwoRowsDisplayedReversed` | src/fbfs.js:116-121 | Rows Bob then Ann are shown as Ann then Bob. |
| `Lifecycle.CurrentEmptyResponse` | src/fbfs.js:112-125 | A current response without rows clears the searching flag and sets the empty flag. It keeps the previously shown items, the counter, the issued queries and the other outstanding tickets. |
| `Lifecycle.ClickItem` | src/fbfs.js:128-138 | A click calls `onUserSelect` with the clicked item's record only when that option is a function. With `autoclose` it then empties the list, without `autoclose` the list stays. Nothing else in the state changes. |
| `Lifecycle.LatestWins` | src/fbfs.js:99-102 | In a reachable state, the guard accepts a response if and only if the counter is an integer, the query is the last one issued, and no search has happened since. |
| `Lifecycle.SearchSupersedes` | src/fbfs.js:81-102 | Any search, empty or not, makes the guard reject the response of every query issued before it. |
| `Traces.StepPreservesInv` | src/fbfs.js:73-139 | Any single event keeps the reachable-state invariant. |
| `Traces.RunPreservesInv` | src/fbfs.js:73-139 | Any sequence of events keeps the reachable-state invariant. |
| `Traces.CounterCountsSearches` | src/fbfs.js:81 | Over any sequence of events, an integer counter grows by exactly the number of searches. So ids are strictly increasing and never reused. |
| `Traces.RunKeepsCalls` | src/fbfs.js:92-95 | Issued queries, with their captured ids, are never altered or forgotten. |
| `Traces.StepKeepsStale` | src/fbfs.js:99-102 | A response the guard rejects is still rejected after any single event. |
| `Traces.StaleStaysStale` | src/fbfs.js:99-102 | A response the guard rejects is rejected after any sequence of events. |
| `Traces.SupersededNeverApplies` | src/fbfs.js:81-102 | A query outstanding when a new search happens has no effect whenever its response arrives, after any events, not even the error callback. |
| `Traces.OutOfOrderArrival` | src/fbfs.js:96-121 | Two searches are answered second-first. The late first response changes nothing visible and calls nothing, so whatever the second response left shown stays shown. With an integer counter and rows in the second response, the widget ends showing those rows, last first, with both flags cleared. |
| `Traces.ClearedWhileSearching` | src/fbfs.js:84-102 | Typing then clearing before the response arrives shows an empty list marked empty. The searching flag is never cleared, because the response is stale. |
| `Traces.BlankStaysBlank` | src/fbfs.js:81-102 | Once the counter is not an integer and nothing is shown, every event keeps it so and causes no callback. |
| `Traces.AsWrittenShowsNothing` | src/fbfs.js:81-102 | With the counter left `undefined`, no sequence of events ever shows a result or calls `onUserSelect` or `errorCallback`. |
| `Traces.AsWrittenDropsResponse` | src/fbfs.js:81-121 | One search and its one-row response: nothing is shown with the counter as written, and the row is shown with a counter starting at 0. |
| `Widget.Fbfs.constructor` | src/fbfs.js:35-62 | Builds the widget as the code does: merged options, `state-empty` set, counter `undefined`. |
| `Widget.Fbfs.WithCounter` | src/fbfs.js:35-62 | Builds the widget as the constructor does, but with the counter starting at 0. |
| `Widget.Fbfs.OnSearch` | src/fbfs.js:73-95 | Updates the fields in place to the state `Lifecycle.Search` gives, and logs its query. Returns the query handed to the remote API if and only if the input is non-empty. |
| `Widget.Fbfs.OnResponse` | src/fbfs.js:96-126 | Updates the fields in place, building the list with the descending loop, to the state `Lifecycle.Deliver` gives. Logs the error callback's call. |
| `Widget.Fbfs.OnItemClick` | src/fbfs.js:128-138 | Updates the list in place to the state `Lifecycle.Click` gives, and logs the `onUserSelect` call. |
| `Widget.LatestSearchWins` | src/fbfs.js:73-126 | On a widget whose counter starts at 0, two searches answered second-first end with the second response shown, reversed. |
| `Widget.AsWrittenShowsNoResult` | src/fbfs.js:73-126 | On a widget built as written, a search and its response leave nothing shown. |

## Left out

- DOM and jQuery plumbing is left out: element lookup, the `keyup` and clear-button bindings (src/fbfs.js:45-60) and the `$.fn.fbfs` plugin (src/fbfs.js:184-189). A clear-button click is an empty search (`Typed("")`). Flags and list are fields, not classes on elements. The displayed list is assumed empty, and the widget's element is assumed not to carry `state-searching`, when the widget is built.
- The remote call `FB.api` (src/fbfs.js:92-95) is left out. Issuing a query is a logged `QueryIssued` effect plus a pending ticket. Its response is a later event carrying that ticket and the captured id. A response is delivered at most once, as the API calls back once per request.
- The friend-query template `searchUsersFQL` (src/fbfs.js:169-177) is not rendered. A query is the pair of values substituted into it, the lower-cased name and the limit. The FQL text, including its missing space before `LIMIT`, is not modelled.
- The item template: `userTemplate` is a function-valued option. The default writes the record's `uid` and `name` into the markup as they are. Handlebars' HTML escaping is not modelled. The markup is not parsed either: each rendered row counts as exactly one list item.
- `JsValues.Lower`: only lower-cases ASCII letters, not the full Unicode case mapping of `toLowerCase`.
- `JsValues.Num`: models the counter as an unbounded integer, not a double, so the loss of precision past 2^53 increments is not captured.
- Callbacks are logged, not run. A callback that throws, or that re-enters the widget (for instance by calling `onSearch`), is not modelled. A truthy `errorCallback` that is not a function is modelled as an uncaught `TypeError` (`ErrorCallbackThrew`) with no other effect.
- Options are fixed after construction. The code reads `options.onUserSelect` when a response is handled and `options.autoclose` at click time; with fixed options the two readings agree.
- `dist/fbfs.js` is not part of this model. It is an older build without the request counter, the stale-response guard or `errorCallback`.
- `test/fbfs_test.js` only checks that the plugin exists and that a given `onUserSelect` is kept. The second check is `Settings.OnlyCallbackGiven`.

## Findings

| source | as written | input that shows it | evidently intended | confidence | as-written member | corrected member |
|---|---|---|---|---|---|---|
| src/fbfs.js:81 | `++fbfs.current_request` increments a property that nothing initialises (src/fbfs.js:35-62). The result is `NaN`, and the guard `NaN !== NaN` at line 100 discards every response. | `new FBFS(el, {})`, then `onSearch("a")`, then the response `[friend]`: the list stays empty and the searching flag stays set. | The counter starts at 0 (`Widget.Fbfs.WithCounter`), so the response to the latest request is shown, as the comment at line 99 says. | high (not executed) | `Traces.AsWrittenShowsNothing` | `Lifecycle.LatestWins` |
