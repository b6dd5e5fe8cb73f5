# Feed pagination controller

A Dafny model of the infinite-scroll controller of the product feed page
(`Home` in `pages/index.tsx`) of a catalog browsing front-end.

The page keeps three pieces of state: the product sequence, seeded with page 1
fetched on the server; the next-page cursor, starting at 2; and a gate flag
`isLoading` whose `true` means "ready to fetch". On every scroll signal the
controller checks `clientHeight + scrollTop >= scrollHeight`. When that holds
and the gate is open, `fetchNextData` closes the gate and requests
`/products/{cursor}`. A successful response appends its products, advances the
cursor by one and waits 2000 ms before reopening the gate. A failed response is
only logged.

The model (`feed.dfy`, module `Feed`) is an immutable `State` holding those
three values plus `task`, the point at which a running `fetchNextData` is
suspended: awaiting the response, awaiting the delay, or nothing. There is a
pure transition function `Step` over the events `Scroll`, `FetchOk`,
`FetchFail` and `DelayElapsed`. Each transition also reports the `Effect` it
asks of the outside world: a `Get` of a page, or a `Sleep` of 2000 ms. The
phases Idle, Fetching, Settling and Stalled are derived from the gate and the
task. `feed_trace.dfy` (module `FeedTrace`) runs the controller over event
sequences and proves the pagination guarantees by induction over the trace.

A failed fetch does not return the controller to Idle, and the next scroll
does not retry. `setIsLoading(false)` at pages/index.tsx:26 has no counterpart
in the `catch` at pages/index.tsx:42-44, so the gate stays closed forever. In
the model a failure leads to the `Stalled` phase, and
`FeedTrace.FailureIsPermanent` proves that no later event ever fetches again.

Completion events that cannot occur in the browser leave the state unchanged:
a response while no request is outstanding, or a timer that fires while the
controller is not settling. `FeedTrace.ValidTrace` names the traces in which
every completion matches what is pending. The counting lemmas are stated over
those traces.

## Model

| member | source | states |
|---|---|---|
| Feed.PreloadRequest | pages/index.tsx:10-11 | The server-side preload requests the first 1-based page, and the cursor starts at the page right after it, with no gap. |
| Feed.Mount | pages/index.tsx:10-23 | A state exists exactly when the preload succeeded. Its products are the preloaded page, its cursor is 2, its gate is open with nothing pending, and it satisfies the controller invariant. |
| Feed.FetchNextData | pages/index.tsx:25-31 | Starting a fetch closes the gate and requests exactly the cursor's page, leaving one request outstanding for it. Products and cursor are unchanged. |
| Feed.OnScroll | pages/index.tsx:47-57 | A scroll signal issues a request if and only if the document element exists, `clientHeight + scrollTop >= scrollHeight` holds and the gate is open. Otherwise the state is unchanged and nothing is issued. |
| Feed.OnFetchOk | pages/index.tsx:32-39 | A successful response keeps the old products as a prefix and puts the page after them. Nothing is removed or reordered (multiset union). The cursor rises by exactly 1, the gate is untouched, and a 2000 ms settle delay starts. |
| Feed.OnFetchFail | pages/index.tsx:42-44 | A failed response leaves products, cursor and gate unchanged and drops the outstanding request. |
| Feed.OnDelayElapsed | pages/index.tsx:35-41 | When the settle delay elapses the gate reopens and the controller is idle. Outside the settle delay the timer changes nothing. |
| Feed.StepPreservesInv | pages/index.tsx:21-45 | Every event preserves the controller invariant: cursor at least 2, gate open only with nothing pending, and any outstanding request is for the cursor's page. |
| Feed.SingleFlight | pages/index.tsx:25-31 | A request is issued only from the idle phase, only for the cursor, and leaves exactly that request outstanding. It follows that while a request is outstanding no event issues another. |
| Feed.GateOpensOnlyAfterSettling | pages/index.tsx:35-41 | The gate goes from closed to open only through the elapsed settle delay. Settling is entered only from a successful response, and the gate is closed throughout it. |
| Feed.StepMonotone | pages/index.tsx:30-34 | A step never shrinks the products (prefix order) and never lowers the cursor. A request is for the lowest page still requestable and uses it up. |
| Feed.StalledIsAbsorbing | pages/index.tsx:42-55 | After a failure (gate closed, nothing pending), every event, scrolls included, leaves the state as it is and issues nothing. |
| FeedTrace.RunPreservesInv | pages/index.tsx:21-45 | The controller invariant holds after any sequence of events. |
| FeedTrace.RequestsAreContiguous | pages/index.tsx:22-34 | Along any run the requested pages are exactly the ascending range from the starting state's lowest requestable page up to the final state's, with no gaps. |
| FeedTrace.NoPageRequestedTwice | pages/index.tsx:22-34 | Along any run the requested pages strictly increase, so no page is requested twice. Each request is at or beyond the starting cursor. |
| FeedTrace.RunOnlyGrows | pages/index.tsx:33-34 | Along any run the starting products remain a prefix of the final ones and the cursor never decreases. |
| FeedTrace.SuccessesAccumulate | pages/index.tsx:33-34 | Along a trace of events that can occur, the cursor advances by exactly the number of successful responses. The products are the initial ones followed by the successful pages' contents, in arrival order. |
| FeedTrace.AnswersInPageOrder | pages/index.tsx:29-34 | Along a trace of events that can occur, the i-th successful response answers the request for page cursor + i. Responses are appended in page order, with none skipped and none answered twice. |
| FeedTrace.FromMount | pages/index.tsx:10-34 | From the mounted page, after N successes the cursor is 2 + N. The products are page 1 followed by the N responses, which answer pages 2 to N+1 in that order. Page 1 is never requested again. |
| FeedTrace.StalledForever | pages/index.tsx:42-55 | From a stalled state no sequence of events changes the state or issues a request. |
| FeedTrace.FailureIsPermanent | pages/index.tsx:26-44 | After a failed fetch, products and cursor are kept and the gate stays closed. No later sequence of events, scrolls included, ever issues another request. |
| FeedTrace.OnePageLoaded | pages/index.tsx:21-41 | With 20 preloaded products, a scroll at the bottom (offset 800, viewport 200, document 1000), a 20-product page 2 and the elapsed delay give 40 products, cursor 3, an idle controller and exactly one request, for page 2. |
| FeedTrace.NearBottomBoundary | pages/index.tsx:54 | With a 1000-unit document and a 200-unit viewport, offset 800 qualifies and offset 799 does not. |

## Left out

- JSX rendering, images, links, icons and Tailwind classes (pages/index.tsx:62-141): presentational only.
- The `ProductItem` component, `tailwind.config.js` and `next.config.js`: markup and build configuration, with no behaviour.
- The keyword search page (`pages/search/[keyword].tsx`) is not part of this model. Its controller differs: it has a 20-unit tolerance, uses `window.innerHeight`, and returns early on an absent product list.
- HTTP transport through axios, the API base URL from the environment, and JSON decoding are foreign I/O. A fetch outcome is the `FetchOk(page)` or `FetchFail` event, and a request is the `Get(page)` effect standing for `GET {base}/products/{page}`.
- A response whose `products` field is absent is not modelled; `FetchOk` always carries a sequence.
- The `console.log` calls are output only and are not modelled.
- Real-time `setTimeout` is left out. The settle delay is the `Sleep(2000)` effect followed by a discrete `DelayElapsed` event.
- React effect scheduling and listener registration and removal (pages/index.tsx:47-60) are left out, including whether a stale listener could fire before it is re-registered. The gate's check-and-close is treated as one atomic step.
- Scroll metrics are modelled as integers; browsers can report fractional values.
- The failure case is not treated as retrying. The model keeps the code's permanent stall; see above.
