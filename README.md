# pure-realtime-stock: the subscription registry, in Dafny

`RealtimeStock` watches stock prices through a headless browser. Each
`subscribe(ticker)` appends the upper-cased ticker to `subscriptions` and opens
one browser page on that ticker's quote, with an observer that emits
`priceMoved` whenever the displayed price changes. `unsubscribe(ticker)`
removes the first equal entry and closes a page by position: entry *i* owns
page *i + 1*, because page 0 is the browser's initial blank page. Nothing but
that position ties an entry to its page. `getPrice(ticker)` reads the price
once. The helpers module holds the resource-blocking request listener and a
price scraper.

The model has six modules:

- `Text` (text.dfy): ticker normalisation (`ToUpper`, ASCII only) and the
  removal of every `,` from scraped price text (`StripCommas`).
- `Events` (events.dfy): the `debug`, `logs` and `priceMoved` channels as
  entries of an appended trace, and the exact `debug` messages.
- `Requests` (requests.dfy): `blockResources`. It holds the decision the
  request listener takes (`Handle`) and the page state it sets: the
  interception switch and the registered listeners.
- `Registry` (registry.dfy): the instance's state as a value (subscriptions,
  the browser's page list, the event trace). It has one function per
  operation, and `LockStep`, the positional correspondence between entries and
  pages.
- `RegistryFacts` (registry_facts.dfy): what the operations promise, as
  lemmas about those functions.
- `Realtime` (realtime_stock.dfy): the `RealtimeStock` class. Its fields are
  changed in place. Each method is proved to produce exactly the state that
  the `Registry` function gives.

Browser calls are not modelled. What they did is an `Outcome` parameter:
`NoPage` (the browser or `newPage` rejected), `PageFailed` (a page was opened,
then `goto`, `exposeFunction` or `evaluate` rejected) or `PageDone`. The
scraped price text and the resource types of the requests a page makes are
parameters too.

`getPrice` (index.js:91-125) never closes the page it opens. The model keeps
that page open (see Findings).

## Model

| member | source | states |
|---|---|---|
| `Text.ToUpper` | index.js:54 | the normalised ticker has the same length, no lower-case ASCII letter, and is the input up to letter case |
| `Text.UpperSameIff` | index.js:68 | two spellings normalise to the same ticker exactly when they are equal up to ASCII case, so `subscribe("nio")` and `unsubscribe("NIO")` name one entry |
| `Text.UpperOfUpper` | index.js:54 | a ticker already in capitals is stored unchanged |
| `Text.UpperIdempotent` | index.js:68 | normalising an already normalised ticker changes nothing, so unsubscribing with a stored entry's own text finds that entry |
| `Text.StripCommas` | helpers.js:11 | the result has no comma at all: every comma goes, not only the first |
| `Text.StripCommasCounts` | index.js:119 | the text shrinks by exactly the number of commas, and every other character keeps its number of occurrences |
| `Text.StripCommasConcat` | index.js:119 | stripping works piece by piece, so the kept characters stay in their original order |
| `Text.StripCommasChar` | index.js:33 | a single character is kept exactly when it is not a comma |
| `Text.StripCommasNoCommas` | helpers.js:11 | text without commas is left as it is |
| `Text.StripCommasIdempotent` | index.js:119 | stripping twice equals stripping once |
| `Requests.Handle` | helpers.js:24-34 | a request whose type is in `skip` gets exactly one callback, with its type, and is then aborted, never continued; any other request is continued and gets no callback; the request is settled exactly once, last |
| `Requests.EmptySkipContinues` | helpers.js:27 | with an empty skip list every request is continued and the callback is never called |
| `Requests.RequestPage.BlockResources` | helpers.js:21-35 | interception is on and the listener for `skip` is appended; no listener is ever registered while interception is off |
| `Events.SubscribingMsg` | index.js:57 | the `debug` message of `subscribe` names the normalised ticker at a fixed place, so distinct tickers give distinct messages |
| `Events.UnsubscribedMsg` | index.js:74 | the `debug` message of a successful `unsubscribe` names the ticker at a fixed place |
| `Events.NotSubscriptionMsg` | index.js:76 | the `debug` message for an absent ticker starts with that ticker |
| `Events.PriceFailedMsg` | index.js:45 | the `debug` message after a caught failure (also index.js:123) names the ticker right after "Getting " |
| `Events.SkippingMsg` | index.js:106 | the `debug` message for a blocked request names both the resource type and the ticker |
| `Requests.RequestPage.constructor` | index.js:97 | a page fresh from `newPage` has interception off and no request listener |
| `Registry.LockStep` | index.js:67-85 | the invariant `unsubscribe` relies on: page 0 is the blank page, and page *j* > 0 is a quote page of entry *j - 1*; `LockStepCoversEntries`, `SubscribeLockStep` and `UnsubscribeLockStep` state what it gives and who keeps it |
| `RegistryFacts.LockStepCoversEntries` | index.js:70-84 | in lock-step every entry has an open quote page of its ticker, right after the entry's first position: the page `unsubscribe` closes |
| `Registry.Start` | index.js:5-11 | a new instance has no subscription and no event, and is in lock-step with the browser's single blank page |
| `Registry.IndexOf` | index.js:70 | -1 exactly when the ticker is absent, otherwise the position of its first occurrence |
| `Registry.Ran` | index.js:18-47 | the watcher setup never changes the subscriptions; it adds a page exactly when one was opened, watched exactly when every step succeeded; a failure appends `logs` with the cause, then the failure `debug` message; `SubscribeFailureKeepsEntry` and `SubscribeLockStep` build on it |
| `Registry.Subscribed` | index.js:53-60 | the normalised ticker is appended after the unchanged entries; earlier pages stay; the first new event is "Subscribing to T."; `SubscribeAppends` states the whole effect |
| `Registry.Unsubscribed` | index.js:67-85 | the entry count drops by one exactly when the ticker is present; a page is closed only then, and it is one of the open pages; the page count drops by one exactly when a page is closed; exactly one event is appended; `UnsubscribeRemovesFirst` and `UnsubscribeAbsent` state the whole effect |
| `Registry.SkipEvents` | index.js:101-111 | the request listener emits at most one event per request, and only `debug` events; `SkipEventsOne` and `SkipEventsConcat` fix which |
| `Registry.Priced` | index.js:91-125 | `getPrice` as written leaves subscriptions alone, keeps the earlier pages and adds the page it opened; it returns a price exactly when every step succeeded, and that price has no comma |
| `Registry.PricedClosing` | index.js:91-125 | `getPrice` with its page closed leaves subscriptions and pages as they were; it returns a price exactly when every step succeeded |
| `Registry.Mutated` | index.js:28-34 | a price change never touches subscriptions or pages; it appends one event exactly when the page is open and watched, and that event is `priceMoved` with the page's ticker and the comma-free text |
| `RegistryFacts.SubscribeAppends` | index.js:53-60 | `subscribe` appends exactly the normalised ticker after the unchanged earlier entries, and a duplicate is added, not merged; the page list grows by the page the setup opened, if any; the trace gains "Subscribing to T." first |
| `RegistryFacts.SubscribeFailureKeepsEntry` | index.js:43-46 | a failed watcher setup leaves the new entry in place; the trace gains `logs` with the cause, then the `debug` failure message naming the normalised ticker |
| `RegistryFacts.SubscribeLockStep` | index.js:56-59 | from lock-step, `subscribe` stays in lock-step exactly when its setup opened a page |
| `RegistryFacts.UnsubscribeRemovesFirst` | index.js:67-85 | with the ticker present, exactly one entry, the first equal one, is removed; the others keep their order; the length drops by one; the page at the old position plus one is closed, or none when no such page exists |
| `RegistryFacts.UnsubscribeAbsent` | index.js:75-78 | with the ticker absent, subscriptions and pages are unchanged, no page is closed, and only "T is not a subscription." is emitted |
| `RegistryFacts.UnsubscribeLockStep` | index.js:70-84 | `unsubscribe` keeps lock-step; a page is closed exactly when the ticker was present, and it is a page of that ticker |
| `RegistryFacts.SubscribeThenUnsubscribe` | index.js:53-85 | subscribing to a new ticker and unsubscribing with any case spelling of it restores subscriptions and pages and closes the page just opened |
| `RegistryFacts.SubscribeThenUnsubscribeCounts` | index.js:56-73 | subscribe then unsubscribe of the same ticker always restores the entries counted with repetition, even when an earlier duplicate is the one removed |
| `RegistryFacts.UnsubscribeSilencesWatcher` | index.js:82-84 | when page ids are distinct, the page closed by `unsubscribe` reports no further price changes |
| `RegistryFacts.WatcherReportsCallerSpelling` | index.js:28-34 | a price change on a watched page emits `priceMoved` with the caller's own spelling of the ticker and the comma-free price text, and changes nothing else |
| `RegistryFacts.SkipEventsOne` | index.js:101-111 | in `getPrice` a request of a skipped type (stylesheet, font, image, script) emits one `debug` naming its type and the ticker; any other emits nothing |
| `RegistryFacts.SkipEventsConcat` | index.js:101-111 | requests are handled one at a time: the events of a run of requests are those of its parts, in order |
| `RegistryFacts.GetPriceResult` | index.js:91-125 | `getPrice` returns the comma-stripped text exactly when every browser step succeeded; otherwise it returns nothing and the trace ends with `logs` then `debug`; it never touches the subscriptions |
| `RegistryFacts.GetPriceBreaksLockStep` | index.js:97 | the page `getPrice` opens stays in the page list, so lock-step no longer holds |
| `RegistryFacts.PricedLeavesPage` | index.js:97 | the page `getPrice` opens stays last in the page list, and the subscriptions are untouched |
| `RegistryFacts.UnsubscribeLast` | index.js:70-84 | when only the last entry holds the ticker, `unsubscribe` removes it and closes the page right after its position |
| `RegistryFacts.GetPriceMisdirectsUnsubscribe` | index.js:82-84 | from a page list one longer than the entries, `getPrice(a)`, `subscribe(b)` and `unsubscribe(b)` close the `getPrice` page; b's watcher page stays open and the entries are back as before |
| `RegistryFacts.GetPriceClosingKeepsLockStep` | index.js:91-125 | a `getPrice` that closes its page keeps lock-step and returns the same result |
| `Realtime.RealtimeStock.constructor` | index.js:5-11 | a new object starts with no subscription, in lock-step |
| `Realtime.RealtimeStock.Run` | index.js:18-47 | the watcher setup changes the object as `Registry.Ran` says and never changes `subscriptions` |
| `Realtime.RealtimeStock.Subscribe` | index.js:53-60 | `subscriptions` gains the normalised ticker at the end; the whole new state is `Registry.Subscribed`; lock-step is kept exactly when a page was opened |
| `Realtime.RealtimeStock.Unsubscribe` | index.js:67-85 | the new state and the closed page are those of `Registry.Unsubscribed`; lock-step is kept |
| `Realtime.RealtimeStock.GetPrice` | index.js:91-125 | the new state and the result are those of `Registry.Priced`; subscriptions are untouched |
| `Realtime.RealtimeStock.PriceChanged` | index.js:28-34 | the `emitEvent` bridge changes only the trace, as `Registry.Mutated` says |

## Findings

| source | as written | input that shows it | evidently intended | confidence | as-written member | corrected member |
|---|---|---|---|---|---|---|
| index.js:91-125 | `getPrice` opens a page with `newPage` and never closes it. The page stays in `browser.pages()`, which `unsubscribe` indexes by position. | `getPrice("AAPL")`, then `subscribe("NIO")`, then `unsubscribe("NIO")`: the AAPL page is closed and NIO's watcher keeps emitting | `getPrice` closes its page before it returns or fails (`Registry.PricedClosing`) | medium; not executed | `RegistryFacts.GetPriceMisdirectsUnsubscribe` | `RegistryFacts.GetPriceClosingKeepsLockStep` |

## Left out

- Puppeteer is not modelled: browser launch, `newPage`, `goto`, `exposeFunction`, `evaluate`, `browser.pages()`, `page.close()`. Their results are the `Outcome` parameter and updates to the abstract page list.
- The model assumes `browser.pages()` lists the open pages in the order they were opened.
- The in-page `MutationObserver` and the CSS selectors are not modelled. A price change arrives as a call to `PriceChanged` with the new text.
- `parseFloat` is not modelled, because it is floating-point parsing. `priceMoved` and `getPrice` carry the comma-stripped text.
- `scrapePrice` (helpers.js:5-14) is modelled only as its comma stripping, `StripCommas`. The `evaluate` call and `parseFloat` are left out.
- EventEmitter listener dispatch is not modelled. Emissions are entries appended to the trace.
- Concurrent `subscribe`/`unsubscribe` calls, which race on the array, are not modelled. Each call is one atomic step.
- In `unsubscribe`, a rejection of `this.browser`, `browser.pages()` or `page.close()` is not modelled. The one failure that is modelled is a missing page at the computed position: the entry is removed and no page is closed.
- Registry.Unsubscribed: on the missing-page path, `pages[pageIndex + 1].close()` throws a TypeError and the promise `unsubscribe` returns rejects. The model returns `None` as the closed page, the same as for an absent ticker, and does not model the rejection.
- In `getPrice`, the model takes all the `requests` a page makes to arrive before any failure. They do not interleave with it.
- `close()` is not modelled. It only tears down the session.
- `getInformation` and the metrics tables are not modelled. index.js has no such method.
- preinstall.js and the scripts under examples/ are not modelled. They are console hints and timer-driven demos.
- `Requests.RequestPage`: only the interception switch and the list of listeners are modelled. How the browser routes a request to the listeners is not.
- Text.ToUpper: maps only ASCII `a`-`z`. JavaScript's `toUpperCase` also maps other letters, and some of those change the length (`ß` becomes `SS`).
