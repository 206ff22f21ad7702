/** The state of a RealtimeStock instance as a value, and the effect of each
    of its operations on that value. Foreign browser steps (launch, newPage,
    goto, exposeFunction, evaluate) are not modelled; what they did is given
    to each operation as an Outcome. */
module Registry {
  import opened Text
  import opened Events
  import opened Requests

  type PageId = nat

  /** An open page of the shared browser, as `browser.pages()` lists it. */
  datatype Page =
    /** the session's initial empty page */
    | Blank(id: PageId)
    /** a page navigated to the quote of `stock` (the caller's spelling);
        `watching` when the price observer was installed on it */
    | Quote(id: PageId, stock: string, watching: bool)

  /** How the browser steps of one operation ended. */
  datatype Outcome =
    /** the browser or `newPage` rejected: no page was opened */
    | NoPage(error: string)
    /** page `id` was opened, then a later step rejected */
    | PageFailed(id: PageId, error: string)
    /** page `id` was opened and every step resolved */
    | PageDone(id: PageId)
  {
    predicate OpensPage() {
      !NoPage?
    }
  }

  datatype Option<T> = None | Some(value: T)

  /** `subscriptions` of the instance, the browser's page list, and every
      event emitted so far. */
  datatype State = State(subscriptions: seq<string>, pages: seq<Page>, trace: seq<Event>)

  /** Positional correspondence: page 0 is the initial blank page, there is
      one page more than subscriptions, and page j > 0 belongs to entry
      j - 1: it is a quote page of a ticker that normalises to that entry. */
  predicate LockStep(st: State) {
    Aligned(st.subscriptions, st.pages)
  }

  predicate Aligned(subscriptions: seq<string>, pages: seq<Page>) {
    |pages| == |subscriptions| + 1
    && pages[0].Blank?
    && forall j :: 1 <= j < |pages| ==>
         pages[j].Quote? && ToUpper(pages[j].stock) == subscriptions[j - 1]
  }

  /** The resource types getPrice refuses to load. */
  const PriceSkip: seq<string> := ["stylesheet", "font", "image", "script"]

  /** A new instance: no subscription, no event, and the browser holding
      only its initial blank page. */
  function Start(blank: PageId): (st: State)
    ensures st.subscriptions == [] && st.trace == []
    ensures LockStep(st)
  {
    State([], [Blank(blank)], [])
  }

  /** `indexOf`: the position of the first entry equal to `x`, or -1. */
  function IndexOf(xs: seq<string>, x: string): (r: int)
    ensures -1 <= r < |xs|
    ensures r == -1 <==> x !in xs
    ensures 0 <= r ==> xs[r] == x && x !in xs[..r]
  {
    if xs == [] then -1
    else if xs[0] == x then 0
    else
      var k := IndexOf(xs[1..], x);
      if k == -1 then -1
      else
        assert xs[..k + 1] == [xs[0]] + xs[1..][..k];
        k + 1
  }

  /** The `logs` then `debug` pair emitted when a browser step fails. */
  function FailureEvents(error: string, s: string): seq<Event> {
    [Logs(error), Debug(PriceFailedMsg(s))]
  }

  /** `_run`: open a page for `stock` and install the price observer on it.
      The subscriptions are left alone, a page is added exactly when one was
      opened (watched exactly when every step succeeded), and a failure adds
      the `logs`/`debug` pair. */
  function Ran(st: State, stock: string, outcome: Outcome): (r: State)
    ensures r.subscriptions == st.subscriptions
    ensures |r.pages| == |st.pages| + (if outcome.OpensPage() then 1 else 0)
    ensures r.pages[..|st.pages|] == st.pages
    ensures outcome.OpensPage() ==> r.pages[|st.pages|] == Quote(outcome.id, stock, outcome.PageDone?)
    ensures r.trace == st.trace + (if outcome.PageDone? then [] else FailureEvents(outcome.error, ToUpper(stock)))
  {
    var s := ToUpper(stock);
    match outcome
    case NoPage(e) =>
      st.(trace := st.trace + FailureEvents(e, s))
    case PageFailed(id, e) =>
      st.(pages := st.pages + [Quote(id, stock, false)], trace := st.trace + FailureEvents(e, s))
    case PageDone(id) =>
      st.(pages := st.pages + [Quote(id, stock, true)])
  }

  /** `subscribe`: append the normalised ticker, announce it, run the watcher
      setup. Earlier entries and pages stay as they are. */
  function Subscribed(st: State, stock: string, outcome: Outcome): (r: State)
    ensures r.subscriptions == st.subscriptions + [ToUpper(stock)]
    ensures |r.pages| == |st.pages| + (if outcome.OpensPage() then 1 else 0)
    ensures r.pages[..|st.pages|] == st.pages
    ensures |r.trace| > |st.trace|
    ensures r.trace[..|st.trace| + 1] == st.trace + [Debug(SubscribingMsg(ToUpper(stock)))]
  {
    var s := ToUpper(stock);
    Ran(st.(subscriptions := st.subscriptions + [s], trace := st.trace + [Debug(SubscribingMsg(s))]),
        stock, outcome)
  }

  /** `unsubscribe`: remove the first entry equal to the normalised ticker
      and close the page at the position after it; the page closed, if any,
      comes second. When that page does not exist the source's `close` call
      fails on an undefined value after the entry is gone: no page closes. */
  function Unsubscribed(st: State, stock: string): (r: (State, Option<Page>))
    ensures |r.0.subscriptions| == |st.subscriptions| - (if ToUpper(stock) in st.subscriptions then 1 else 0)
    ensures r.1.Some? ==> ToUpper(stock) in st.subscriptions && r.1.value in st.pages
    ensures |r.0.pages| == |st.pages| - (if r.1.Some? then 1 else 0)
    ensures |r.0.trace| == |st.trace| + 1 && r.0.trace[..|st.trace|] == st.trace
  {
    var s := ToUpper(stock);
    var i := IndexOf(st.subscriptions, s);
    if i == -1 then
      (st.(trace := st.trace + [Debug(NotSubscriptionMsg(s))]), None)
    else
      var removed := st.(subscriptions := st.subscriptions[..i] + st.subscriptions[i + 1..],
                         trace := st.trace + [Debug(UnsubscribedMsg(s))]);
      if i + 1 < |st.pages| then
        (removed.(pages := st.pages[..i + 1] + st.pages[i + 2..]), Some(st.pages[i + 1]))
      else
        (removed, None)
  }

  /** The events getPrice's request listener emits for a list of requests:
      one `debug` per callback that Handle calls with PriceSkip, so at most
      one per request and nothing but `debug`. */
  function SkipEvents(requests: seq<string>, s: string): (r: seq<Event>)
    ensures |r| <= |requests|
    ensures forall k :: 0 <= k < |r| ==> r[k].Debug?
  {
    if requests == [] then [] else RequestEvents(requests[0], s) + SkipEvents(requests[1..], s)
  }

  /** The events of one request: a `debug` for each callback Handle calls. */
  function RequestEvents(t: string, s: string): (r: seq<Event>)
    ensures |r| <= 1 && forall k :: 0 <= k < |r| ==> r[k].Debug?
  {
    if Callbacks(Handle(PriceSkip, t)) == [t] then [Debug(SkippingMsg(t, s))] else []
  }

  /** `getPrice` as written: open a page, block resources while `requests`
      load, read the price text `text`; the comma-stripped text is the
      result. The page is never closed. */
  function Priced(st: State, stock: string, outcome: Outcome, requests: seq<string>, text: string)
    : (r: (State, Option<string>))
    ensures r.0.subscriptions == st.subscriptions
    ensures |r.0.pages| == |st.pages| + (if outcome.OpensPage() then 1 else 0)
    ensures r.0.pages[..|st.pages|] == st.pages
    ensures r.1.Some? <==> outcome.PageDone?
    ensures r.1.Some? ==> ',' !in r.1.value
  {
    var s := ToUpper(stock);
    match outcome
    case NoPage(e) =>
      (st.(trace := st.trace + FailureEvents(e, s)), None)
    case PageFailed(id, e) =>
      (st.(pages := st.pages + [Quote(id, stock, false)],
           trace := st.trace + SkipEvents(requests, s) + FailureEvents(e, s)), None)
    case PageDone(id) =>
      (st.(pages := st.pages + [Quote(id, stock, false)],
           trace := st.trace + SkipEvents(requests, s)), Some(StripCommas(text)))
  }

  /** `getPrice` as evidently intended: the same, with its page closed
      again before it returns or fails. */
  function PricedClosing(st: State, stock: string, outcome: Outcome, requests: seq<string>, text: string)
    : (r: (State, Option<string>))
    ensures r.0.subscriptions == st.subscriptions && r.0.pages == st.pages
    ensures r.1.Some? <==> outcome.PageDone?
  {
    var (after, price) := Priced(st, stock, outcome, requests, text);
    (after.(pages := st.pages), price)
  }

  /** The exposed `emitEvent` bridge: a text change on a watched page is
      reported with that page's own spelling of the ticker. Pages that are
      closed or have no observer report nothing. */
  function Mutated(st: State, page: Page, text: string): (r: State)
    ensures r.subscriptions == st.subscriptions && r.pages == st.pages
    ensures |r.trace| == |st.trace| + (if page in st.pages && page.Quote? && page.watching then 1 else 0)
    ensures r.trace[..|st.trace|] == st.trace
    ensures |r.trace| > |st.trace| ==> r.trace[|st.trace|] == PriceMoved(page.stock, StripCommas(text))
  {
    if page in st.pages && page.Quote? && page.watching then
      st.(trace := st.trace + [PriceMoved(page.stock, StripCommas(text))])
    else
      st
  }
}
