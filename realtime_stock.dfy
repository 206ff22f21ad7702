/** The RealtimeStock object: its subscription list, the page list of its
    browser and the events it has emitted, changed in place by each
    operation. Every operation is one atomic step. */
module Realtime {
  import opened Text
  import opened Events
  import opened Registry
  import opened RegistryFacts

  class RealtimeStock {
    var subscriptions: seq<string>
    var pages: seq<Page>
    var trace: seq<Event>

    /** The object's state as a value. */
    function Snapshot(): State
      reads this
    {
      State(subscriptions, pages, trace)
    }

    /** A new instance: empty subscription list, the browser's blank page. */
    constructor (blank: PageId)
      ensures Snapshot() == Start(blank)
      ensures subscriptions == [] && LockStep(Snapshot())
    {
      subscriptions := [];
      pages := [Blank(blank)];
      trace := [];
    }

    /** `_run`: watcher setup for `stock`; failures are caught and reported. */
    method Run(stock: string, outcome: Outcome)
      modifies this
      ensures Snapshot() == Ran(old(Snapshot()), stock, outcome)
      ensures subscriptions == old(subscriptions)
    {
      var s := ToUpper(stock);
      match outcome {
        case NoPage(e) =>
          trace := trace + [Logs(e), Debug(PriceFailedMsg(s))];
        case PageFailed(id, e) =>
          pages := pages + [Quote(id, stock, false)];
          trace := trace + [Logs(e), Debug(PriceFailedMsg(s))];
        case PageDone(id) =>
          pages := pages + [Quote(id, stock, true)];
      }
    }

    method Subscribe(stock: string, outcome: Outcome)
      modifies this
      ensures Snapshot() == Subscribed(old(Snapshot()), stock, outcome)
      ensures subscriptions == old(subscriptions) + [ToUpper(stock)]
      ensures old(LockStep(Snapshot())) ==> (LockStep(Snapshot()) <==> outcome.OpensPage())
    {
      ghost var before := Snapshot();
      var s := ToUpper(stock);
      subscriptions := subscriptions + [s];
      trace := trace + [Debug(SubscribingMsg(s))];
      Run(stock, outcome);
      if LockStep(before) {
        SubscribeLockStep(before, stock, outcome);
      }
    }

    method Unsubscribe(stock: string) returns (closed: Option<Page>)
      modifies this
      ensures (Snapshot(), closed) == Unsubscribed(old(Snapshot()), stock)
      ensures old(LockStep(Snapshot())) ==> LockStep(Snapshot())
    {
      ghost var before := Snapshot();
      var s := ToUpper(stock);
      var pageIndex := IndexOf(subscriptions, s);
      if pageIndex != -1 {
        subscriptions := subscriptions[..pageIndex] + subscriptions[pageIndex + 1..];
        trace := trace + [Debug(UnsubscribedMsg(s))];
      } else {
        trace := trace + [Debug(NotSubscriptionMsg(s))];
        closed := None;
        return;
      }
      // the page list is looked up after the removal, at the old position
      if pageIndex + 1 < |pages| {
        closed := Some(pages[pageIndex + 1]);
        pages := pages[..pageIndex + 1] + pages[pageIndex + 2..];
      } else {
        closed := None;
      }
      if LockStep(before) {
        UnsubscribeLockStep(before, stock);
      }
    }

    /** `getPrice`: the comma-stripped price text, or None after a caught
        failure. */
    method GetPrice(stock: string, outcome: Outcome, requests: seq<string>, text: string)
      returns (price: Option<string>)
      modifies this
      ensures (Snapshot(), price) == Priced(old(Snapshot()), stock, outcome, requests, text)
      ensures subscriptions == old(subscriptions)
    {
      var s := ToUpper(stock);
      match outcome {
        case NoPage(e) =>
          trace := trace + [Logs(e), Debug(PriceFailedMsg(s))];
          price := None;
        case PageFailed(id, e) =>
          pages := pages + [Quote(id, stock, false)];
          trace := trace + SkipEvents(requests, s) + [Logs(e), Debug(PriceFailedMsg(s))];
          price := None;
        case PageDone(id) =>
          pages := pages + [Quote(id, stock, false)];
          trace := trace + SkipEvents(requests, s);
          price := Some(StripCommas(text));
      }
    }

    /** The exposed `emitEvent` callback, fired by the observer on `page`
        when the price text changes to `text`. */
    method PriceChanged(page: Page, text: string)
      modifies this
      ensures Snapshot() == Mutated(old(Snapshot()), page, text)
      ensures subscriptions == old(subscriptions) && pages == old(pages)
    {
      if page in pages && page.Quote? && page.watching {
        trace := trace + [PriceMoved(page.stock, StripCommas(text))];
      }
    }
  }
}
