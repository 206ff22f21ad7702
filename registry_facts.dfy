/** What the registry's operations promise, proved about their effects on
    the State value. */
module RegistryFacts {
  import opened Text
  import opened Events
  import opened Registry

  /** The page an operation opened, when it opened one. */
  function OpenedPage(stock: string, outcome: Outcome, watching: bool): Page
    requires outcome.OpensPage()
  {
    Quote(outcome.id, stock, watching)
  }

  /** subscribe appends exactly the normalised ticker after every earlier
      entry, whether or not it is already there, and opens one page when the
      setup got that far. */
  lemma SubscribeAppends(st: State, stock: string, outcome: Outcome)
    ensures var after := Subscribed(st, stock, outcome);
            after.subscriptions == st.subscriptions + [ToUpper(stock)]
            && multiset(after.subscriptions)[ToUpper(stock)] == multiset(st.subscriptions)[ToUpper(stock)] + 1
            && after.pages == st.pages + (if outcome.OpensPage() then [OpenedPage(stock, outcome, outcome.PageDone?)] else [])
            && after.trace[..|st.trace| + 1] == st.trace + [Debug(SubscribingMsg(ToUpper(stock)))]
  {
    var after := Subscribed(st, stock, outcome);
    assert after.trace[..|st.trace| + 1] == st.trace + [Debug(SubscribingMsg(ToUpper(stock)))];
  }

  /** A failed watcher setup does not roll the entry back: it stays last in
      the registry, and the trace gains `logs` with the cause, then a `debug`
      naming the normalised ticker. */
  lemma SubscribeFailureKeepsEntry(st: State, stock: string, outcome: Outcome)
    requires !outcome.PageDone?
    ensures var after := Subscribed(st, stock, outcome);
            after.subscriptions[|after.subscriptions| - 1] == ToUpper(stock)
            && after.trace == st.trace + [Debug(SubscribingMsg(ToUpper(stock))),
                                          Logs(outcome.error),
                                          Debug(PriceFailedMsg(ToUpper(stock)))]
  {
  }

  /** Appending an entry and a quote page of a ticker that normalises to it
      keeps the correspondence. */
  lemma AppendKeepsAligned(subs: seq<string>, pages: seq<Page>, page: Page)
    requires Aligned(subs, pages) && page.Quote?
    ensures Aligned(subs + [ToUpper(page.stock)], pages + [page])
  {
    var subs', pages' := subs + [ToUpper(page.stock)], pages + [page];
    forall j | 1 <= j < |pages'|
      ensures pages'[j].Quote? && ToUpper(pages'[j].stock) == subs'[j - 1]
    {
      if j < |pages| {
        assert pages'[j] == pages[j] && subs'[j - 1] == subs[j - 1];
      }
    }
  }

  /** In lock-step every entry has an open quote page of its ticker: the one
      right after the entry's first position, which unsubscribe will close. */
  lemma LockStepCoversEntries(st: State, x: string)
    requires LockStep(st) && x in st.subscriptions
    ensures IndexOf(st.subscriptions, x) + 1 < |st.pages|
    ensures var p := st.pages[IndexOf(st.subscriptions, x) + 1];
      p.Quote? && ToUpper(p.stock) == x
  {
  }

  /** subscribe keeps the lock-step correspondence exactly when its setup
      opened a page; a setup that failed before opening one breaks it. */
  lemma SubscribeLockStep(st: State, stock: string, outcome: Outcome)
    requires LockStep(st)
    ensures LockStep(Subscribed(st, stock, outcome)) <==> outcome.OpensPage()
  {
    var after := Subscribed(st, stock, outcome);
    SubscribeAppends(st, stock, outcome);
    if outcome.OpensPage() {
      AppendKeepsAligned(st.subscriptions, st.pages, OpenedPage(stock, outcome, outcome.PageDone?));
    } else {
      assert |after.pages| == |after.subscriptions|;
    }
  }

  /** unsubscribe with a present ticker removes one entry, the first equal
      one, keeps the others in order, and closes the page at the position
      after it, counted before the removal. */
  lemma UnsubscribeRemovesFirst(st: State, stock: string)
    requires ToUpper(stock) in st.subscriptions
    ensures var s, i := ToUpper(stock), IndexOf(st.subscriptions, ToUpper(stock));
            var (after, closed) := Unsubscribed(st, stock);
            0 <= i && st.subscriptions[i] == s && s !in st.subscriptions[..i]
            && after.subscriptions == st.subscriptions[..i] + st.subscriptions[i + 1..]
            && |after.subscriptions| == |st.subscriptions| - 1
            && multiset(after.subscriptions) == multiset(st.subscriptions) - multiset{s}
            && after.trace == st.trace + [Debug(UnsubscribedMsg(s))]
            && (i + 1 < |st.pages| ==> closed == Some(st.pages[i + 1])
                                       && after.pages == st.pages[..i + 1] + st.pages[i + 2..])
            && (i + 1 >= |st.pages| ==> closed == None && after.pages == st.pages)
  {
    var s, i := ToUpper(stock), IndexOf(st.subscriptions, ToUpper(stock));
    assert st.subscriptions == st.subscriptions[..i] + [s] + st.subscriptions[i + 1..];
  }

  /** unsubscribe with an absent ticker changes nothing but the trace, which
      gains only the "not a subscription" message; no page is closed. */
  lemma UnsubscribeAbsent(st: State, stock: string)
    requires ToUpper(stock) !in st.subscriptions
    ensures Unsubscribed(st, stock)
            == (st.(trace := st.trace + [Debug(NotSubscriptionMsg(ToUpper(stock)))]), None)
  {
  }

  /** Removing entry i and page i + 1 keeps the correspondence. */
  lemma RemoveKeepsAligned(subs: seq<string>, pages: seq<Page>, i: nat)
    requires Aligned(subs, pages) && i < |subs|
    ensures Aligned(subs[..i] + subs[i + 1..], pages[..i + 1] + pages[i + 2..])
  {
    var subs', pages' := subs[..i] + subs[i + 1..], pages[..i + 1] + pages[i + 2..];
    forall j | 1 <= j < |pages'|
      ensures pages'[j].Quote? && ToUpper(pages'[j].stock) == subs'[j - 1]
    {
      if j <= i {
        assert pages'[j] == pages[j] && subs'[j - 1] == subs[j - 1];
      } else {
        assert pages'[j] == pages[j + 1] && subs'[j - 1] == subs[j];
      }
    }
  }

  /** unsubscribe keeps the lock-step correspondence, and under it the page
      closed is the one owned by the removed entry. */
  lemma UnsubscribeLockStep(st: State, stock: string)
    requires LockStep(st)
    ensures LockStep(Unsubscribed(st, stock).0)
    ensures Unsubscribed(st, stock).1.Some? <==> ToUpper(stock) in st.subscriptions
    ensures var closed := Unsubscribed(st, stock).1;
            closed.Some? ==> closed.value.Quote? && ToUpper(closed.value.stock) == ToUpper(stock)
  {
    var i := IndexOf(st.subscriptions, ToUpper(stock));
    if i != -1 {
      UnsubscribeRemovesFirst(st, stock);
      RemoveKeepsAligned(st.subscriptions, st.pages, i);
    } else {
      UnsubscribeAbsent(st, stock);
    }
  }

  /** subscribe then unsubscribe, with spellings equal up to case, of a
      ticker not yet subscribed restores the registry and the page list, and
      closes the very page the subscription opened. */
  lemma SubscribeThenUnsubscribe(st: State, a: string, b: string, outcome: Outcome)
    requires LockStep(st) && outcome.OpensPage()
    requires EqualIgnoringCase(a, b)
    requires ToUpper(a) !in st.subscriptions
    ensures var (after, closed) := Unsubscribed(Subscribed(st, a, outcome), b);
            after.subscriptions == st.subscriptions
            && after.pages == st.pages
            && closed == Some(OpenedPage(a, outcome, outcome.PageDone?))
  {
    UpperSameIff(a, b);
    var mid := Subscribed(st, a, outcome);
    var n := |st.subscriptions|;
    SubscribeAppends(st, a, outcome);
    SubscribeLockStep(st, a, outcome);
    assert mid.subscriptions[n] == ToUpper(b);
    assert ToUpper(b) !in mid.subscriptions[..n] by {
      assert mid.subscriptions[..n] == st.subscriptions;
    }
    assert IndexOf(mid.subscriptions, ToUpper(b)) == n;
    assert mid.subscriptions[..n] == st.subscriptions;
    assert mid.pages[..n + 1] == st.pages;
  }

  /** Even when the ticker was already subscribed, subscribe then
      unsubscribe leaves the same entries, counted with repetition; the one
      removed is the earliest, not the one just added. */
  lemma SubscribeThenUnsubscribeCounts(st: State, a: string, b: string, outcome: Outcome)
    requires EqualIgnoringCase(a, b)
    ensures multiset(Unsubscribed(Subscribed(st, a, outcome), b).0.subscriptions)
            == multiset(st.subscriptions)
  {
    UpperSameIff(a, b);
    var mid := Subscribed(st, a, outcome);
    SubscribeAppends(st, a, outcome);
    UnsubscribeRemovesFirst(mid, b);
  }

  /** Distinct pages carry distinct ids. */
  predicate DistinctPages(st: State) {
    forall i, j :: 0 <= i < j < |st.pages| ==> st.pages[i].id != st.pages[j].id
  }

  /** Once unsubscribe has closed a page, price changes on it are no longer
      reported. */
  lemma UnsubscribeSilencesWatcher(st: State, stock: string, text: string)
    requires LockStep(st) && DistinctPages(st)
    requires ToUpper(stock) in st.subscriptions
    ensures var (after, closed) := Unsubscribed(st, stock);
            closed.Some? && Mutated(after, closed.value, text) == after
  {
    var i := IndexOf(st.subscriptions, ToUpper(stock));
    var (after, closed) := Unsubscribed(st, stock);
    UnsubscribeLockStep(st, stock);
    assert closed == Some(st.pages[i + 1]);
    forall k | 0 <= k < |after.pages| ensures after.pages[k] != st.pages[i + 1] {
      if k <= i {
        assert after.pages[k] == st.pages[k];
      } else {
        assert after.pages[k] == st.pages[k + 1];
      }
    }
  }

  /** A price change on the page of a successful subscription is reported
      with the caller's own spelling of the ticker (not the normalised one)
      and the price text with every comma removed. */
  lemma WatcherReportsCallerSpelling(st: State, stock: string, id: PageId, text: string)
    ensures var watched := Subscribed(st, stock, PageDone(id));
            var after := Mutated(watched, Quote(id, stock, true), text);
            after.trace == watched.trace + [PriceMoved(stock, StripCommas(text))]
            && ',' !in after.trace[|after.trace| - 1].price
            && after.subscriptions == watched.subscriptions && after.pages == watched.pages
  {
    var watched := Subscribed(st, stock, PageDone(id));
    assert watched.pages[|watched.pages| - 1] == Quote(id, stock, true);
  }

  /** A skipped request in getPrice is reported once on `debug`; any other
      is not reported. */
  lemma SkipEventsOne(t: string, s: string)
    ensures SkipEvents([t], s) == if t in PriceSkip then [Debug(SkippingMsg(t, s))] else []
  {
    assert [t][1..] == [];
  }

  /** The listener handles requests one at a time, so the events of a run of
      requests are those of its parts, in order. */
  lemma {:induction false} SkipEventsConcat(a: seq<string>, b: seq<string>, s: string)
    ensures SkipEvents(a + b, s) == SkipEvents(a, s) + SkipEvents(b, s)
  {
    if a == [] {
      assert a + b == b;
    } else {
      assert (a + b)[0] == a[0];
      assert (a + b)[1..] == a[1..] + b;
      SkipEventsConcat(a[1..], b, s);
    }
  }

  /** getPrice yields the comma-stripped price text exactly when every
      browser step succeeded; otherwise the trace ends with the `logs` and
      `debug` pair. It never touches the subscriptions. */
  lemma GetPriceResult(st: State, stock: string, outcome: Outcome, requests: seq<string>, text: string)
    ensures var (after, price) := Priced(st, stock, outcome, requests, text);
            (price.Some? <==> outcome.PageDone?)
            && (price.Some? ==> price.value == StripCommas(text))
            && (!outcome.PageDone? ==>
                  after.trace[|after.trace| - 2..] == [Logs(outcome.error), Debug(PriceFailedMsg(ToUpper(stock)))])
            && after.subscriptions == st.subscriptions
  {
    var (after, price) := Priced(st, stock, outcome, requests, text);
    if !outcome.PageDone? {
      assert after.trace[|after.trace| - 2..] == FailureEvents(outcome.error, ToUpper(stock));
    }
  }

  /** As written, getPrice leaves its page open in the shared page list, so
      a registry in lock-step is no longer. */
  lemma GetPriceBreaksLockStep(st: State, stock: string, outcome: Outcome, requests: seq<string>, text: string)
    requires LockStep(st) && outcome.OpensPage()
    ensures !LockStep(Priced(st, stock, outcome, requests, text).0)
  {
  }

  /** The page getPrice opened stays last in the page list. */
  lemma PricedLeavesPage(st: State, stock: string, outcome: Outcome, requests: seq<string>, text: string)
    requires outcome.OpensPage()
    ensures var after := Priced(st, stock, outcome, requests, text).0;
            after.subscriptions == st.subscriptions
            && after.pages == st.pages + [Quote(outcome.id, stock, false)]
  {
  }

  /** unsubscribe of a ticker held only by the last entry closes the page at
      the position after it. */
  lemma UnsubscribeLast(st: State, stock: string)
    requires |st.subscriptions| > 0
    requires var n := |st.subscriptions| - 1;
             st.subscriptions[n] == ToUpper(stock) && ToUpper(stock) !in st.subscriptions[..n]
    requires |st.subscriptions| < |st.pages|
    ensures var n := |st.subscriptions| - 1;
            var (after, closed) := Unsubscribed(st, stock);
            after.subscriptions == st.subscriptions[..n]
            && after.pages == st.pages[..n + 1] + st.pages[n + 2..]
            && closed == Some(st.pages[n + 1])
  {
    var n := |st.subscriptions| - 1;
    assert IndexOf(st.subscriptions, ToUpper(stock)) == n;
    assert st.subscriptions[n + 1..] == [];
  }

  /** The consequence: from a registry whose page list has one page more
      than it has entries (as in lock-step), getPrice(a) followed by
      subscribe(b) and unsubscribe(b), for a b not yet subscribed, closes the
      getPrice page and leaves b's watcher open (for instance a = "AAPL",
      b = "NIO"). */
  lemma GetPriceMisdirectsUnsubscribe(st: State, a: string, priceOutcome: Outcome, requests: seq<string>,
                                      text: string, b: string, id: PageId)
    requires |st.pages| == |st.subscriptions| + 1 && priceOutcome.OpensPage()
    requires ToUpper(b) !in st.subscriptions
    ensures var st2 := Subscribed(Priced(st, a, priceOutcome, requests, text).0, b, PageDone(id));
            Unsubscribed(st2, b).1 == Some(Quote(priceOutcome.id, a, false))
            && Unsubscribed(st2, b).0.pages == st.pages + [Quote(id, b, true)]
            && Unsubscribed(st2, b).0.subscriptions == st.subscriptions
  {
    var n := |st.subscriptions|;
    var leaked, watcher := Quote(priceOutcome.id, a, false), Quote(id, b, true);
    var st1 := Priced(st, a, priceOutcome, requests, text).0;
    PricedLeavesPage(st, a, priceOutcome, requests, text);
    var st2 := Subscribed(st1, b, PageDone(id));
    SubscribeAppends(st1, b, PageDone(id));
    assert st2.subscriptions == st.subscriptions + [ToUpper(b)];
    assert st2.pages == st.pages + [leaked, watcher];
    assert st2.subscriptions[..n] == st.subscriptions;
    UnsubscribeLast(st2, b);
    assert st2.pages[n + 1] == leaked;
    assert st2.pages[..n + 1] + st2.pages[n + 2..] == st.pages + [watcher];
  }

  /** Corrected getPrice: closing its page keeps the lock-step
      correspondence, with the same result. */
  lemma GetPriceClosingKeepsLockStep(st: State, stock: string, outcome: Outcome, requests: seq<string>, text: string)
    requires LockStep(st)
    ensures var (after, price) := PricedClosing(st, stock, outcome, requests, text);
            LockStep(after)
            && after.subscriptions == st.subscriptions
            && price == Priced(st, stock, outcome, requests, text).1
  {
  }
}
