/** The three channels of the emitter, as entries of an appended trace, and
    the human-readable messages the core sends on the `debug` channel. */
module Events {

  datatype Event =
    | Debug(message: string)
    /** the raw cause of a caught failure */
    | Logs(error: string)
    /** a price change seen by a watcher; `price` is the comma-stripped text
        that the source hands to parseFloat */
    | PriceMoved(stock: string, price: string)

  /** Each message names the ticker it is about at a fixed place, so two
      messages of one kind are equal only for the same ticker. */
  function SubscribingMsg(s: string): (r: string)
    ensures |r| == |s| + 16 && r[15..|r| - 1] == s
  {
    "Subscribing to " + s + "."
  }

  function UnsubscribedMsg(s: string): (r: string)
    ensures |r| == |s| + 19 && r[18..|r| - 1] == s
  {
    "Unsubscribed from " + s + "."
  }

  function NotSubscriptionMsg(s: string): (r: string)
    ensures |r| == |s| + 23 && r[..|s|] == s
  {
    s + " is not a subscription."
  }

  function PriceFailedMsg(s: string): (r: string)
    ensures |r| == |s| + 58 && r[8..8 + |s|] == s
  {
    "Getting " + s + " price failed. See 'logs' to get the error message"
  }

  /** Names both the skipped resource type and the ticker. */
  function SkippingMsg(resourceType: string, s: string): (r: string)
    ensures |r| == |resourceType| + |s| + 52
    ensures r[27..27 + |resourceType|] == resourceType
    ensures r[45 + |resourceType|..45 + |resourceType| + |s|] == s
  {
    "Skipping resource of type '" + resourceType + "' while accessing " + s + " price."
  }
}
