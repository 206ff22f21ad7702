/** Resource blocking on a browser page (`blockResources` in helpers.js):
    the per-request decision and the page state it sets up. */
module Requests {

  /** What the request listener does, in order: call the caller's callback
      with a resource type, abort the request, or let it continue. */
  datatype Action = Callback(resourceType: string) | Abort | Continue {
    predicate Settles() { Abort? || Continue? }
  }

  /** The arguments of the callback calls among `actions`, in order. */
  function Callbacks(actions: seq<Action>): seq<string> {
    if actions == [] then []
    else (if actions[0].Callback? then [actions[0].resourceType] else []) + Callbacks(actions[1..])
  }

  /** The listener's reaction to one request of type `resourceType`: a
      skipped type is reported to the callback exactly once and then aborted;
      any other type is continued without a callback. The request is settled
      exactly once, as the last action. */
  function Handle(skip: seq<string>, resourceType: string): (r: seq<Action>)
    ensures |r| > 0 && r[|r| - 1].Settles()
    ensures forall k :: 0 <= k < |r| - 1 ==> !r[k].Settles()
    ensures r[|r| - 1] == Abort <==> resourceType in skip
    ensures r[|r| - 1] == Continue <==> resourceType !in skip
    ensures Callbacks(r) == if resourceType in skip then [resourceType] else []
  {
    if resourceType in skip then
      var r := [Callback(resourceType), Abort];
      assert Callbacks(r[1..]) == [];
      r
    else
      [Continue]
  }

  /** With nothing to skip, every request is continued and the callback is
      never called. */
  lemma EmptySkipContinues(resourceType: string)
    ensures Handle([], resourceType) == [Continue]
    ensures Callbacks(Handle([], resourceType)) == []
  {
  }

  /** The part of a page that blockResources changes: the interception switch
      and the skip lists of the registered request listeners, in the order
      they were registered. */
  class RequestPage {
    var interception: bool
    var listeners: seq<seq<string>>

    /** No listener is ever registered while interception is off. */
    ghost predicate Valid()
      reads this
    {
      listeners != [] ==> interception
    }

    /** A fresh page: interception off, no listener. */
    constructor ()
      ensures Valid()
      ensures !interception && listeners == []
    {
      interception := false;
      listeners := [];
    }

    /** Turn interception on, then register the listener that applies Handle
        with `skip` to every request. */
    method BlockResources(skip: seq<string>)
      requires Valid()
      modifies this
      ensures Valid()
      ensures interception
      ensures listeners == old(listeners) + [skip]
    {
      interception := true;
      listeners := listeners + [skip];
    }
  }
}
