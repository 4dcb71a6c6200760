/** ChannelSubscription: the handlers subscribed to one channel, each under its own
    subscription id, and the dispatch of one message to all of them. Handlers are opaque
    ids; calling one is recorded as a HandlerCall. */
module Subscription {
  import opened Sockets

  /** SUBSCRIPTION_ID is an unsigned int: 32 bits. */
  const SubscriptionIdCount := 0x1_0000_0000
  type SubscriptionId = x: int | 0 <= x < SubscriptionIdCount

  /** The identity of a std::function handler. */
  type HandlerId = nat

  /** One invocation of a handler: which subscription, which handler, and its arguments. */
  datatype HandlerCall = HandlerCall(subscription: SubscriptionId, handler: HandlerId, sender: Connection, message: seq<Byte>)

  /** The 32-bit counter after a post-increment. */
  function NextSubscriptionId(c: SubscriptionId): (n: SubscriptionId)
    ensures c < SubscriptionIdCount - 1 ==> n == c + 1
    ensures c == SubscriptionIdCount - 1 ==> n == 0
  {
    (c + 1) % SubscriptionIdCount
  }

  /** `calls` invokes every handler of `handlers` exactly once, each with `sender` and
      `message`, and nothing else. */
  ghost predicate CallsEachOnce(calls: seq<HandlerCall>, handlers: map<SubscriptionId, HandlerId>, sender: Connection, message: seq<Byte>) {
    && (forall i :: 0 <= i < |calls| ==>
          calls[i].subscription in handlers && calls[i].handler == handlers[calls[i].subscription]
          && calls[i].sender == sender && calls[i].message == message)
    && (forall i, j :: 0 <= i < j < |calls| ==> calls[i].subscription != calls[j].subscription)
    && (forall s :: s in handlers ==> exists i :: 0 <= i < |calls| && calls[i].subscription == s)
  }

  /** Calling each handler once means as many calls as handlers. */
  lemma {:induction false} CallsEachOnceCount(calls: seq<HandlerCall>, handlers: map<SubscriptionId, HandlerId>, sender: Connection, message: seq<Byte>)
    requires CallsEachOnce(calls, handlers, sender, message)
    ensures |calls| == |handlers|
  {
    var ids := set i | 0 <= i < |calls| :: calls[i].subscription;
    assert ids == handlers.Keys;
    CardinalityOfIds(calls, |calls|);
  }

  /** Distinct subscriptions in the first `n` calls form a set of size `n`. */
  lemma {:induction false} CardinalityOfIds(calls: seq<HandlerCall>, n: nat)
    requires n <= |calls|
    requires forall i, j :: 0 <= i < j < |calls| ==> calls[i].subscription != calls[j].subscription
    ensures |set i | 0 <= i < n :: calls[i].subscription| == n
  {
    if n > 0 {
      CardinalityOfIds(calls, n - 1);
      var before := set i | 0 <= i < n - 1 :: calls[i].subscription;
      assert (set i | 0 <= i < n :: calls[i].subscription) == before + {calls[n - 1].subscription};
      assert calls[n - 1].subscription !in before;
    }
  }

  class ChannelSubscription {
    var counter: SubscriptionId
    var handlers: map<SubscriptionId, HandlerId>

    /** Every subscription id in use was handed out before the counter's current value;
        this holds until the counter wraps. */
    ghost predicate Valid()
      reads this
    {
      forall id :: id in handlers ==> id < counter
    }

    /** A fresh subscription: counter 0, no handlers. */
    constructor ()
      ensures Valid() && counter == 0 && handlers == map[]
    {
      counter := 0;
      handlers := map[];
    }

    /** subscribe: the handler is stored under the current counter value, which is
        returned; the counter is then incremented. Before the counter wraps, the new id is
        larger than every id in use, so ids are distinct and increasing. */
    method Subscribe(handler: HandlerId) returns (id: SubscriptionId)
      modifies this
      ensures id == old(counter) && counter == NextSubscriptionId(old(counter))
      ensures handlers == old(handlers)[id := handler]
      ensures old(Valid()) && old(counter) < SubscriptionIdCount - 1 ==>
        Valid() && id !in old(handlers) && (forall other :: other in old(handlers) ==> other < id)
    {
      id := counter;
      counter := NextSubscriptionId(counter);
      handlers := handlers[id := handler];
    }

    /** unsubscribe: erases that id only (an unknown id changes nothing) and reports
        whether no handlers remain. */
    method Unsubscribe(id: SubscriptionId) returns (empty: bool)
      modifies this`handlers
      ensures handlers == old(handlers) - {id}
      ensures empty <==> handlers == map[]
      ensures id !in old(handlers) ==> handlers == old(handlers)
      ensures old(Valid()) ==> Valid()
    {
      handlers := handlers - {id};
      empty := |handlers| == 0;
      if handlers != map[] {
        var k :| k in handlers;
        assert |handlers.Keys| > 0 by { assert k in handlers.Keys; }
      }
    }

    /** propagate_to_handlers: every handler is called exactly once with the sender and the
        message. The unordered_map's iteration order is left open. */
    method Propagate(sender: Connection, message: seq<Byte>) returns (calls: seq<HandlerCall>)
      ensures CallsEachOnce(calls, handlers, sender, message)
      ensures |calls| == |handlers|
    {
      var remaining := handlers.Keys;
      calls := [];
      while remaining != {}
        invariant remaining <= handlers.Keys
        invariant forall i :: 0 <= i < |calls| ==>
          calls[i].subscription in handlers && calls[i].subscription !in remaining
          && calls[i].handler == handlers[calls[i].subscription]
          && calls[i].sender == sender && calls[i].message == message
        invariant forall i, j :: 0 <= i < j < |calls| ==> calls[i].subscription != calls[j].subscription
        invariant forall s :: s in handlers && s !in remaining ==>
          exists i :: 0 <= i < |calls| && calls[i].subscription == s
        decreases |remaining|
      {
        var s :| s in remaining;
        ghost var before := calls;
        calls := calls + [HandlerCall(s, handlers[s], sender, message)];
        remaining := remaining - {s};
        forall t | t in handlers && t !in remaining
          ensures exists i :: 0 <= i < |calls| && calls[i].subscription == t
        {
          if t == s {
            assert calls[|before|].subscription == t;
          } else {
            var i :| 0 <= i < |before| && before[i].subscription == t;
            assert calls[i] == before[i];
          }
        }
      }
      CallsEachOnceCount(calls, handlers, sender, message);
    }
  }
}
