/** ChannelSubscribable: a table from channel id to that channel's ChannelSubscription,
    with entries created on the first subscribe and dropped with the last unsubscribe, and
    the dispatch of one incoming frame. handleSocketDisconnect belongs to the endpoint
    that embeds the table: dispatch reports a closed peer as PeerClosed and the endpoint
    reacts to it. */
module Subscribable {
  import opened Errors
  import opened Sockets
  import opened Channels
  import opened Framing
  import opened Subscription

  /** The state of one channel's subscription. */
  datatype SubState = SubState(counter: SubscriptionId, handlers: map<SubscriptionId, HandlerId>)

  /** What handleIncomingMessage did with one frame. */
  datatype Incoming =
    | Delivered(channel: ChannelId, calls: seq<HandlerCall>)  // every handler of the channel was called
    | Dropped(channel: ChannelId)                             // no entry for the channel: dropped silently
    | PeerClosed                                              // ConnectionClosedException: handleSocketDisconnect

  class ChannelSubscribable {
    var subscriptions: map<ChannelId, ChannelSubscription>

    /** Each channel has its own subscription object, and an entry exists only while the
        channel has at least one handler. */
    ghost predicate Valid()
      reads this, subscriptions.Values
    {
      && (forall a, b :: a in subscriptions && b in subscriptions && a != b ==> subscriptions[a] != subscriptions[b])
      && (forall ch :: ch in subscriptions ==> subscriptions[ch].handlers != map[])
    }

    /** The table as a value. */
    ghost function View(): map<ChannelId, SubState>
      reads this, subscriptions.Values
    {
      map ch | ch in subscriptions :: SubState(subscriptions[ch].counter, subscriptions[ch].handlers)
    }

    /** The subscription a subscribe on `ch` works on: the existing one, or a fresh one. */
    ghost function Found(ch: ChannelId): SubState
      reads this, subscriptions.Values
    {
      if ch in subscriptions then SubState(subscriptions[ch].counter, subscriptions[ch].handlers)
      else SubState(0, map[])
    }

    constructor ()
      ensures Valid() && subscriptions == map[]
    {
      subscriptions := map[];
    }

    /** subscribe<T>: BadChannelException, with nothing created, when T is not registered;
        otherwise the handler joins T's channel entry, created if absent, and gets the
        channel's own next subscription id. Other channels are untouched. */
    method Subscribe(registry: Channels, key: TypeKey, handler: HandlerId) returns (r: Result<SubscriptionId>)
      requires Valid()
      modifies this, subscriptions.Values
      ensures Valid()
      ensures key !in registry.typesToIds ==> r == Failure(BadChannel) && View() == old(View())
      ensures key in registry.typesToIds ==>
        var ch := registry.typesToIds[key];
        var s := old(Found(ch));
        && r == Success(s.counter)
        && View() == old(View())[ch := SubState(NextSubscriptionId(s.counter), s.handlers[s.counter := handler])]
        && (ch in old(subscriptions) ==> subscriptions == old(subscriptions))
    {
      var lookup := ChannelIdOf(registry.State(), key);
      if lookup.Failure? {
        return Failure(lookup.error);
      }
      var ch := lookup.value;
      var subscription: ChannelSubscription;
      if ch in subscriptions {
        subscription := subscriptions[ch];
      } else {
        subscription := new ChannelSubscription();
        subscriptions := subscriptions[ch := subscription];
      }
      var id := subscription.Subscribe(handler);
      return Success(id);
    }

    /** unsubscribe<T>: BadChannelException when T is not registered; out_of_range when T's
        channel has no entry; otherwise the id is erased from the channel's handlers and the
        entry is dropped exactly when no handler remains. */
    method Unsubscribe(registry: Channels, key: TypeKey, id: SubscriptionId) returns (r: Outcome)
      requires Valid()
      modifies this, subscriptions.Values
      ensures Valid()
      ensures key !in registry.typesToIds ==> r == Fail(BadChannel) && View() == old(View())
      ensures key in registry.typesToIds && registry.typesToIds[key] !in old(subscriptions) ==>
        r == Fail(OutOfRange) && View() == old(View())
      ensures key in registry.typesToIds && registry.typesToIds[key] in old(subscriptions) ==>
        var ch := registry.typesToIds[key];
        var s := old(View())[ch];
        var remaining := s.handlers - {id};
        && r == Pass
        && (remaining == map[] ==> View() == old(View()) - {ch})
        && (remaining != map[] ==> View() == old(View())[ch := SubState(s.counter, remaining)])
    {
      var lookup := ChannelIdOf(registry.State(), key);
      if lookup.Failure? {
        return Fail(lookup.error);
      }
      var ch := lookup.value;
      if ch !in subscriptions {
        return Fail(OutOfRange);
      }
      var subscription := subscriptions[ch];
      var empty := subscription.Unsubscribe(id);
      if empty {
        subscriptions := subscriptions - {ch};
      }
      return Pass;
    }

    /** handleIncomingMessage: reads a whole frame before looking at the table. A frame on a
        channel with an entry reaches each of its handlers, with the reading socket as
        sender; one on a channel without an entry is dropped. A close during either read
        is reported as PeerClosed; BadChannelException for an unknown id propagates. */
    method HandleIncomingMessage(registry: Channels, socket: Connection) returns (r: Result<Incoming>)
      modifies socket`inbound
      ensures var frame := ReadFrame(registry.State(), old(socket.inbound));
        && socket.inbound == frame.rest
        && (frame.result.Failure? && frame.result.error == ConnectionClosed ==> r == Success(PeerClosed))
        && (frame.result.Failure? && frame.result.error != ConnectionClosed ==> r == Failure(frame.result.error))
        && (frame.result.Success? ==>
              var (ch, payload) := frame.result.value;
              && (ch !in subscriptions ==> r == Success(Dropped(ch)))
              && (ch in subscriptions ==>
                    r.Success? && r.value.Delivered? && r.value.channel == ch
                    && CallsEachOnce(r.value.calls, subscriptions[ch].handlers, socket, payload)))
    {
      var idRead := ChanneledReadId(socket);
      if idRead.Failure? {
        return Success(PeerClosed);
      }
      var ch := idRead.value;
      var data := ChanneledRead(registry, socket, ch);
      if data.Failure? {
        if data.error == ConnectionClosed {
          return Success(PeerClosed);
        }
        return Failure(data.error);
      }
      if ch in subscriptions {
        var calls := subscriptions[ch].Propagate(socket, data.value);
        return Success(Delivered(ch, calls));
      }
      return Success(Dropped(ch));
    }

    /** The destructor: the table is emptied. */
    method Clear()
      modifies this`subscriptions
      ensures Valid() && subscriptions == map[] && View() == map[]
    {
      subscriptions := map[];
    }
  }
}
