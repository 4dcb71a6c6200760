/** The channel registry: a counter that hands out one-byte channel ids, a map from id
    to channel (message size and id) and a map from message type to id. A message type is
    modelled as a key that carries its name and its size in bytes. */
module Channels {
  import opened Errors
  import opened Sockets

  /** CHANNEL_ID is NETWORK_BYTE: ids lie in [0, 256). */
  type ChannelId = Byte

  /** A message type (type_index) together with its sizeof. */
  datatype TypeKey = TypeKey(name: string, size: nat)

  /** A ChannelInterface: exactly the size and id it was constructed with. */
  datatype ChannelInfo = ChannelInfo(messageSize: nat, id: ChannelId)

  /** The three static members of Channels, as one value. */
  datatype Registry = Registry(ids: map<ChannelId, ChannelInfo>, types: map<TypeKey, ChannelId>, counter: ChannelId)

  /** The registry at program start: both maps empty, counter 0. */
  function Initial(): Registry {
    Registry(map[], map[], 0)
  }

  /** The one-byte counter after a post-increment: it wraps from 255 to 0. */
  function NextId(c: ChannelId): (n: ChannelId)
    ensures c < 255 ==> n == c + 1
    ensures c == 255 ==> n == 0
  {
    (c + 1) % 256
  }

  /** getChannelId<T>: the recorded id of `key`, or BadChannelException; never a default. */
  function ChannelIdOf(reg: Registry, key: TypeKey): (r: Result<ChannelId>)
    ensures r.Success? <==> key in reg.types
    ensures r.Success? ==> reg.types[key] == r.value
    ensures r.Failure? ==> r.error == BadChannel
  {
    if key in reg.types then Success(reg.types[key]) else Failure(BadChannel)
  }

  /** getChannel(id): the stored channel, or BadChannelException; never a default. */
  function ChannelOf(reg: Registry, id: ChannelId): (r: Result<ChannelInfo>)
    ensures r.Success? <==> id in reg.ids
    ensures r.Success? ==> reg.ids[id] == r.value
    ensures r.Failure? ==> r.error == BadChannel
  {
    if id in reg.ids then Success(reg.ids[id]) else Failure(BadChannel)
  }

  /** addNewChannel<T>: a Channel<T> takes the next id and sizeof(T); it is stored under
      that id, and T is mapped to that id. */
  function AddChannel(reg: Registry, key: TypeKey): Registry {
    Registry(reg.ids[reg.counter := ChannelInfo(key.size, reg.counter)],
             reg.types[key := reg.counter],
             NextId(reg.counter))
  }

  /** Every stored channel carries the id it is stored under, and every type's id is
      stored. */
  predicate Consistent(reg: Registry) {
    && (forall id :: id in reg.ids ==> reg.ids[id].id == id)
    && (forall k :: k in reg.types ==> reg.types[k] in reg.ids)
  }

  /** Every id handed out so far is below the counter: the counter has not wrapped. */
  predicate Unwrapped(reg: Registry) {
    forall id :: id in reg.ids ==> id < reg.counter
  }

  /** registry start: nothing is registered, the first channel will get id 0. */
  lemma InitialIsEmpty(key: TypeKey, id: ChannelId)
    ensures ChannelIdOf(Initial(), key) == Failure(BadChannel)
    ensures ChannelOf(Initial(), id) == Failure(BadChannel)
    ensures Consistent(Initial()) && Unwrapped(Initial())
    ensures ChannelIdOf(AddChannel(Initial(), key), key) == Success(0)
  {
  }

  /** After addNewChannel<T>, getChannel(getChannelId<T>()) reports sizeof(T) and the id
      the counter held, and the counter has moved on by one. */
  lemma AddThenLookup(reg: Registry, key: TypeKey)
    ensures ChannelIdOf(AddChannel(reg, key), key) == Success(reg.counter)
    ensures ChannelOf(AddChannel(reg, key), reg.counter) == Success(ChannelInfo(key.size, reg.counter))
    ensures AddChannel(reg, key).counter == NextId(reg.counter)
  {
  }

  /** Registration writes only the new id's entry and the new type's entry: other types
      keep their ids, and other ids keep their channels. */
  lemma AddKeepsOthers(reg: Registry, key: TypeKey, other: TypeKey, id: ChannelId)
    requires other != key && id != reg.counter
    ensures ChannelIdOf(AddChannel(reg, key), other) == ChannelIdOf(reg, other)
    ensures ChannelOf(AddChannel(reg, key), id) == ChannelOf(reg, id)
  {
  }

  /** Registering keeps the registry consistent. */
  lemma AddKeepsConsistent(reg: Registry, key: TypeKey)
    requires Consistent(reg)
    ensures Consistent(AddChannel(reg, key))
  {
  }

  /** Before the counter wraps, each registration gets an id no channel has yet, so every
      other type's channel is unchanged. */
  lemma AddFreshId(reg: Registry, key: TypeKey, other: TypeKey)
    requires Consistent(reg) && Unwrapped(reg) && reg.counter < 255
    requires other != key && other in reg.types
    ensures reg.counter !in reg.ids
    ensures Unwrapped(AddChannel(reg, key))
    ensures ChannelOf(AddChannel(reg, key), reg.types[other]) == ChannelOf(reg, reg.types[other])
  {
  }

  /** Registering a type twice is not rejected: the type moves to the newer id and the
      older id keeps its channel. */
  lemma RegisterTwice(reg: Registry, key: TypeKey)
    ensures var twice := AddChannel(AddChannel(reg, key), key);
      && ChannelIdOf(twice, key) == Success(NextId(reg.counter))
      && ChannelOf(twice, reg.counter) == Success(ChannelInfo(key.size, reg.counter))
  {
  }

  /** The registry after registering `keys` in order. */
  function RegisterAll(reg: Registry, keys: seq<TypeKey>): Registry
    decreases |keys|
  {
    if keys == [] then reg else AddChannel(RegisterAll(reg, keys[..|keys| - 1]), keys[|keys| - 1])
  }

  /** No type appears twice. */
  predicate Distinct(keys: seq<TypeKey>) {
    forall i, j :: 0 <= i < j < |keys| ==> keys[i] != keys[j]
  }

  /** Registering up to 256 distinct types from start gives them ids 0, 1, 2, ... in
      order, each stored with its own size. */
  lemma {:induction false} RegisterAllIds(keys: seq<TypeKey>)
    requires |keys| <= 256 && Distinct(keys)
    ensures RegisterAll(Initial(), keys).counter == |keys| % 256
    ensures forall i :: 0 <= i < |keys| ==>
      ChannelIdOf(RegisterAll(Initial(), keys), keys[i]) == Success(i)
      && ChannelOf(RegisterAll(Initial(), keys), i) == Success(ChannelInfo(keys[i].size, i))
    ensures forall id :: id in RegisterAll(Initial(), keys).ids ==> id < |keys|
  {
    if keys != [] {
      var n := |keys| - 1;
      var prefix := keys[..n];
      assert Distinct(prefix) by {
        forall i, j | 0 <= i < j < n ensures prefix[i] != prefix[j] {
          assert prefix[i] == keys[i] && prefix[j] == keys[j];
        }
      }
      RegisterAllIds(prefix);
      var before := RegisterAll(Initial(), prefix);
      assert before.counter == n;
      forall i | 0 <= i < |keys|
        ensures ChannelIdOf(RegisterAll(Initial(), keys), keys[i]) == Success(i)
          && ChannelOf(RegisterAll(Initial(), keys), i) == Success(ChannelInfo(keys[i].size, i))
      {
        if i < n {
          assert keys[i] == prefix[i] && keys[i] != keys[n];
        }
      }
    }
  }

  /** The 257th distinct type wraps the counter to 0: the first type still reports id 0,
      but channel 0 now carries the 257th type's size. */
  lemma WrapAliases(keys: seq<TypeKey>)
    requires |keys| == 257 && Distinct(keys)
    ensures ChannelIdOf(RegisterAll(Initial(), keys), keys[0]) == Success(0)
    ensures ChannelIdOf(RegisterAll(Initial(), keys), keys[256]) == Success(0)
    ensures ChannelOf(RegisterAll(Initial(), keys), 0) == Success(ChannelInfo(keys[256].size, 0))
  {
    var prefix := keys[..256];
    assert Distinct(prefix) by {
      forall i, j | 0 <= i < j < 256 ensures prefix[i] != prefix[j] {
        assert prefix[i] == keys[i] && prefix[j] == keys[j];
      }
    }
    RegisterAllIds(prefix);
    assert keys[0] == prefix[0] && keys[0] != keys[256];
  }

  /** The Channels class with its static state made explicit. */
  class Channels {
    var idsToChannels: map<ChannelId, ChannelInfo>
    var typesToIds: map<TypeKey, ChannelId>
    var counter: ChannelId

    /** The registry as a value. */
    function State(): Registry
      reads this
    {
      Registry(idsToChannels, typesToIds, counter)
    }

    /** The static initialisation. */
    constructor ()
      ensures State() == Initial()
    {
      idsToChannels := map[];
      typesToIds := map[];
      counter := 0;
    }

    /** getNextId: the current counter, which is then incremented (wrapping at 256). */
    method GetNextId() returns (id: ChannelId)
      modifies this`counter
      ensures id == old(counter) && counter == NextId(old(counter))
    {
      id := counter;
      counter := NextId(counter);
    }

    /** addNewChannel<T>. */
    method AddNewChannel(key: TypeKey)
      modifies this
      ensures State() == AddChannel(old(State()), key)
    {
      var id := GetNextId();
      var channel := ChannelInfo(key.size, id);
      idsToChannels := idsToChannels[channel.id := channel];
      typesToIds := typesToIds[key := channel.id];
    }
  }
}
