/** ChanneledSocketConnection: a frame is one channel-id byte followed by exactly the
    channel's message_size payload bytes. The pure functions say what reading a frame
    does to a byte stream; the methods perform the sends and receives on a Connection. */
module Framing {
  import opened Errors
  import opened Sockets
  import opened Channels

  /** The outcome of a read together with what is left of the inbound stream. */
  datatype StreamRead<T> = StreamRead(result: Result<T>, rest: seq<Byte>)

  /** The bytes channeled_send puts on the wire. */
  function EncodeFrame(id: ChannelId, payload: seq<Byte>): seq<Byte> {
    [id] + payload
  }

  /** channeled_read_id on stream `s`: one byte, or ConnectionClosedException when the
      stream ends first (a close consumes what was left). */
  function ReadId(s: seq<Byte>): StreamRead<ChannelId> {
    if 1 <= |s| then StreamRead(Success(s[0]), s[1..]) else StreamRead(Failure(ConnectionClosed), [])
  }

  /** channeled_read(id) on stream `s`: BadChannelException before reading anything when
      the id is not registered; otherwise exactly message_size bytes, or
      ConnectionClosedException when the stream ends first. */
  function ReadPayload(reg: Registry, id: ChannelId, s: seq<Byte>): StreamRead<seq<Byte>> {
    match ChannelOf(reg, id)
    case Failure(e) => StreamRead(Failure(e), s)
    case Success(channel) =>
      if channel.messageSize <= |s| then StreamRead(Success(s[..channel.messageSize]), s[channel.messageSize..])
      else StreamRead(Failure(ConnectionClosed), [])
  }

  /** A whole frame: the id, then that channel's payload. */
  function ReadFrame(reg: Registry, s: seq<Byte>): StreamRead<(ChannelId, seq<Byte>)> {
    var idRead := ReadId(s);
    match idRead.result
    case Failure(e) => StreamRead(Failure(e), idRead.rest)
    case Success(id) =>
      var payloadRead := ReadPayload(reg, id, idRead.rest);
      match payloadRead.result
      case Failure(e) => StreamRead(Failure(e), payloadRead.rest)
      case Success(payload) => StreamRead(Success((id, payload)), payloadRead.rest)
  }

  /** `key` is registered and its id's channel carries its size (so the two ends agree on
      the frame length). */
  predicate Describes(reg: Registry, key: TypeKey) {
    key in reg.types && ChannelOf(reg, reg.types[key]) == Success(ChannelInfo(key.size, reg.types[key]))
  }

  /** Right after addNewChannel<T>, the registry describes T. */
  lemma AddDescribes(reg: Registry, key: TypeKey)
    ensures Describes(AddChannel(reg, key), key)
  {
    AddThenLookup(reg, key);
  }

  /** Round trip: what channeled_send<T>(m) writes reads back, with a shared registry, as
      getChannelId<T>() and the bytes of m, whatever follows it on the stream. */
  lemma FrameRoundTrip(reg: Registry, key: TypeKey, message: seq<Byte>, rest: seq<Byte>)
    requires Describes(reg, key) && |message| == key.size
    ensures ReadFrame(reg, EncodeFrame(reg.types[key], message) + rest)
      == StreamRead(Success((reg.types[key], message)), rest)
  {
    var s := EncodeFrame(reg.types[key], message) + rest;
    assert s[0] == reg.types[key];
    assert s[1..] == message + rest;
    assert (message + rest)[..|message|] == message;
    assert (message + rest)[|message|..] == rest;
  }

  /** A successful frame read consumes exactly one id byte and that channel's
      message_size bytes, and the payload has that length. */
  lemma FrameConsumption(reg: Registry, s: seq<Byte>)
    requires ReadFrame(reg, s).result.Success?
    ensures var r := ReadFrame(reg, s);
      var (id, payload) := r.result.value;
      && id in reg.ids
      && |payload| == reg.ids[id].messageSize
      && s == EncodeFrame(id, payload) + r.rest
  {
    var r := ReadFrame(reg, s);
    var (id, payload) := r.result.value;
    assert s == [s[0]] + s[1..];
    assert s[1..] == s[1..][..|payload|] + s[1..][|payload|..];
  }

  /** A peer that closes before a whole frame for a registered channel has arrived makes
      the read fail with ConnectionClosedException and leaves nothing on the stream. */
  lemma TruncatedFrame(reg: Registry, id: ChannelId, partial: seq<Byte>)
    requires id in reg.ids && |partial| < reg.ids[id].messageSize
    ensures ReadFrame(reg, [id] + partial) == StreamRead(Failure(ConnectionClosed), [])
    ensures ReadFrame(reg, []) == StreamRead(Failure(ConnectionClosed), [])
  {
    assert ([id] + partial)[1..] == partial;
  }

  /** An id with no registered channel fails with BadChannelException after consuming only
      the id byte. */
  lemma UnknownChannel(reg: Registry, id: ChannelId, s: seq<Byte>)
    requires id !in reg.ids
    ensures ReadFrame(reg, [id] + s) == StreamRead(Failure(BadChannel), s)
  {
    assert ([id] + s)[1..] == s;
  }

  /** channeled_send<T>(m): looks up T's id (BadChannelException before any byte is
      written), then sends the id byte and the sizeof(T) message bytes as two sends. */
  method ChanneledSend(registry: Channels, connection: Connection, key: TypeKey, message: seq<Byte>) returns (r: Outcome)
    requires |message| == key.size
    modifies connection`outbound, connection`sendCalls
    ensures r.Fail? <==> key !in registry.typesToIds
    ensures r.Fail? ==>
      r.error == BadChannel && connection.outbound == old(connection.outbound)
      && connection.sendCalls == old(connection.sendCalls)
    ensures r.Pass? ==>
      var id := registry.typesToIds[key];
      && connection.sendCalls == old(connection.sendCalls) + [[id], message]
      && connection.outbound == old(connection.outbound) + EncodeFrame(id, message)
  {
    var lookup := ChannelIdOf(registry.State(), key);
    if lookup.Failure? {
      return Fail(lookup.error);
    }
    var id := lookup.value;
    connection.Send([id]);
    connection.Send(message);
    return Pass;
  }

  /** channeled_read_id. */
  method ChanneledReadId(connection: Connection) returns (r: Result<ChannelId>)
    modifies connection`inbound
    ensures StreamRead(r, connection.inbound) == ReadId(old(connection.inbound))
  {
    var ok, data := connection.Receive(1);
    if !ok {
      return Failure(ConnectionClosed);
    }
    return Success(data[0]);
  }

  /** channeled_read(id): a buffer of message_size bytes. */
  method ChanneledRead(registry: Channels, connection: Connection, id: ChannelId) returns (r: Result<seq<Byte>>)
    modifies connection`inbound
    ensures StreamRead(r, connection.inbound) == ReadPayload(registry.State(), id, old(connection.inbound))
  {
    var channel :- ChannelOf(registry.State(), id);
    var ok, data := connection.Receive(channel.messageSize);
    if !ok {
      return Failure(ConnectionClosed);
    }
    return Success(data);
  }
}
