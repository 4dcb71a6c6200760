# SunNet core in Dafny

SunNet is a small C++ socket library. Its sockets can send typed messages on numbered
channels, and a server and a client drive them from a poll loop. This project models the
sequential logic under the OS calls and proves properties of that model:

- **Poll service** (`poll_service.dfy`, `socket_collection.dfy`). The `PollService` class
  holds a vector of poll descriptors and a map from each descriptor to its position in that
  vector and its connection.
  - `add_socket`, `remove_socket` (with the renumbering loop) and `clear_sockets` update
    those fields in place.
  - They keep the index invariant `Valid()`.
  - `poll()` classifies the OS revents into NORMAL / DISCONNECT / ERROR and collects the
    ready connections into a duplicate-free collection.
  - The OS call is an input: the value `socket_poll` returns and one revents value per
    descriptor.
- **Channel registry** (`channels.dfy`). A one-byte counter plus the maps id→channel and
  type→id. A message type is a key that carries its size.
- **Framed connection** (`sockets.dfy`, `framing.dfy`). A connection is an object with an
  inbound and an outbound byte stream.
  - `receive(n)` fails when the peer closes before `n` bytes arrive.
  - A frame is one channel-id byte followed by exactly the channel's message size.
  - Frame reading is specified by pure functions. The `channeled_*` methods are proved
    against them.
- **Subscriptions** (`subscription.dfy`, `subscribable.dfy`).
  - Each channel has its own subscription counter and handler map.
  - The channel table creates an entry lazily and drops it with the last handler.
  - Dispatching one frame calls every handler of its channel once, or drops the frame.
  - Handlers are opaque ids, and each call is recorded as a `HandlerCall`.
- **Endpoints** (`endpoint.dfy`, `server.dfy`, `client.dfy`). `ChanneledServer` and
  `ChanneledClient` are classes with a state field and guarded transitions.
  - Each has a `poll` that maps every ready entry to one hook call.
  - The hooks the base class decides on are recorded in the ghost trace `hooks`. Calls into
    user code are recorded in `events`.
  - What the control thread or a hook does between two checkpoints of the poll loop
    (`close()`/`disconnect()`, or the destructor's forced DESTRUCTING) is an input
    `steps: seq<Interference>`.
  - The pure functions `Dispatch`/`PollTrace` say which hooks poll calls and how it ends.
    Each hook method records its own call in `hooks`.
  - `Handles` says which user calls each hook makes and when it can throw. Poll returns
    the user calls of each hook as a ghost `answers`. On the server, `TrackedAfter` gives
    the tracked descriptors that follow from them.

Exceptions become values: an operation that can throw returns a `Result` or an `Outcome`.

Where the library's doc comments and its code disagree, the model follows the code:
- `PollService::poll` silently skips a ready descriptor it does not track
  (src/pollservice.cpp:60-66). Its doc comment (include/pollservice.h:64-72) says it throws
  `InvalidSocketConnectionException` when a watched socket's descriptor cannot be found.
  The code throws it only for a tracked descriptor whose connection is null.
- `Server::open` moves to OPEN and tracks the listening connection *before* bind and listen
  run (include/server.h:212-222). The comment at include/server.h:218 says the state
  changes only if both succeed. A bind or listen failure in fact leaves the server OPEN
  with the listener tracked.
- `Client::disconnect` is allowed from CONNECTED and from CLOSED, although its doc comment
  says it throws when the client is not connected (client.h:136-139).
- `Client::poll` compares an entry's connection with its own *before* the DESTRUCTING
  checkpoint (client.h:202-205). A foreign entry therefore throws even after the destructor
  has begun.

## Model

| member | source | states |
|---|---|---|
| `Errors.Exception.GetDescriptor` | include/pollservice.h:89-91 | the descriptor returned is the one the exception was built with |
| `Errors.InvalidSocketConnectionIsPollException` | include/pollservice.h:81-92 | an InvalidSocketConnectionException is a PollException and reports its descriptor |
| `Sockets.Connection.Send` | socket_connection.cpp:83-99 | all bytes are appended to the outbound stream, as one send call |
| `Sockets.Connection.Receive` | socket_connection.cpp:102-123 | true iff `n` bytes were available; then exactly those bytes are consumed; otherwise the peer closed, and what arrived is consumed |
| `Sockets.Connection.Accept` | socket_connection.cpp:159-170 | AcceptException when no connection is queued (standing for the OS call's failure); otherwise the next queued connection, which leaves the queue |
| `SocketCollection.HashConsistent` | socket_collection.h:16-25 | equal entries (same connection, any status) have the same hash |
| `SocketCollection.Insert` | socket_collection.h:27 | insertion grows the set by at most one entry; afterwards the connection is present; a connection already present leaves the set unchanged; the set stays duplicate-free |
| `SocketCollection.UniqueConnections` | socket_collection.h:27 | a duplicate-free collection has as many distinct connections as entries |
| `PollService.Classify` | src/pollservice.cpp:75-84 | ERR or NVAL gives ERROR; otherwise HUP gives DISCONNECT; otherwise NORMAL (each as an iff) |
| `PollService.ScanStaysFailed` | src/pollservice.cpp:71-73 | once the loop has thrown, later descriptors do not change the outcome |
| `PollService.ScanFails` | src/pollservice.cpp:57-88 | the loop throws InvalidSocketConnectionException iff some reportable tracked descriptor has a null connection, and then names such a descriptor |
| `PollService.ScanMembers` | src/pollservice.cpp:57-88 | every reported entry is the connection of a reportable tracked descriptor with its classified status; every reportable tracked descriptor is reported; no connection appears twice |
| `PollService.ValidPollSucceeds` | src/pollservice.cpp:49-92 | under the index invariant, poll fails iff the OS call failed (with a PollException); on success it reports only tracked connections, each once |
| `PollService.PollService.constructor` | include/pollservice.h:31 | the timeout defaults to 10; nothing is tracked |
| `PollService.PollService.WithSocket` | src/pollservice.cpp:12-14 | exactly the given socket is tracked, at index 0 |
| `PollService.PollService.AddSocket` | src/pollservice.cpp:16-23 | one POLLIN descriptor is appended and the descriptor maps to the new last index; for an untracked descriptor the invariant holds and the socket joins the tracked set |
| `PollService.PollService.RemoveSocket` | src/pollservice.cpp:25-42 | an untracked descriptor changes nothing; otherwise exactly that descriptor and key go; other descriptors keep their order; later indices drop by one and earlier ones stay; the invariant is kept |
| `PollService.PollService.RemovedIsValid` | src/pollservice.cpp:32-41 | the state left by deleting one descriptor and renumbering the later ones satisfies the index invariant |
| `PollService.PollService.ClearSockets` | src/pollservice.cpp:44-47 | the descriptors and the map are empty and the invariant holds |
| `PollService.PollService.Poll` | src/pollservice.cpp:49-92 | the results are cleared first; the outcome is the OS failure, no entries (zero ready), or the loop's collection |
| `Channels.NextId` | include/channels.h:78 | the one-byte counter increments and wraps from 255 to 0 |
| `Channels.ChannelIdOf` | include/channels.h:55-64 | getChannelId succeeds iff the type is registered, with its recorded id; otherwise BadChannelException |
| `Channels.ChannelOf` | src/channels.cpp:11-19 | getChannel succeeds iff the id is stored, with its channel; otherwise BadChannelException, never a default |
| `Channels.InitialIsEmpty` | src/channels.cpp:4-6 | the registry starts empty and the first registered type gets id 0 |
| `Channels.AddThenLookup` | include/channels.h:85-90 | after addNewChannel, getChannel(getChannelId) reports sizeof(T) and the counter's old value |
| `Channels.AddKeepsOthers` | include/channels.h:85-90 | registration changes no other type's id and no other id's channel |
| `Channels.AddKeepsConsistent` | include/channels.h:99-103 | each stored channel keeps the id it is stored under |
| `Channels.AddFreshId` | include/channels.h:78 | before the counter wraps, a new registration gets an unused id and leaves every other type's channel alone |
| `Channels.RegisterTwice` | include/channels.h:88-89 | registering a type twice moves it to the newer id (the next counter value, 0 after 255) and keeps the older id's channel |
| `Channels.RegisterAllIds` | include/channels.h:99-103 | registering up to 256 distinct types from the start gives ids 0, 1, 2, ... in order, each with its own size |
| `Channels.WrapAliases` | include/channels.h:10 | the 257th type wraps to id 0, and channel 0 then carries the 257th type's size |
| `Channels.Channels.constructor` | src/channels.cpp:4-6 | the static registry starts with both maps empty and counter 0 |
| `Channels.Channels.GetNextId` | include/channels.h:78 | returns the counter, then increments it |
| `Channels.Channels.AddNewChannel` | include/channels.h:85-90 | the registry becomes AddChannel of the old registry |
| `Framing.AddDescribes` | include/channels.h:99-103 | right after registration, the type's id names a channel carrying the type's size |
| `Framing.FrameRoundTrip` | include/channeled_socket_connection.h:28-79 | the bytes channeled_send writes read back as the type's id and the message, leaving what follows |
| `Framing.FrameConsumption` | include/channeled_socket_connection.h:38-79 | a frame read consumes exactly one id byte and message_size payload bytes |
| `Framing.TruncatedFrame` | include/channeled_socket_connection.h:41-72 | a close before a whole frame arrives gives ConnectionClosedException |
| `Framing.UnknownChannel` | include/channeled_socket_connection.h:67 | an unknown id gives BadChannelException after only the id byte |
| `Framing.ChanneledSend` | include/channeled_socket_connection.h:28-33 | BadChannelException iff the type is unregistered, with nothing written; otherwise two sends, the id byte then the message |
| `Framing.ChanneledReadId` | include/channeled_socket_connection.h:38-46 | the result and the stream are those of ReadId |
| `Framing.ChanneledRead` | include/channeled_socket_connection.h:66-79 | the result and the stream are those of ReadPayload |
| `Subscription.NextSubscriptionId` | include/channel_subscription.h:52 | the 32-bit counter increments and wraps |
| `Subscription.CallsEachOnceCount` | include/channel_subscription.h:81-83 | calling each handler once means exactly as many calls as handlers |
| `Subscription.ChannelSubscription.constructor` | include/channel_subscription.h:44 | counter 0, no handlers |
| `Subscription.ChannelSubscription.Subscribe` | include/channel_subscription.h:51-56 | returns the old counter, stores the handler under it, and increments; before the wrap the id is fresh and larger than every id in use |
| `Subscription.ChannelSubscription.Unsubscribe` | include/channel_subscription.h:63-66 | erases only that id (an unknown id changes nothing); true iff no handler remains |
| `Subscription.ChannelSubscription.Propagate` | include/channel_subscription.h:68-84 | every handler is called exactly once, with the sender and the message |
| `Subscribable.ChannelSubscribable.constructor` | include/channel_subscribable.h:25 | the table starts empty |
| `Subscribable.ChannelSubscribable.Subscribe` | include/channel_subscribable.h:53-74 | BadChannelException with nothing created for an unregistered type; otherwise the entry is reused or created, gets the handler under its own counter, and other channels are untouched |
| `Subscribable.ChannelSubscribable.Unsubscribe` | include/channel_subscribable.h:82-94 | BadChannelException; out_of_range without an entry; otherwise the entry is dropped iff its last handler went |
| `Subscribable.ChannelSubscribable.HandleIncomingMessage` | src/channel_subscribable.cpp:9-23 | a whole frame is read first; a close becomes PeerClosed; BadChannelException propagates; a frame without an entry is dropped; otherwise each handler is called once with the socket and payload |
| `Subscribable.ChannelSubscribable.Clear` | src/channel_subscribable.cpp:5-7 | the table is empty |
| `Endpoint.IsAllowed` | include/server.h:50-56 | true iff the current state is one of the allowed states |
| `Server.HookFor` | include/server.h:167-203 | the listener's entries go to the server hooks and all others to the peer hooks; ERROR, DISCONNECT and NORMAL pick the error, disconnect and ready hook |
| `Server.Apply` | include/server.h:142 | close() makes the state CLOSED with no listener; the destructor forces DESTRUCTING |
| `Server.DispatchQuiet` | include/server.h:167-204 | without interference poll calls one hook per ready entry, in order, and returns true |
| `Server.DispatchStopsAtDestructor` | include/server.h:162-199 | once the destructor has begun, no further hook is called and poll returns false |
| `Server.ShutdownMakesEveryEntryAPeer` | include/server.h:168 | after close() from a hook the loop goes on, and every later entry is dispatched as a peer |
| `Server.PollTimeoutTrace` | include/server.h:160-165 | an empty ready set gives one timeout hook and false, or no hook once the destructor has begun |
| `Server.ConnectionRequestTracksPeer` | include/server.h:99-104 | a connection request that returned made exactly one connect call, and its peer joins the tracked descriptors |
| `Server.AnswerAppended` | include/server.h:167-204 | one more hook acts on the tracked set left after the interference before its entry |
| `Server.ChanneledServer.constructor` | include/server.h:116-123 | starts CLOSED with no listener and a poll service using the poll timeout |
| `Server.ChanneledServer.StateTransition` | include/server.h:49-63 | InvalidStateTransitionException with the state unchanged unless the state is allowed; otherwise the new state |
| `Server.ChanneledServer.Open` | include/server.h:211-223 | only from CLOSED; OPEN with the listener tracked before bind/listen, whose failures leave it so |
| `Server.ChanneledServer.Serve` | include/server.h:230-232 | only from OPEN, to SERVE |
| `Server.ChanneledServer.Close` | include/server.h:238-253 | from SERVE, OPEN or CLOSED: CLOSED, nothing tracked, no listener; from DESTRUCTING it throws and changes nothing |
| `Server.ChanneledServer.Destroy` | include/server.h:131-147 | DESTRUCTING from any state, no listener, the subscription table empty |
| `Server.ChanneledServer.HandleServerConnectionError` | include/channeled_server.h:55 | the hook is recorded and its user hook called once |
| `Server.ChanneledServer.HandleServerDisconnect` | include/channeled_server.h:56 | the hook is recorded and its user hook called once |
| `Server.ChanneledServer.HandlePollTimeout` | include/channeled_server.h:59 | the hook is recorded and its user hook called once |
| `Server.ChanneledServer.HandleConnectionRequest` | include/server.h:99-104 | accept (AcceptException when nothing is queued), track the new peer, then the connect hook |
| `Server.ChanneledServer.HandleClientError` | include/channeled_server.h:35-38 | the peer is untracked, then handle_channeledclient_error |
| `Server.ChanneledServer.HandleClientDisconnect` | include/channeled_server.h:46-49 | the peer is untracked, then handleClientDisconnect |
| `Server.ChanneledServer.HandleSocketDisconnect` | include/channeled_server.h:29-32 | the peer is untracked, then handleClientDisconnect, without a hook of poll's |
| `Server.ChanneledServer.HandleReadyToRead` | include/channeled_server.h:19-26 | one frame is dispatched; a close untracks the peer and calls handleClientDisconnect; BadChannelException propagates; otherwise the handlers are called |
| `Server.ChanneledServer.HandleEntry` | include/server.h:167-202 | the hook HookFor picks is the one called, and its user calls are those Handles allows for it; the tracked set changes as its user calls say; the listener's NORMAL accepts the head of the backlog (AcceptException iff it is empty); a peer's NORMAL reads one frame, and a close gives the disconnect call, BadChannelException propagates, and otherwise the handlers are called or the frame is dropped |
| `Server.ChanneledServer.Poll` | include/server.h:154-205 | false and nothing else unless SERVE; a PollException propagates; otherwise the hooks are PollTrace's, or a prefix of them when a hook throws; each hook's user calls are those Handles allows; only the last hook can have thrown; the events are those calls in order; the tracked descriptors are TrackedAfter of them |
| `Server.ChanneledServer.DispatchReady` | include/server.h:160-204 | after the poll service answered: the hooks are PollTrace's or a prefix, with each hook's user calls and the tracked set as for Poll |
| `Server.ChanneledServer.DispatchLoop` | include/server.h:167-204 | the loop over a non-empty ready set: the hooks are Dispatch's or a prefix, with each hook's user calls and the tracked set as for Poll |
| `Server.ChanneledServer.HandleTimeout` | include/server.h:160-165 | the checkpoint, then the timeout hook and its one user call; a close() before it empties the tracked set |
| `Server.ChanneledServer.DispatchEntry` | include/server.h:167-202 | one loop turn: the checkpoint, then exactly the hook Dispatch predicts, its user calls as Handles allows, and the tracked set after a possible close() changed by those calls |
| `Client.HookFor` | client.h:202-217 | ERROR, DISCONNECT and NORMAL pick the error, disconnect and ready-to-read hook |
| `Client.Apply` | client.h:103 | disconnect() makes the state CLOSED with no connection; the destructor forces DESTRUCTING |
| `Client.Dispatch` | client.h:200-223 | the loop can only fail with InvalidSocketPollException |
| `Client.DispatchOwn` | client.h:200-223 | without interference and with only the client's own connection ready, one hook per entry, then true |
| `Client.DispatchForeign` | client.h:219-221 | an entry for another connection throws InvalidSocketPollException after the hooks of the entries before it |
| `Client.DispatchInterrupted` | client.h:200-221 | after disconnect() the next entry throws; after the destructor begins, the client's own entry stops poll with false and a foreign one still throws |
| `Client.PollTimeoutTrace` | client.h:193-198 | an empty ready set gives one timeout hook and false, or no hook once the destructor has begun |
| `Client.ConnectedPollIsOwn` | client.h:187-224 | while connected, at most one entry is ready, it is the client's own, and poll calls its one hook and returns true |
| `Client.ChanneledClient.constructor` | client.h:80-84 | starts CLOSED with no connection and a poll service using the poll timeout |
| `Client.ChanneledClient.AssertValidState` | client.h:42-54 | passes iff the state is allowed; otherwise InvalidStateTransitionException |
| `Client.ChanneledClient.StateTransition` | client.h:56-59 | the check, then the new state; on failure the state is unchanged |
| `Client.ChanneledClient.Connect` | client.h:121-129 | only from CLOSED; the connection is kept even if connecting fails; CONNECTED, tracking exactly the connection, only after connect and add succeed |
| `Client.ChanneledClient.Disconnect` | client.h:138-154 | from CONNECTED or CLOSED: CLOSED, nothing tracked, no connection; from DESTRUCTING it throws and changes nothing |
| `Client.ChanneledClient.Destroy` | client.h:92-112 | DESTRUCTING from any state, no connection, the subscription table empty |
| `Client.ChanneledClient.HandleClientError` | include/channeled_client.h:34 | the hook is recorded and its user hook called once |
| `Client.ChanneledClient.HandleClientDisconnect` | include/channeled_client.h:21-23 | the user hook is called once |
| `Client.ChanneledClient.HandlePollTimeout` | include/channeled_client.h:35 | the hook is recorded and its user hook called once |
| `Client.ChanneledClient.HandleReadyToRead` | include/channeled_client.h:21-30 | one frame is dispatched; a close only calls handle_client_disconnect; BadChannelException propagates; otherwise the handlers are called |
| `Client.ChanneledClient.HandleEntry` | client.h:203-217 | the hook HookFor picks is the one called, and its user calls are those Handles allows for it; NORMAL reads one frame, and a close gives the disconnect call, BadChannelException propagates, and otherwise the handlers are called or the frame is dropped |
| `Client.ChanneledClient.Poll` | client.h:187-224 | false and nothing else unless CONNECTED; a PollException propagates; otherwise the hooks and outcome are PollTrace's, or a prefix of the hooks when a hook throws BadChannelException; each hook's user calls are those Handles allows, and the events are those calls in order |
| `Client.ChanneledClient.DispatchReady` | client.h:193-223 | after the poll service answered: the hooks and outcome are PollTrace's, or a prefix when a hook throws, with each hook's user calls as for Poll |
| `Client.ChanneledClient.DispatchLoop` | client.h:200-223 | the loop over a non-empty ready set: the hooks and outcome are Dispatch's, or a prefix when a hook throws, with each hook's user calls as for Poll |
| `Client.ChanneledClient.HandleTimeout` | client.h:193-198 | the checkpoint, then the timeout hook and its one user call |
| `Client.ChanneledClient.DispatchEntry` | client.h:200-221 | one loop turn: the connection check, the checkpoint, then exactly the hook Dispatch predicts, with its user calls as Handles allows |
| `Client.ChanneledClient.Send` | client.h:162-164 | all bytes go out on the connection |
| `Client.ChanneledClient.Read` | client.h:172-174 | the next `n` bytes, or a short buffer, without a signal, when the peer closed first |
| `Client.ChanneledClient.ChanneledSend` | include/channeled_client.h:48-51 | channeled_send on the client's own connection |
| `Client.ChanneledClient.ChanneledReadId` | include/channeled_client.h:60-63 | channeled_read_id on the client's own connection |
| `Client.ChanneledClient.ChanneledRead` | include/channeled_client.h:73-76 | channeled_read(id) on the client's own connection |

## Left out

- Threads: the poll thread and the control thread are not interleaved. What can happen
  between two checkpoints of a poll loop is the input `steps`. Joins, the destructor race
  and the timing of a checkpoint are not modelled.
- OS sockets: socket creation, `bind`, `listen`, `connect` and `getaddrinfo` are not
  modelled. Their success is a boolean input (`bindOk`, `listenOk`, `connectOk`), and the
  connection they create is a parameter. WinSock start-up and teardown are not modelled.
- Transport faults: `SendException` and `ReceiveException` are not modelled. Send
  delivers every byte, and receive only distinguishes a complete read from an orderly
  close. The chunked send/recv loops are reduced to one step each.
- Accept: the descriptors `accept` hands out are assumed fresh. This is the `FreshBacklog`
  clause of the server's invariant, and is required of the listener given to `Open`.
- Accept failure: `accept` blocks while nothing is queued and throws `AcceptException` only
  when the OS call fails. The model stands for that failure with an empty backlog.
- Client.ChanneledClient.Poll: the tracked set after the loop is not stated. The client's
  hooks never touch the poll service; only a `disconnect()` step empties it.
- Poll timing: the timeout value is stored but has no effect. The OS result is an input.
- `PollReturnEventException` is declared but never thrown, so it is not modelled.
- `add_sockets` and the iterator constructor of `PollService` are not modelled. They do not
  compile: `add_sockets` has a comma where a semicolon belongs (include/pollservice.h:55).
- `channeled_read<T>()` is not modelled. It calls a `read` member that does not exist
  (include/channeled_socket_connection.h:54-57).
- Iteration order: the `unordered_set` of poll results is kept in insertion order.
  `propagate_to_handlers` calls handlers in an order the model leaves open.
- Typed decoding: `reinterpret_cast` of the payload, `std::function` and `type_index` are
  not modelled. Payloads stay bytes, types are keys carrying their size, and handlers are
  ids.
- The registry is a `Channels` object handed to the endpoints, not a static global. Its
  one-byte counter wraps, and `WrapAliases` shows the aliasing that follows.
- Subscription.ChannelSubscription.Subscribe: id freshness is proved only while the
  32-bit counter has not wrapped. After 2^32 subscriptions on one channel an id is reused.
- Inheritance: `ChanneledServer` merges `Server<T>`, the `ChanneledServer` overrides and
  `ChannelSubscribable` into one class, and likewise for the client. The user hooks are
  events in `events`, not user code.
- Duplicate header copies at the repository root are the same code as their `include/`
  counterparts, and are modelled once.
