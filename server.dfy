/** Server<T> together with the ChanneledServer overrides of its hooks: a lifecycle state
    machine (CLOSED -> OPEN -> SERVE, back to CLOSED, and DESTRUCTING at the end), a
    listening connection tracked by a PollService, and a poll that maps each ready entry
    to one hook. Two traces record calls: `hooks` the Server-level virtual hooks that
    poll decides on, `events` the calls into user code (the ChanneledServer user hooks
    and the subscription handlers). */
module Server {
  import opened Errors
  import opened Sockets
  import opened SocketCollection
  import opened PollService
  import opened Channels
  import opened Framing
  import opened Subscription
  import opened Subscribable
  import opened Endpoint

  datatype ServerState = Destructing | Closed | Open | Serve

  /** The Server-level virtual hooks. */
  datatype ServerHook =
    | ServerConnectionError
    | ServerDisconnect
    | ConnectionRequest
    | ClientError(client: Connection)
    | ClientDisconnect(client: Connection)
    | ReadyToRead(client: Connection)
    | PollTimeout
  {
    /** A hook about the listening connection. */
    predicate OnListener() {
      ServerConnectionError? || ServerDisconnect? || ConnectionRequest?
    }

    /** A hook about a peer. */
    predicate OnPeer() {
      ClientError? || ClientDisconnect? || ReadyToRead?
    }
  }

  /** The calls into user code. */
  datatype UserEvent =
    | ServerConnectionErrorHandled
    | ServerDisconnectHandled
    | PollTimeoutHandled
    | ChanneledClientError(client: Connection)
    | ChanneledClientConnect(client: Connection)
    | ClientDisconnected(client: Connection)
    | HandlersCalled(calls: seq<HandlerCall>)  // the handler calls of one dispatched frame

  /** The hook poll calls for one ready entry: the listening connection is dispatched to
      the three server hooks, every other connection to the three peer hooks, and in both
      cases ERROR, DISCONNECT and NORMAL pick the error, disconnect and ready hook. */
  function HookFor(e: Entry, listener: Connection?): (h: ServerHook)
    ensures h.OnListener() <==> e.connection == listener
    ensures h.OnPeer() <==> e.connection != listener
    ensures h.OnPeer() ==> h.client == e.connection
    ensures h.ServerConnectionError? || h.ClientError? <==> e.status == Error
    ensures h.ServerDisconnect? || h.ClientDisconnect? <==> e.status == Disconnect
    ensures h.ConnectionRequest? || h.ReadyToRead? <==> e.status == Normal
  {
    if e.connection == listener then
      match e.status
      case Error => ServerConnectionError
      case Disconnect => ServerDisconnect
      case Normal => ConnectionRequest
    else
      match e.status
      case Error => ClientError(e.connection)
      case Disconnect => ClientDisconnect(e.connection)
      case Normal => ReadyToRead(e.connection)
  }

  /** The state and listening connection after one interference: close() moves to CLOSED
      and drops the listener; the destructor forces DESTRUCTING. */
  function Apply(step: Interference, state: ServerState, listener: Connection?): (after: (ServerState, Connection?))
    requires state != Destructing
    ensures step.Quiet? ==> after == (state, listener)
    ensures step.Shutdown? ==> after == (Closed, null)
    ensures step.DestructorBegins? ==> after.0 == Destructing
  {
    match step
    case Quiet => (state, listener)
    case Shutdown => (Closed, null)
    case DestructorBegins => (Destructing, listener)
  }

  /** poll's loop from entry `k` on: the hooks called and whether the loop ran to the end
      (true) or stopped at a checkpoint (false). */
  function Dispatch(ready: seq<Entry>, k: nat, state: ServerState, listener: Connection?, steps: seq<Interference>): (seq<ServerHook>, bool)
    requires state != Destructing
    decreases |ready| - k
  {
    if k >= |ready| then ([], true)
    else
      var (s, l) := Apply(StepAt(steps, k), state, listener);
      if s == Destructing then ([], false)
      else
        var rest := Dispatch(ready, k + 1, s, l, steps);
        ([HookFor(ready[k], l)] + rest.0, rest.1)
  }

  /** poll in state SERVE, after the poll service returned `ready`: an empty set gives the
      timeout hook (unless the destructor has begun) and false; otherwise the loop. */
  function PollTrace(ready: seq<Entry>, listener: Connection?, steps: seq<Interference>): (seq<ServerHook>, bool) {
    if |ready| == 0 then
      if Apply(StepAt(steps, 0), Serve, listener).0 == Destructing then ([], false) else ([PollTimeout], false)
    else Dispatch(ready, 0, Serve, listener, steps)
  }

  /** With no interference, poll calls exactly one hook per ready entry, in order, each
      chosen by HookFor, and returns true. */
  lemma {:induction false} DispatchQuiet(ready: seq<Entry>, k: nat, state: ServerState, listener: Connection?, steps: seq<Interference>)
    requires state != Destructing && k <= |ready|
    requires forall j :: k <= j < |ready| ==> StepAt(steps, j) == Quiet
    ensures var t := Dispatch(ready, k, state, listener, steps);
      && t.1
      && |t.0| == |ready| - k
      && forall i :: 0 <= i < |t.0| ==> t.0[i] == HookFor(ready[k + i], listener)
    decreases |ready| - k
  {
    if k < |ready| {
      DispatchQuiet(ready, k + 1, state, listener, steps);
      var t := Dispatch(ready, k, state, listener, steps);
      var rest := Dispatch(ready, k + 1, state, listener, steps);
      assert t.0 == [HookFor(ready[k], listener)] + rest.0;
      forall i | 0 <= i < |t.0| ensures t.0[i] == HookFor(ready[k + i], listener) {
        if i > 0 {
          assert t.0[i] == rest.0[i - 1];
        }
      }
    }
  }

  /** Once the destructor has begun, no further hook is called: the hooks are those of the
      entries before it, and poll returns false. */
  lemma {:induction false} DispatchStopsAtDestructor(ready: seq<Entry>, k: nat, state: ServerState, listener: Connection?,
                                                     steps: seq<Interference>, j: nat)
    requires state != Destructing && k <= j < |ready|
    requires forall i :: k <= i < j ==> StepAt(steps, i) == Quiet
    requires StepAt(steps, j) == DestructorBegins
    ensures var t := Dispatch(ready, k, state, listener, steps);
      && !t.1
      && |t.0| == j - k
      && forall i :: 0 <= i < |t.0| ==> t.0[i] == HookFor(ready[k + i], listener)
    decreases j - k
  {
    if k < j {
      DispatchStopsAtDestructor(ready, k + 1, state, listener, steps, j);
      var t := Dispatch(ready, k, state, listener, steps);
      var rest := Dispatch(ready, k + 1, state, listener, steps);
      assert t.0 == [HookFor(ready[k], listener)] + rest.0;
      forall i | 0 <= i < |t.0| ensures t.0[i] == HookFor(ready[k + i], listener) {
        if i > 0 {
          assert t.0[i] == rest.0[i - 1];
        }
      }
    }
  }

  /** A close() from a hook does not stop the loop: it runs to the end, and since the
      listener has been dropped, every later entry, the old listener's included, is
      dispatched as a peer. */
  lemma ShutdownMakesEveryEntryAPeer(ready: seq<Entry>, k: nat, state: ServerState, listener: Connection?, steps: seq<Interference>)
    requires state != Destructing && k < |ready|
    requires StepAt(steps, k) == Shutdown
    requires forall j :: k < j < |ready| ==> StepAt(steps, j) == Quiet
    ensures var t := Dispatch(ready, k, state, listener, steps);
      && t.1
      && |t.0| == |ready| - k
      && forall i :: 0 <= i < |t.0| ==> t.0[i].OnPeer() && t.0[i].client == ready[k + i].connection
  {
    DispatchQuiet(ready, k + 1, Closed, null, steps);
    var t := Dispatch(ready, k, state, listener, steps);
    var rest := Dispatch(ready, k + 1, Closed, null, steps);
    assert t.0 == [HookFor(ready[k], null)] + rest.0;
    forall i | 0 <= i < |t.0| ensures t.0[i] == HookFor(ready[k + i], null) {
      if i > 0 {
        assert t.0[i] == rest.0[i - 1];
      }
    }
  }

  /** An empty ready set gives exactly one timeout hook and false, unless the destructor
      has begun, in which case no hook at all. */
  lemma PollTimeoutTrace(listener: Connection?, steps: seq<Interference>)
    ensures StepAt(steps, 0) != DestructorBegins ==> PollTrace([], listener, steps) == ([PollTimeout], false)
    ensures StepAt(steps, 0) == DestructorBegins ==> PollTrace([], listener, steps) == ([], false)
  {
  }

  /** One call of hook `h` made the calls into user code `evs` and ended with `o`: each
      hook calls its own user hook once, a connection request calls the connect hook for
      the accepted peer, and a ready-to-read calls the disconnect hook, the channel's
      handlers or nothing. Only a connection request (AcceptException) and a ready-to-read
      (BadChannelException) can throw, and then before any user code runs. */
  predicate Handles(h: ServerHook, evs: seq<UserEvent>, o: Outcome) {
    match h
    case ServerConnectionError => o == Pass && evs == [ServerConnectionErrorHandled]
    case ServerDisconnect => o == Pass && evs == [ServerDisconnectHandled]
    case ConnectionRequest =>
      if o.Pass? then |evs| == 1 && evs[0].ChanneledClientConnect? else o == Fail(AcceptError) && evs == []
    case ClientError(c) => o == Pass && evs == [ChanneledClientError(c)]
    case ClientDisconnect(c) => o == Pass && evs == [ClientDisconnected(c)]
    case ReadyToRead(c) =>
      if o.Pass? then evs == [] || evs == [ClientDisconnected(c)] || (|evs| == 1 && evs[0].HandlersCalled?)
      else o == Fail(BadChannel) && evs == []
    case PollTimeout => o == Pass && evs == [PollTimeoutHandled]
  }

  /** The tracked descriptors after the user calls `evs`: a peer is tracked before its
      connect hook runs and untracked before its error or disconnect hook runs. */
  function TrackAfter(keys: set<int>, evs: seq<UserEvent>): set<int>
    decreases |evs|
  {
    if evs == [] then keys
    else
      var before := TrackAfter(keys, evs[..|evs| - 1]);
      match evs[|evs| - 1]
      case ChanneledClientConnect(p) => before + {p.descriptor}
      case ChanneledClientError(c) => before - {c.descriptor}
      case ClientDisconnected(c) => before - {c.descriptor}
      case _ => before
  }

  /** The tracked descriptors after poll's hooks made the user calls `answers`, one
      sequence per hook: before each entry a close() empties the tracked set, then the
      entry's hook adds or removes its peer. */
  function TrackedAfter(keys: set<int>, steps: seq<Interference>, answers: seq<seq<UserEvent>>): set<int>
    decreases |answers|
  {
    if answers == [] then keys
    else
      var n := |answers| - 1;
      var before := TrackedAfter(keys, steps, answers[..n]);
      TrackAfter(if StepAt(steps, n) == Shutdown then {} else before, answers[n])
  }

  /** A connection request that returned accepted exactly one peer and tracks it beside
      what was tracked before. */
  lemma ConnectionRequestTracksPeer(keys: set<int>, steps: seq<Interference>, answer: seq<UserEvent>)
    requires Handles(ConnectionRequest, answer, Pass) && StepAt(steps, 0) == Quiet
    ensures |answer| == 1 && answer[0].ChanneledClientConnect?
    ensures TrackedAfter(keys, steps, [answer]) == keys + {answer[0].client.descriptor}
  {
    assert TrackAfter(keys, answer) == keys + {answer[0].client.descriptor} by {
      assert answer[..0] == [];
    }
    assert [answer][..0] == [];
  }

  /** One more hook's user calls act on the tracked descriptors left after the
      interference before that entry. */
  lemma AnswerAppended(keys: set<int>, steps: seq<Interference>, answers: seq<seq<UserEvent>>, answer: seq<UserEvent>)
    ensures TrackedAfter(keys, steps, answers + [answer])
      == TrackAfter(if StepAt(steps, |answers|) == Shutdown then {} else TrackedAfter(keys, steps, answers), answer)
  {
    assert (answers + [answer])[..|answers|] == answers;
  }

  /** The descriptors accept() will hand out are not in `used` and are distinct. */
  predicate FreshBacklog(backlog: seq<Connection>, used: set<int>) {
    && (forall i :: 0 <= i < |backlog| ==> backlog[i].descriptor !in used)
    && (forall i, j :: 0 <= i < j < |backlog| ==> backlog[i].descriptor != backlog[j].descriptor)
  }

  class ChanneledServer {
    const pollService: PollService
    const subscribable: ChannelSubscribable
    const registry: Channels
    const address: string
    const port: string
    const listenQueueSize: int
    const pollTimeout: int
    var serverConnection: Connection?
    var state: ServerState
    ghost var hooks: seq<ServerHook>
    ghost var events: seq<UserEvent>

    /** The poll service's index invariant and the subscription table's invariant hold; a
        CLOSED server tracks nothing and has no listener; the OS never hands out through
        accept() a descriptor that is still tracked. */
    ghost predicate Valid()
      reads this, pollService, subscribable, subscribable.subscriptions.Values, serverConnection
    {
      && pollService.Valid()
      && subscribable.Valid()
      && (state == Closed ==> serverConnection == null && pollService.Empty())
      && (serverConnection != null ==> FreshBacklog(serverConnection.backlog, pollService.descriptorMap.Keys))
    }

    /** The server starts CLOSED, with a poll service using its poll timeout. */
    constructor (address: string, port: string, listenQueueSize: int, pollTimeout: int, registry: Channels)
      ensures Valid() && fresh(pollService) && fresh(subscribable)
      ensures state == Closed && serverConnection == null && pollService.timeout == pollTimeout
      ensures this.registry == registry && hooks == [] && events == []
    {
      this.address := address;
      this.port := port;
      this.listenQueueSize := listenQueueSize;
      this.pollTimeout := pollTimeout;
      this.registry := registry;
      state := Closed;
      serverConnection := null;
      pollService := new PollService(pollTimeout);
      subscribable := new ChannelSubscribable();
      hooks := [];
      events := [];
    }

    /** state_transition: InvalidStateTransitionException, with the state unchanged, unless
        the current state is one of `allowed`; otherwise the state becomes `next`. */
    method StateTransition(allowed: seq<ServerState>, next: ServerState) returns (o: Outcome)
      modifies this`state
      ensures o.Pass? <==> old(state) in allowed
      ensures o.Pass? ==> state == next
      ensures o.Fail? ==> o.error == InvalidStateTransition && state == old(state)
    {
      var ok := IsAllowed(state, allowed);
      if !ok {
        return Fail(InvalidStateTransition);
      }
      state := next;
      return Pass;
    }

    /** open: allowed only from CLOSED. The state becomes OPEN and the new listening
        connection is tracked before bind and listen run, so a failure of either leaves the
        server OPEN with the listener tracked. */
    method Open(created: Connection, bindOk: bool, listenOk: bool) returns (o: Outcome)
      requires Valid()
      requires FreshBacklog(created.backlog, {created.descriptor})
      modifies this`state, this`serverConnection, pollService`descriptors, pollService`descriptorMap
      ensures Valid()
      ensures old(state) != Closed ==>
        o == Fail(InvalidStateTransition) && state == old(state) && serverConnection == old(serverConnection)
        && pollService.descriptors == old(pollService.descriptors) && pollService.descriptorMap == old(pollService.descriptorMap)
      ensures old(state) == Closed ==>
        && state == ServerState.Open && serverConnection == created
        && pollService.descriptors == [PollDescriptor(created.descriptor, POLLIN)]
        && pollService.Tracked() == {created}
        && o == (if !bindOk then Fail(BindError) else if !listenOk then Fail(ListenError) else Pass)
    {
      var t := StateTransition([Closed], ServerState.Open);
      if t.Fail? {
        return t;
      }
      serverConnection := created;
      pollService.AddSocket(created);
      if !bindOk {
        return Fail(BindError);
      }
      if !listenOk {
        return Fail(ListenError);
      }
      state := ServerState.Open;
      return Pass;
    }

    /** serve: allowed only from OPEN. */
    method Serve() returns (o: Outcome)
      requires Valid()
      modifies this`state
      ensures Valid()
      ensures o.Pass? <==> old(state) == ServerState.Open
      ensures o.Pass? ==> state == ServerState.Serve
      ensures o.Fail? ==> o.error == InvalidStateTransition && state == old(state)
    {
      o := StateTransition([ServerState.Open], ServerState.Serve);
    }

    /** close: allowed from SERVE, OPEN and CLOSED, not from DESTRUCTING. It empties the
        tracked set and drops the listening connection. */
    method Close() returns (o: Outcome)
      requires Valid()
      modifies this`state, this`serverConnection, pollService`descriptors, pollService`descriptorMap
      ensures Valid()
      ensures o.Pass? <==> old(state) != Destructing
      ensures o.Pass? ==> state == Closed && serverConnection == null && pollService.Empty()
      ensures o.Fail? ==>
        o.error == InvalidStateTransition && state == old(state) && serverConnection == old(serverConnection)
        && pollService.descriptors == old(pollService.descriptors) && pollService.descriptorMap == old(pollService.descriptorMap)
    {
      o := StateTransition([ServerState.Serve, ServerState.Open, Closed], Closed);
      if o.Fail? {
        return;
      }
      pollService.ClearSockets();
      serverConnection := null;
    }

    /** The destructors: the subscription table is emptied, the state is forced to
        DESTRUCTING from any state, and the listening connection is dropped. */
    method Destroy()
      requires Valid()
      modifies this`state, this`serverConnection, subscribable`subscriptions
      ensures Valid()
      ensures state == Destructing && serverConnection == null && subscribable.subscriptions == map[]
    {
      subscribable.Clear();
      state := Destructing;
      serverConnection := null;
    }

    /** handle_server_connection_error: the user hook. */
    method HandleServerConnectionError()
      modifies this`hooks, this`events
      ensures hooks == old(hooks) + [ServerConnectionError]
      ensures events == old(events) + [ServerConnectionErrorHandled]
    {
      hooks := hooks + [ServerConnectionError];
      events := events + [ServerConnectionErrorHandled];
    }

    /** handle_server_disconnect: the user hook. */
    method HandleServerDisconnect()
      modifies this`hooks, this`events
      ensures hooks == old(hooks) + [ServerDisconnect]
      ensures events == old(events) + [ServerDisconnectHandled]
    {
      hooks := hooks + [ServerDisconnect];
      events := events + [ServerDisconnectHandled];
    }

    /** handle_poll_timeout: the user hook. */
    method HandlePollTimeout()
      modifies this`hooks, this`events
      ensures hooks == old(hooks) + [PollTimeout]
      ensures events == old(events) + [PollTimeoutHandled]
    {
      hooks := hooks + [PollTimeout];
      events := events + [PollTimeoutHandled];
    }

    /** handle_connection_request: accept the next peer (AcceptException when none), track
        it, then call handle_channeledclient_connect for it. */
    method HandleConnectionRequest() returns (o: Outcome)
      requires Valid() && serverConnection != null
      modifies serverConnection`backlog, pollService`descriptors, pollService`descriptorMap, this`hooks, this`events
      ensures Valid()
      ensures hooks == old(hooks) + [ConnectionRequest]
      ensures old(serverConnection.backlog) == [] ==>
        o == Fail(AcceptError) && events == old(events)
        && pollService.descriptors == old(pollService.descriptors) && pollService.descriptorMap == old(pollService.descriptorMap)
      ensures old(serverConnection.backlog) != [] ==>
        var peer := old(serverConnection.backlog)[0];
        && o == Pass
        && serverConnection.backlog == old(serverConnection.backlog)[1..]
        && pollService.descriptors == old(pollService.descriptors) + [PollDescriptor(peer.descriptor, POLLIN)]
        && pollService.Tracked() == old(pollService.Tracked()) + {peer}
        && pollService.descriptorMap.Keys == old(pollService.descriptorMap.Keys) + {peer.descriptor}
        && events == old(events) + [ChanneledClientConnect(peer)]
    {
      hooks := hooks + [ConnectionRequest];
      var accepted := serverConnection.Accept();
      if accepted.Failure? {
        return Fail(accepted.error);
      }
      var peer := accepted.value;
      pollService.AddSocket(peer);
      events := events + [ChanneledClientConnect(peer)];
      return Pass;
    }

    /** handle_client_error: stop tracking the peer, then call
        handle_channeledclient_error. */
    method HandleClientError(client: Connection)
      requires Valid()
      modifies pollService`descriptors, pollService`descriptorMap, this`hooks, this`events
      ensures Valid()
      ensures hooks == old(hooks) + [ClientError(client)]
      ensures pollService.descriptorMap.Keys == old(pollService.descriptorMap.Keys) - {client.descriptor}
      ensures events == old(events) + [ChanneledClientError(client)]
    {
      hooks := hooks + [ClientError(client)];
      pollService.RemoveSocket(client);
      events := events + [ChanneledClientError(client)];
    }

    /** handle_client_disconnect: stop tracking the peer, then call
        handleClientDisconnect. */
    method HandleClientDisconnect(client: Connection)
      requires Valid()
      modifies pollService`descriptors, pollService`descriptorMap, this`hooks, this`events
      ensures Valid()
      ensures hooks == old(hooks) + [ClientDisconnect(client)]
      ensures pollService.descriptorMap.Keys == old(pollService.descriptorMap.Keys) - {client.descriptor}
      ensures events == old(events) + [ClientDisconnected(client)]
    {
      hooks := hooks + [ClientDisconnect(client)];
      pollService.RemoveSocket(client);
      events := events + [ClientDisconnected(client)];
    }

    /** handleSocketDisconnect, called when a read finds the peer closed: the same as
        handle_client_disconnect, but not one of poll's hooks. */
    method HandleSocketDisconnect(client: Connection)
      requires Valid()
      modifies pollService`descriptors, pollService`descriptorMap, this`events
      ensures Valid()
      ensures pollService.descriptorMap.Keys == old(pollService.descriptorMap.Keys) - {client.descriptor}
      ensures events == old(events) + [ClientDisconnected(client)]
    {
      pollService.RemoveSocket(client);
      events := events + [ClientDisconnected(client)];
    }

    /** handle_ready_to_read: one frame is dispatched through handleIncomingMessage. A close
        during the read becomes handleSocketDisconnect; an unknown channel id propagates as
        BadChannelException; otherwise the tracked set is unchanged and the channel's
        handlers, if any, are called. */
    method HandleReadyToRead(client: Connection) returns (o: Outcome, ghost delivered: seq<HandlerCall>)
      requires Valid()
      modifies client`inbound, pollService`descriptors, pollService`descriptorMap, this`hooks, this`events
      ensures Valid()
      ensures hooks == old(hooks) + [ReadyToRead(client)]
      ensures var frame := ReadFrame(registry.State(), old(client.inbound));
        && client.inbound == frame.rest
        && (frame.result.Failure? && frame.result.error == ConnectionClosed ==>
              o == Pass && events == old(events) + [ClientDisconnected(client)]
              && pollService.descriptorMap.Keys == old(pollService.descriptorMap.Keys) - {client.descriptor})
        && (frame.result.Failure? && frame.result.error != ConnectionClosed ==>
              o == Fail(frame.result.error) && events == old(events)
              && pollService.descriptorMap == old(pollService.descriptorMap))
        && (frame.result.Success? ==>
              var (ch, payload) := frame.result.value;
              && o == Pass && pollService.descriptorMap == old(pollService.descriptorMap)
              && (ch !in subscribable.subscriptions ==> events == old(events))
              && (ch in subscribable.subscriptions ==>
                    CallsEachOnce(delivered, subscribable.subscriptions[ch].handlers, client, payload)
                    && events == old(events) + [HandlersCalled(delivered)]))
    {
      hooks := hooks + [ReadyToRead(client)];
      o, delivered := Pass, [];
      var incoming := subscribable.HandleIncomingMessage(registry, client);
      if incoming.Failure? {
        return Fail(incoming.error), [];
      }
      match incoming.value
      case PeerClosed =>
        HandleSocketDisconnect(client);
      case Dropped(_) =>
      case Delivered(_, calls) =>
        events := events + [HandlersCalled(calls)];
        delivered := calls;
    }

    /** What close() from a hook, or the destructor, does to the server between two
        checkpoints. */
    method Interfere(step: Interference)
      requires Valid() && state != Destructing
      modifies this`state, this`serverConnection, pollService`descriptors, pollService`descriptorMap
      ensures Valid()
      ensures (state, serverConnection) == Apply(step, old(state), old(serverConnection))
      ensures step.Shutdown? ==> pollService.Empty()
      ensures !step.Shutdown? ==>
        pollService.descriptors == old(pollService.descriptors) && pollService.descriptorMap == old(pollService.descriptorMap)
    {
      match step
      case Quiet =>
      case Shutdown =>
        var closed := Close();
      case DestructorBegins =>
        state := Destructing;
    }

    /** What poll did, from the call of this method on, when its hooks made the user calls
        `answers`, one sequence per hook called: the user calls are those, in order; each
        hook's calls are the ones Handles allows, and only the last hook can have thrown,
        with poll's exception; the tracked descriptors are what TrackedAfter says. */
    twostate predicate Answered(steps: seq<Interference>, new answers: seq<seq<UserEvent>>, new r: Result<bool>)
      reads this, pollService
    {
      && events == old(events) + Concat(answers)
      && pollService.descriptorMap.Keys == TrackedAfter(old(pollService.descriptorMap.Keys), steps, answers)
      && old(hooks) <= hooks && |hooks| == |old(hooks)| + |answers|
      && (r.Failure? ==> |answers| > 0)
      && forall i :: 0 <= i < |answers| ==>
           Handles(hooks[|old(hooks)| + i], answers[i], if r.Failure? && i == |answers| - 1 then Fail(r.error) else Pass)
    }

    /** One ready entry: the hook HookFor chooses is called, and does what that hook does.
        The listening connection's ERROR and DISCONNECT only call their user hook; its
        NORMAL accepts the next peer and tracks it; a peer's ERROR and DISCONNECT untrack
        it; a peer's NORMAL reads and dispatches one frame. */
    method HandleEntry(e: Entry) returns (o: Outcome, ghost answer: seq<UserEvent>)
      requires Valid()
      modifies e.connection, pollService`descriptors, pollService`descriptorMap, this`hooks, this`events
      ensures Valid()
      ensures hooks == old(hooks) + [HookFor(e, serverConnection)]
      ensures events == old(events) + answer && Handles(HookFor(e, serverConnection), answer, o)
      ensures pollService.descriptorMap.Keys == TrackAfter(old(pollService.descriptorMap.Keys), answer)
      ensures e.connection == serverConnection && e.status == Normal ==>
        var backlog := old(e.connection.backlog);
        && (o.Pass? <==> backlog != [])
        && (backlog != [] ==> answer == [ChanneledClientConnect(backlog[0])] && e.connection.backlog == backlog[1..])
      ensures e.connection != serverConnection && e.status == Normal ==>
        var frame := ReadFrame(registry.State(), old(e.connection.inbound));
        && e.connection.inbound == frame.rest
        && (frame.result.Failure? && frame.result.error == ConnectionClosed ==>
              o == Pass && answer == [ClientDisconnected(e.connection)])
        && (frame.result.Failure? && frame.result.error != ConnectionClosed ==> o == Fail(frame.result.error))
        && (frame.result.Success? ==>
              var (ch, payload) := frame.result.value;
              && o == Pass
              && (ch !in subscribable.subscriptions ==> answer == [])
              && (ch in subscribable.subscriptions ==>
                    |answer| == 1 && answer[0].HandlersCalled?
                    && CallsEachOnce(answer[0].calls, subscribable.subscriptions[ch].handlers, e.connection, payload)))
    {
      ghost var before := events;
      o := Pass;
      if e.connection == serverConnection {
        match e.status
        case Error =>
          HandleServerConnectionError();
        case Disconnect =>
          HandleServerDisconnect();
        case Normal =>
          o := HandleConnectionRequest();
      } else {
        match e.status
        case Error =>
          HandleClientError(e.connection);
        case Disconnect =>
          HandleClientDisconnect(e.connection);
        case Normal =>
          ghost var delivered;
          o, delivered := HandleReadyToRead(e.connection);
      }
      answer := events[|before|..];
    }

    /** poll: false, doing nothing, unless the state is SERVE. Otherwise the poll service is
        polled (its PollException propagates) and the hooks are called as PollTrace says;
        `steps` describes what hooks and the other thread do between checkpoints. When a
        hook throws, poll stops there with that exception. `answers` holds the user calls
        of each hook called. */
    method Poll(pollReturn: int, revents: seq<bv16>, errorCode: int, steps: seq<Interference>)
      returns (r: Result<bool>, ghost answers: seq<seq<UserEvent>>)
      requires Valid() && |revents| == |pollService.descriptors|
      modifies this`state, this`serverConnection, this`hooks, this`events
      modifies pollService`descriptors, pollService`descriptorMap, pollService`results, pollService.Tracked()
      ensures Valid()
      ensures old(state) != ServerState.Serve ==>
        r == Success(false) && hooks == old(hooks) && events == old(events) && state == old(state)
        && pollService.descriptorMap == old(pollService.descriptorMap)
      ensures old(state) == ServerState.Serve ==>
        var polled := old(pollService.PollResult(pollReturn, revents, errorCode));
        && (polled.Failure? ==>
              r == Failure(polled.error) && r.error.IsPollException() && hooks == old(hooks) && events == old(events))
        && (polled.Success? ==>
              var trace := PollTrace(polled.value, old(serverConnection), steps);
              && Answered(steps, answers, r)
              && (r.Success? ==> hooks == old(hooks) + trace.0 && r.value == trace.1)
              && (r.Failure? ==> hooks <= old(hooks) + trace.0))
    {
      answers := [];
      if state != ServerState.Serve {
        return Success(false), [];
      }
      ValidPollSucceeds(pollService, pollReturn, revents, errorCode);
      ghost var tracked := pollService.Tracked();
      var polled := pollService.Poll(pollReturn, revents, errorCode);
      if polled.Failure? {
        return Failure(polled.error), [];
      }
      var ready := polled.value;
      assert forall e | e in ready :: e.connection in tracked by {
        forall e | e in ready ensures e.connection in tracked {
          var j :| 0 <= j < |ready| && ready[j] == e;
        }
      }
      r, answers := DispatchReady(ready, steps);
    }

    /** The part of poll after the poll service returned `ready`. */
    method DispatchReady(ready: seq<Entry>, steps: seq<Interference>) returns (r: Result<bool>, ghost answers: seq<seq<UserEvent>>)
      requires Valid() && state == ServerState.Serve
      modifies this`state, this`serverConnection, this`hooks, this`events
      modifies pollService`descriptors, pollService`descriptorMap, set e | e in ready :: e.connection
      ensures Valid()
      ensures Answered(steps, answers, r)
      ensures var trace := PollTrace(ready, old(serverConnection), steps);
        && (r.Success? ==> hooks == old(hooks) + trace.0 && r.value == trace.1)
        && (r.Failure? ==> hooks <= old(hooks) + trace.0)
    {
      if |ready| == 0 {
        answers := HandleTimeout(steps);
        return Success(false), answers;
      }
      r, answers := DispatchLoop(ready, steps);
    }

    /** poll's loop over a non-empty ready set. */
    method DispatchLoop(ready: seq<Entry>, steps: seq<Interference>) returns (r: Result<bool>, ghost answers: seq<seq<UserEvent>>)
      requires Valid() && state == ServerState.Serve && |ready| > 0
      modifies this`state, this`serverConnection, this`hooks, this`events
      modifies pollService`descriptors, pollService`descriptorMap, set e | e in ready :: e.connection
      ensures Valid()
      ensures Answered(steps, answers, r)
      ensures var trace := Dispatch(ready, 0, ServerState.Serve, old(serverConnection), steps);
        && (r.Success? ==> hooks == old(hooks) + trace.0 && r.value == trace.1)
        && (r.Failure? ==> hooks <= old(hooks) + trace.0)
    {
      ghost var keys := pollService.descriptorMap.Keys;
      ghost var trace := Dispatch(ready, 0, ServerState.Serve, serverConnection, steps);
      answers := [];
      var k := 0;
      while k < |ready|
        invariant 0 <= k <= |ready| && |answers| == k
        invariant Valid()
        invariant state == ServerState.Serve || state == Closed
        invariant old(hooks) <= hooks && |hooks| == |old(hooks)| + k
        invariant hooks + Dispatch(ready, k, state, serverConnection, steps).0 == old(hooks) + trace.0
        invariant Dispatch(ready, k, state, serverConnection, steps).1 == trace.1
        invariant events == old(events) + Concat(answers)
        invariant pollService.descriptorMap.Keys == TrackedAfter(keys, steps, answers)
        invariant forall i :: 0 <= i < k ==> Handles(hooks[|old(hooks)| + i], answers[i], Pass)
      {
        assert ready[k] in ready;
        var stopped, o, answer := DispatchEntry(ready, k, steps);
        if stopped {
          return Success(false), answers;
        }
        AnswerAppended(keys, steps, answers, answer);
        ConcatAppend(answers, answer);
        answers := answers + [answer];
        if o.Fail? {
          ghost var rest := Dispatch(ready, k + 1, state, serverConnection, steps).0;
          assert (hooks + rest)[..|hooks|] == hooks;
          return Failure(o.error), answers;
        }
        k := k + 1;
      }
      return Success(true), answers;
    }

    /** An empty ready set: the checkpoint, then the timeout hook. */
    method HandleTimeout(steps: seq<Interference>) returns (ghost answers: seq<seq<UserEvent>>)
      requires Valid() && state == ServerState.Serve
      modifies this`state, this`serverConnection, this`hooks, this`events, pollService`descriptors, pollService`descriptorMap
      ensures Valid()
      ensures hooks == old(hooks) + PollTrace([], old(serverConnection), steps).0
      ensures answers == if StepAt(steps, 0) == DestructorBegins then [] else [[PollTimeoutHandled]]
      ensures events == old(events) + Concat(answers)
      ensures pollService.descriptorMap.Keys == TrackedAfter(old(pollService.descriptorMap.Keys), steps, answers)
    {
      Interfere(StepAt(steps, 0));
      if state == Destructing {
        return [];
      }
      HandlePollTimeout();
      answers := [[PollTimeoutHandled]];
      assert answers[..0] == [];
    }

    /** One turn of poll's loop: the interference before entry `k`, the checkpoint, and the
        entry's hook. */
    method DispatchEntry(ready: seq<Entry>, k: nat, steps: seq<Interference>) returns (stopped: bool, o: Outcome, ghost answer: seq<UserEvent>)
      requires Valid() && (state == ServerState.Serve || state == Closed) && k < |ready|
      modifies this`state, this`serverConnection, this`hooks, this`events
      modifies pollService`descriptors, pollService`descriptorMap, ready[k].connection
      ensures Valid()
      ensures stopped ==>
        hooks == old(hooks) && events == old(events) && o == Pass
        && pollService.descriptorMap == old(pollService.descriptorMap)
        && Dispatch(ready, k, old(state), old(serverConnection), steps) == ([], false)
      ensures !stopped ==>
        && (state == ServerState.Serve || state == Closed)
        && var rest := Dispatch(ready, k + 1, state, serverConnection, steps);
        && hooks == old(hooks) + [HookFor(ready[k], serverConnection)]
        && Dispatch(ready, k, old(state), old(serverConnection), steps) == ([HookFor(ready[k], serverConnection)] + rest.0, rest.1)
        && events == old(events) + answer && Handles(HookFor(ready[k], serverConnection), answer, o)
        && pollService.descriptorMap.Keys ==
             TrackAfter(if StepAt(steps, k) == Shutdown then {} else old(pollService.descriptorMap.Keys), answer)
    {
      Interfere(StepAt(steps, k));
      if state == Destructing {
        return true, Pass, [];
      }
      stopped := false;
      o, answer := HandleEntry(ready[k]);
    }
  }
}
