/** Client<T> together with the ChanneledClient overrides and forwarders: a lifecycle state
    machine (CLOSED -> CONNECTED, back to CLOSED, and DESTRUCTING at the end), one
    connection tracked by a PollService, and a poll that maps each ready entry for that
    connection to one hook and throws for any other. `hooks` records the Client-level
    virtual hooks poll decides on, `events` the calls into user code. */
module Client {
  import opened Errors
  import opened Sockets
  import opened SocketCollection
  import opened PollService
  import opened Channels
  import opened Framing
  import opened Subscription
  import opened Subscribable
  import opened Endpoint

  datatype ClientState = Closed | Connected | Destructing

  /** The Client-level virtual hooks. */
  datatype ClientHook = ClientError | ClientDisconnect | ClientReadyToRead | PollTimeout

  /** The calls into user code. */
  datatype UserEvent =
    | ClientErrorHandled
    | ClientDisconnectHandled
    | PollTimeoutHandled
    | HandlersCalled(calls: seq<HandlerCall>)  // the handler calls of one dispatched frame

  /** The hook for an entry of the client's own connection: ERROR, DISCONNECT and NORMAL
      pick the error, disconnect and ready-to-read hook. */
  function HookFor(status: SocketStatus): (h: ClientHook)
    ensures h.ClientError? <==> status == Error
    ensures h.ClientDisconnect? <==> status == Disconnect
    ensures h.ClientReadyToRead? <==> status == Normal
  {
    match status
    case Error => ClientError
    case Disconnect => ClientDisconnect
    case Normal => ClientReadyToRead
  }

  /** The state and connection after one interference: disconnect() moves to CLOSED and
      drops the connection; the destructor forces DESTRUCTING. */
  function Apply(step: Interference, state: ClientState, connection: Connection?): (after: (ClientState, Connection?))
    requires state != Destructing
    ensures step.Quiet? ==> after == (state, connection)
    ensures step.Shutdown? ==> after == (Closed, null)
    ensures step.DestructorBegins? ==> after.0 == Destructing
  {
    match step
    case Quiet => (state, connection)
    case Shutdown => (Closed, null)
    case DestructorBegins => (Destructing, connection)
  }

  /** poll's loop from entry `k` on: the hooks called and how the loop ends: true at the
      end, InvalidSocketPollException at an entry that is not the client's own connection,
      false at a checkpoint. The connection is compared before the checkpoint is read. */
  function Dispatch(ready: seq<Entry>, k: nat, state: ClientState, connection: Connection?, steps: seq<Interference>): (t: (seq<ClientHook>, Result<bool>))
    requires state != Destructing
    ensures t.1.Failure? ==> t.1.error == InvalidSocketPoll
    decreases |ready| - k
  {
    if k >= |ready| then ([], Success(true))
    else
      var (s, c) := Apply(StepAt(steps, k), state, connection);
      if ready[k].connection != c then ([], Failure(InvalidSocketPoll))
      else if s == Destructing then ([], Success(false))
      else
        var rest := Dispatch(ready, k + 1, s, c, steps);
        ([HookFor(ready[k].status)] + rest.0, rest.1)
  }

  /** poll in state CONNECTED, after the poll service returned `ready`. */
  function PollTrace(ready: seq<Entry>, connection: Connection?, steps: seq<Interference>): (seq<ClientHook>, Result<bool>) {
    if |ready| == 0 then
      if Apply(StepAt(steps, 0), Connected, connection).0 == Destructing then ([], Success(false))
      else ([PollTimeout], Success(false))
    else Dispatch(ready, 0, Connected, connection, steps)
  }

  /** With no interference and only the client's own connection ready, poll calls one hook
      per entry, chosen by status, and returns true. */
  lemma {:induction false} DispatchOwn(ready: seq<Entry>, k: nat, state: ClientState, connection: Connection?, steps: seq<Interference>)
    requires state != Destructing && k <= |ready|
    requires forall j :: k <= j < |ready| ==> StepAt(steps, j) == Quiet && ready[j].connection == connection
    ensures var t := Dispatch(ready, k, state, connection, steps);
      && t.1 == Success(true)
      && |t.0| == |ready| - k
      && forall i :: 0 <= i < |t.0| ==> t.0[i] == HookFor(ready[k + i].status)
    decreases |ready| - k
  {
    if k < |ready| {
      DispatchOwn(ready, k + 1, state, connection, steps);
      var t := Dispatch(ready, k, state, connection, steps);
      var rest := Dispatch(ready, k + 1, state, connection, steps);
      assert t.0 == [HookFor(ready[k].status)] + rest.0;
      forall i | 0 <= i < |t.0| ensures t.0[i] == HookFor(ready[k + i].status) {
        if i > 0 {
          assert t.0[i] == rest.0[i - 1];
        }
      }
    }
  }

  /** A ready entry for any other connection makes poll throw InvalidSocketPollException
      after the hooks of the entries before it. */
  lemma {:induction false} DispatchForeign(ready: seq<Entry>, k: nat, state: ClientState, connection: Connection?,
                                           steps: seq<Interference>, j: nat)
    requires state != Destructing && k <= j < |ready|
    requires forall i :: k <= i <= j ==> StepAt(steps, i) == Quiet
    requires forall i :: k <= i < j ==> ready[i].connection == connection
    requires ready[j].connection != connection
    ensures var t := Dispatch(ready, k, state, connection, steps);
      && t.1 == Failure(InvalidSocketPoll)
      && |t.0| == j - k
      && forall i :: 0 <= i < |t.0| ==> t.0[i] == HookFor(ready[k + i].status)
    decreases j - k
  {
    if k < j {
      DispatchForeign(ready, k + 1, state, connection, steps, j);
      var t := Dispatch(ready, k, state, connection, steps);
      var rest := Dispatch(ready, k + 1, state, connection, steps);
      assert t.0 == [HookFor(ready[k].status)] + rest.0;
      forall i | 0 <= i < |t.0| ensures t.0[i] == HookFor(ready[k + i].status) {
        if i > 0 {
          assert t.0[i] == rest.0[i - 1];
        }
      }
    }
  }

  /** A disconnect() before an entry drops the connection, so that entry no longer
      matches and poll throws InvalidSocketPollException; once the destructor has begun,
      an entry of the client's own connection makes poll return false without a hook,
      but any other entry still throws. */
  lemma DispatchInterrupted(ready: seq<Entry>, k: nat, state: ClientState, connection: Connection?, steps: seq<Interference>)
    requires state != Destructing && k < |ready|
    ensures StepAt(steps, k) == Shutdown ==> Dispatch(ready, k, state, connection, steps) == ([], Failure(InvalidSocketPoll))
    ensures StepAt(steps, k) == DestructorBegins ==>
      Dispatch(ready, k, state, connection, steps)
        == ([], if ready[k].connection == connection then Success(false) else Failure(InvalidSocketPoll))
  {
  }

  /** An empty ready set gives exactly one timeout hook and false, unless the destructor
      has begun. */
  lemma PollTimeoutTrace(connection: Connection?, steps: seq<Interference>)
    ensures StepAt(steps, 0) != DestructorBegins ==> PollTrace([], connection, steps) == ([PollTimeout], Success(false))
    ensures StepAt(steps, 0) == DestructorBegins ==> PollTrace([], connection, steps) == ([], Success(false))
  {
  }

  /** One call of hook `h` made the calls into user code `evs` and ended with `o`: the
      error, disconnect and timeout hooks call their user hook once; a ready-to-read calls
      the disconnect hook, the channel's handlers or nothing, and only it can throw
      (BadChannelException), before any user code runs. */
  predicate Handles(h: ClientHook, evs: seq<UserEvent>, o: Outcome) {
    match h
    case ClientError => o == Pass && evs == [ClientErrorHandled]
    case ClientDisconnect => o == Pass && evs == [ClientDisconnectHandled]
    case ClientReadyToRead =>
      if o.Pass? then evs == [] || evs == [ClientDisconnectHandled] || (|evs| == 1 && evs[0].HandlersCalled?)
      else o == Fail(BadChannel) && evs == []
    case PollTimeout => o == Pass && evs == [PollTimeoutHandled]
  }

  /** The poll service tracks exactly `connection`. */
  ghost predicate TracksOnly(ps: PollService, connection: Connection)
    reads ps
  {
    && ps.descriptors == [PollDescriptor(connection.descriptor, POLLIN)]
    && ps.descriptorMap == map[connection.descriptor := Slot(0, connection)]
  }

  /** While connected, the poll service reports at most one entry, for the client's own
      connection, so without interference poll never throws InvalidSocketPollException. */
  lemma ConnectedPollIsOwn(ps: PollService, connection: Connection, pollReturn: int, revents: seq<bv16>, errorCode: int, steps: seq<Interference>)
    requires ps.Valid() && TracksOnly(ps, connection) && |revents| == |ps.descriptors|
    requires ps.PollResult(pollReturn, revents, errorCode).Success?
    requires forall j :: 0 <= j < |revents| ==> StepAt(steps, j) == Quiet
    ensures var ready := ps.PollResult(pollReturn, revents, errorCode).value;
      && |ready| <= 1
      && (forall j :: 0 <= j < |ready| ==> ready[j].connection == connection)
      && (|ready| == 1 ==> PollTrace(ready, connection, steps) == ([HookFor(ready[0].status)], Success(true)))
  {
    ValidPollSucceeds(ps, pollReturn, revents, errorCode);
    var ready := ps.PollResult(pollReturn, revents, errorCode).value;
    assert ps.Tracked() == {connection} by {
      assert ps.descriptorMap[connection.descriptor].connection == connection;
    }
    UniqueConnections(ready, |ready|);
    if |ready| > 0 {
      assert Connections(ready, |ready|) == {connection} by {
        assert ready[0].connection in Connections(ready, |ready|);
      }
    }
    if |ready| == 1 {
      DispatchOwn(ready, 0, Connected, connection, steps);
      var t := Dispatch(ready, 0, Connected, connection, steps);
      assert t.0 == [HookFor(ready[0].status)];
    }
  }

  class ChanneledClient {
    const pollService: PollService
    const subscribable: ChannelSubscribable
    const registry: Channels
    const pollTimeout: int
    var connection: Connection?
    var state: ClientState
    ghost var hooks: seq<ClientHook>
    ghost var events: seq<UserEvent>

    /** The poll service's and the subscription table's invariants hold; a CLOSED client
        tracks nothing; a CONNECTED client tracks exactly its connection. */
    ghost predicate Valid()
      reads this, pollService, subscribable, subscribable.subscriptions.Values
    {
      && pollService.Valid()
      && subscribable.Valid()
      && (state == Closed ==> pollService.Empty())
      && (state == Connected ==> connection != null && TracksOnly(pollService, connection))
    }

    /** The client starts CLOSED with no connection. */
    constructor (pollTimeout: int, registry: Channels)
      ensures Valid() && fresh(pollService) && fresh(subscribable)
      ensures state == Closed && connection == null && pollService.timeout == pollTimeout
      ensures this.registry == registry && hooks == [] && events == []
    {
      this.pollTimeout := pollTimeout;
      this.registry := registry;
      state := Closed;
      connection := null;
      pollService := new PollService(pollTimeout);
      subscribable := new ChannelSubscribable();
      hooks := [];
      events := [];
    }

    /** assert_valid_state: InvalidStateTransitionException unless the current state is one
        of `allowed`. */
    method AssertValidState(allowed: seq<ClientState>) returns (o: Outcome)
      ensures o.Pass? <==> state in allowed
      ensures o.Fail? ==> o.error == InvalidStateTransition
    {
      var ok := IsAllowed(state, allowed);
      o := if ok then Pass else Fail(InvalidStateTransition);
    }

    /** state_transition: the check, then the new state. */
    method StateTransition(allowed: seq<ClientState>, next: ClientState) returns (o: Outcome)
      modifies this`state
      ensures o.Pass? <==> old(state) in allowed
      ensures o.Pass? ==> state == next
      ensures o.Fail? ==> o.error == InvalidStateTransition && state == old(state)
    {
      o := AssertValidState(allowed);
      if o.Fail? {
        return;
      }
      state := next;
    }

    /** connect: allowed only from CLOSED. The new connection is kept even when connecting
        fails; the state becomes CONNECTED only after connecting and tracking succeed, so a
        second connect without a disconnect throws. */
    method Connect(created: Connection, connectOk: bool) returns (o: Outcome)
      requires Valid()
      modifies this`state, this`connection, pollService`descriptors, pollService`descriptorMap
      ensures Valid()
      ensures old(state) != Closed ==>
        o == Fail(InvalidStateTransition) && state == old(state) && connection == old(connection)
        && pollService.descriptors == old(pollService.descriptors) && pollService.descriptorMap == old(pollService.descriptorMap)
      ensures old(state) == Closed && !connectOk ==>
        o == Fail(ConnectError) && state == Closed && connection == created && pollService.Empty()
      ensures old(state) == Closed && connectOk ==>
        o == Pass && state == Connected && connection == created && TracksOnly(pollService, created)
    {
      o := AssertValidState([Closed]);
      if o.Fail? {
        return;
      }
      connection := created;
      if !connectOk {
        return Fail(ConnectError);
      }
      pollService.AddSocket(connection);
      o := StateTransition([Closed], Connected);
    }

    /** disconnect: allowed from CONNECTED and from CLOSED (the doc comment says only
        CONNECTED), not from DESTRUCTING. It stops tracking every socket and drops the
        connection. */
    method Disconnect() returns (o: Outcome)
      requires Valid()
      modifies this`state, this`connection, pollService`descriptors, pollService`descriptorMap
      ensures Valid()
      ensures o.Pass? <==> old(state) != Destructing
      ensures o.Pass? ==> state == Closed && connection == null && pollService.Empty()
      ensures o.Fail? ==>
        o.error == InvalidStateTransition && state == old(state) && connection == old(connection)
        && pollService.descriptors == old(pollService.descriptors) && pollService.descriptorMap == old(pollService.descriptorMap)
    {
      o := StateTransition([Connected, Closed], Closed);
      if o.Fail? {
        return;
      }
      pollService.ClearSockets();
      connection := null;
    }

    /** The destructors: the subscription table is emptied, the state is forced to
        DESTRUCTING from any state, and the connection is dropped. */
    method Destroy()
      requires Valid()
      modifies this`state, this`connection, subscribable`subscriptions
      ensures Valid()
      ensures state == Destructing && connection == null && subscribable.subscriptions == map[]
    {
      subscribable.Clear();
      state := Destructing;
      connection := null;
    }

    /** handle_client_error: the user hook. */
    method HandleClientError()
      modifies this`hooks, this`events
      ensures hooks == old(hooks) + [ClientError]
      ensures events == old(events) + [ClientErrorHandled]
    {
      hooks := hooks + [ClientError];
      events := events + [ClientErrorHandled];
    }

    /** handle_client_disconnect: the user hook, called by poll and by handleSocketDisconnect
        when a read finds the peer closed. */
    method HandleClientDisconnect()
      modifies this`events
      ensures events == old(events) + [ClientDisconnectHandled]
    {
      events := events + [ClientDisconnectHandled];
    }

    /** handle_poll_timeout: the user hook. */
    method HandlePollTimeout()
      modifies this`hooks, this`events
      ensures hooks == old(hooks) + [PollTimeout]
      ensures events == old(events) + [PollTimeoutHandled]
    {
      hooks := hooks + [PollTimeout];
      events := events + [PollTimeoutHandled];
    }

    /** handle_client_ready_to_read: one frame from the client's own connection is
        dispatched through handleIncomingMessage. A close during the read only calls
        handle_client_disconnect (state and tracked set unchanged); an unknown channel id
        propagates as BadChannelException. */
    method HandleReadyToRead() returns (o: Outcome, ghost delivered: seq<HandlerCall>)
      requires connection != null
      modifies connection`inbound, this`hooks, this`events
      ensures hooks == old(hooks) + [ClientReadyToRead]
      ensures var frame := ReadFrame(registry.State(), old(connection.inbound));
        && connection.inbound == frame.rest
        && (frame.result.Failure? && frame.result.error == ConnectionClosed ==>
              o == Pass && events == old(events) + [ClientDisconnectHandled])
        && (frame.result.Failure? && frame.result.error != ConnectionClosed ==>
              o == Fail(frame.result.error) && events == old(events))
        && (frame.result.Success? ==>
              var (ch, payload) := frame.result.value;
              && o == Pass
              && (ch !in subscribable.subscriptions ==> events == old(events))
              && (ch in subscribable.subscriptions ==>
                    CallsEachOnce(delivered, subscribable.subscriptions[ch].handlers, connection, payload)
                    && events == old(events) + [HandlersCalled(delivered)]))
    {
      hooks := hooks + [ClientReadyToRead];
      o, delivered := Pass, [];
      var incoming := subscribable.HandleIncomingMessage(registry, connection);
      if incoming.Failure? {
        return Fail(incoming.error), [];
      }
      match incoming.value
      case PeerClosed =>
        HandleClientDisconnect();
      case Dropped(_) =>
      case Delivered(_, calls) =>
        events := events + [HandlersCalled(calls)];
        delivered := calls;
    }

    /** What disconnect() from a hook, or the destructor, does between two checkpoints. */
    method Interfere(step: Interference)
      requires Valid() && state != Destructing
      modifies this`state, this`connection, pollService`descriptors, pollService`descriptorMap
      ensures Valid()
      ensures (state, connection) == Apply(step, old(state), old(connection))
    {
      match step
      case Quiet =>
      case Shutdown =>
        var disconnected := Disconnect();
      case DestructorBegins =>
        state := Destructing;
    }

    /** What poll did, from the call of this method on, when its hooks made the user calls
        `answers`, one sequence per hook called: the user calls are those, in order; each
        hook's calls are the ones Handles allows, and only the last hook can have thrown,
        and then poll throws its BadChannelException. */
    twostate predicate Answered(new answers: seq<seq<UserEvent>>, new r: Result<bool>)
      reads this
    {
      && events == old(events) + Concat(answers)
      && old(hooks) <= hooks && |hooks| == |old(hooks)| + |answers|
      && (r == Failure(BadChannel) ==> |answers| > 0)
      && forall i :: 0 <= i < |answers| ==>
           Handles(hooks[|old(hooks)| + i], answers[i], if r == Failure(BadChannel) && i == |answers| - 1 then Fail(BadChannel) else Pass)
    }

    /** One entry of the client's own connection: the hook HookFor chooses is called, and
        does what that hook does. ERROR and DISCONNECT only call their user hook; NORMAL
        reads and dispatches one frame. */
    method HandleEntry(e: Entry) returns (o: Outcome, ghost answer: seq<UserEvent>)
      requires Valid() && e.connection == connection
      modifies e.connection`inbound, this`hooks, this`events
      ensures Valid()
      ensures hooks == old(hooks) + [HookFor(e.status)]
      ensures events == old(events) + answer && Handles(HookFor(e.status), answer, o)
      ensures e.status == Normal ==>
        var frame := ReadFrame(registry.State(), old(e.connection.inbound));
        && e.connection.inbound == frame.rest
        && (frame.result.Failure? && frame.result.error == ConnectionClosed ==>
              o == Pass && answer == [ClientDisconnectHandled])
        && (frame.result.Failure? && frame.result.error != ConnectionClosed ==> o == Fail(frame.result.error))
        && (frame.result.Success? ==>
              var (ch, payload) := frame.result.value;
              && o == Pass
              && (ch !in subscribable.subscriptions ==> answer == [])
              && (ch in subscribable.subscriptions ==>
                    |answer| == 1 && answer[0].HandlersCalled?
                    && CallsEachOnce(answer[0].calls, subscribable.subscriptions[ch].handlers, e.connection, payload)))
    {
      ghost var before := events;
      o := Pass;
      match e.status {
        case Error =>
          HandleClientError();
        case Disconnect =>
          hooks := hooks + [ClientDisconnect];
          HandleClientDisconnect();
        case Normal =>
          ghost var delivered;
          o, delivered := HandleReadyToRead();
      }
      answer := events[|before|..];
    }

    /** poll: false, doing nothing, unless the state is CONNECTED. Otherwise the poll
        service is polled (its PollException propagates) and the hooks are called as
        PollTrace says. When a hook throws, poll stops there with that exception.
        `answers` holds the user calls of each hook called. */
    method Poll(pollReturn: int, revents: seq<bv16>, errorCode: int, steps: seq<Interference>)
      returns (r: Result<bool>, ghost answers: seq<seq<UserEvent>>)
      requires Valid() && |revents| == |pollService.descriptors|
      modifies this`state, this`connection, this`hooks, this`events
      modifies pollService`descriptors, pollService`descriptorMap, pollService`results, pollService.Tracked()
      ensures Valid()
      ensures old(state) != Connected ==>
        r == Success(false) && hooks == old(hooks) && events == old(events) && state == old(state)
        && pollService.descriptorMap == old(pollService.descriptorMap)
      ensures old(state) == Connected ==>
        var polled := old(pollService.PollResult(pollReturn, revents, errorCode));
        && (polled.Failure? ==>
              r == Failure(polled.error) && r.error.IsPollException() && hooks == old(hooks) && events == old(events))
        && (polled.Success? ==>
              var trace := PollTrace(polled.value, old(connection), steps);
              && Answered(answers, r)
              && (r == trace.1 ==> hooks == old(hooks) + trace.0)
              && (r != trace.1 ==> hooks <= old(hooks) + trace.0 && r == Failure(BadChannel)))
    {
      answers := [];
      if state != Connected {
        return Success(false), [];
      }
      ValidPollSucceeds(pollService, pollReturn, revents, errorCode);
      ghost var tracked := pollService.Tracked();
      var polled := pollService.Poll(pollReturn, revents, errorCode);
      if polled.Failure? {
        return Failure(polled.error), [];
      }
      var ready := polled.value;
      assert forall e | e in ready :: e.connection in tracked by {
        forall e | e in ready ensures e.connection in tracked {
          var j :| 0 <= j < |ready| && ready[j] == e;
        }
      }
      r, answers := DispatchReady(ready, steps);
    }

    /** The part of poll after the poll service returned `ready`. */
    method DispatchReady(ready: seq<Entry>, steps: seq<Interference>) returns (r: Result<bool>, ghost answers: seq<seq<UserEvent>>)
      requires Valid() && state == Connected
      modifies this`state, this`connection, this`hooks, this`events
      modifies pollService`descriptors, pollService`descriptorMap, set e | e in ready :: e.connection
      ensures Valid()
      ensures Answered(answers, r)
      ensures var trace := PollTrace(ready, old(connection), steps);
        && (r == trace.1 ==> hooks == old(hooks) + trace.0)
        && (r != trace.1 ==> hooks <= old(hooks) + trace.0 && r == Failure(BadChannel))
    {
      if |ready| == 0 {
        answers := HandleTimeout(steps);
        return Success(false), answers;
      }
      r, answers := DispatchLoop(ready, steps);
    }

    /** poll's loop over a non-empty ready set. */
    method DispatchLoop(ready: seq<Entry>, steps: seq<Interference>) returns (r: Result<bool>, ghost answers: seq<seq<UserEvent>>)
      requires Valid() && state == Connected && |ready| > 0
      modifies this`state, this`connection, this`hooks, this`events
      modifies pollService`descriptors, pollService`descriptorMap, set e | e in ready :: e.connection
      ensures Valid()
      ensures Answered(answers, r)
      ensures var trace := Dispatch(ready, 0, Connected, old(connection), steps);
        && (r == trace.1 ==> hooks == old(hooks) + trace.0)
        && (r != trace.1 ==> hooks <= old(hooks) + trace.0 && r == Failure(BadChannel))
    {
      ghost var trace := Dispatch(ready, 0, Connected, connection, steps);
      answers := [];
      var k := 0;
      while k < |ready|
        invariant 0 <= k <= |ready| && |answers| == k
        invariant Valid()
        invariant state == Connected || state == Closed
        invariant old(hooks) <= hooks && |hooks| == |old(hooks)| + k
        invariant hooks + Dispatch(ready, k, state, connection, steps).0 == old(hooks) + trace.0
        invariant Dispatch(ready, k, state, connection, steps).1 == trace.1
        invariant events == old(events) + Concat(answers)
        invariant forall i :: 0 <= i < k ==> Handles(hooks[|old(hooks)| + i], answers[i], Pass)
      {
        assert ready[k] in ready;
        var outcome, o, answer := DispatchEntry(ready, k, steps);
        if outcome.Failure? || !outcome.value {
          return outcome, answers;
        }
        ConcatAppend(answers, answer);
        answers := answers + [answer];
        if o.Fail? {
          ghost var rest := Dispatch(ready, k + 1, state, connection, steps);
          assert (hooks + rest.0)[..|hooks|] == hooks;
          return Failure(o.error), answers;
        }
        k := k + 1;
      }
      return Success(true), answers;
    }

    /** An empty ready set: the checkpoint, then the timeout hook. */
    method HandleTimeout(steps: seq<Interference>) returns (ghost answers: seq<seq<UserEvent>>)
      requires Valid() && state == Connected
      modifies this`state, this`connection, this`hooks, this`events, pollService`descriptors, pollService`descriptorMap
      ensures Valid()
      ensures hooks == old(hooks) + PollTrace([], old(connection), steps).0
      ensures answers == if StepAt(steps, 0) == DestructorBegins then [] else [[PollTimeoutHandled]]
      ensures events == old(events) + Concat(answers)
    {
      Interfere(StepAt(steps, 0));
      if state == Destructing {
        return [];
      }
      HandlePollTimeout();
      answers := [[PollTimeoutHandled]];
      assert answers[..0] == [];
    }

    /** One turn of poll's loop: the interference before entry `k`, the check that the
        entry is the client's own connection, the checkpoint, and the entry's hook.
        `outcome` is Success(true) when the loop goes on. */
    method DispatchEntry(ready: seq<Entry>, k: nat, steps: seq<Interference>) returns (outcome: Result<bool>, o: Outcome, ghost answer: seq<UserEvent>)
      requires Valid() && (state == Connected || state == Closed) && k < |ready|
      modifies this`state, this`connection, this`hooks, this`events
      modifies pollService`descriptors, pollService`descriptorMap, ready[k].connection
      ensures Valid()
      ensures outcome != Success(true) ==>
        hooks == old(hooks) && events == old(events) && o == Pass
        && Dispatch(ready, k, old(state), old(connection), steps) == ([], outcome)
      ensures outcome == Success(true) ==>
        && (state == Connected || state == Closed)
        && var rest := Dispatch(ready, k + 1, state, connection, steps);
        && hooks == old(hooks) + [HookFor(ready[k].status)]
        && Dispatch(ready, k, old(state), old(connection), steps) == ([HookFor(ready[k].status)] + rest.0, rest.1)
        && events == old(events) + answer && Handles(HookFor(ready[k].status), answer, o)
    {
      Interfere(StepAt(steps, k));
      if ready[k].connection != connection {
        return Failure(InvalidSocketPoll), Pass, [];
      }
      if state == Destructing {
        return Success(false), Pass, [];
      }
      outcome := Success(true);
      o, answer := HandleEntry(ready[k]);
    }

    /** send: every byte goes out on the client's own connection. */
    method Send(bytes: seq<Byte>)
      requires connection != null
      modifies connection`outbound, connection`sendCalls
      ensures connection.outbound == old(connection.outbound) + bytes
      ensures connection.sendCalls == old(connection.sendCalls) + [bytes]
    {
      connection.Send(bytes);
    }

    /** read: receive's result is discarded, so a peer that closes early leaves the caller
        with a short buffer and no indication of it. */
    method Read(n: nat) returns (data: seq<Byte>)
      requires connection != null
      modifies connection`inbound
      ensures n <= |old(connection.inbound)| ==>
        data == old(connection.inbound)[..n] && connection.inbound == old(connection.inbound)[n..]
      ensures n > |old(connection.inbound)| ==> data == old(connection.inbound) && connection.inbound == []
      ensures |data| <= n
    {
      var ok;
      ok, data := connection.Receive(n);
    }

    /** channeled_send<T> on the client's own connection. */
    method ChanneledSend(key: TypeKey, message: seq<Byte>) returns (o: Outcome)
      requires connection != null && |message| == key.size
      modifies connection`outbound, connection`sendCalls
      ensures o.Fail? <==> key !in registry.typesToIds
      ensures o.Fail? ==>
        o.error == BadChannel && connection.outbound == old(connection.outbound)
        && connection.sendCalls == old(connection.sendCalls)
      ensures o.Pass? ==>
        var id := registry.typesToIds[key];
        && connection.sendCalls == old(connection.sendCalls) + [[id], message]
        && connection.outbound == old(connection.outbound) + EncodeFrame(id, message)
    {
      o := Framing.ChanneledSend(registry, connection, key, message);
    }

    /** channeled_read_id on the client's own connection. */
    method ChanneledReadId() returns (r: Result<ChannelId>)
      requires connection != null
      modifies connection`inbound
      ensures StreamRead(r, connection.inbound) == ReadId(old(connection.inbound))
    {
      r := Framing.ChanneledReadId(connection);
    }

    /** channeled_read(id) on the client's own connection. */
    method ChanneledRead(id: ChannelId) returns (r: Result<seq<Byte>>)
      requires connection != null
      modifies connection`inbound
      ensures StreamRead(r, connection.inbound) == ReadPayload(registry.State(), id, old(connection.inbound))
    {
      r := Framing.ChanneledRead(registry, connection, id);
    }
  }
}
