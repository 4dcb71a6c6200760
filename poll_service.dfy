/** PollService: a vector of poll descriptors, a map from each tracked descriptor to its
    position in that vector and its connection, and the classification of the OS poll
    result into a collection of ready sockets. The OS call itself is an input: the
    value socket_poll returns and the revents it writes, one per descriptor. */
module PollService {
  import opened Errors
  import opened Sockets
  import opened SocketCollection

  /** The poll timeout used when none is supplied. */
  const DefaultTimeout := 10
  /** What socket_poll returns when the OS call fails. */
  const SocketError := -1

  /** The poll event bits, with the values <poll.h> gives them on Linux. */
  const POLLIN: bv16 := 0x001
  const POLLERR: bv16 := 0x008
  const POLLHUP: bv16 := 0x010
  const POLLNVAL: bv16 := 0x020

  /** One struct pollfd, without its revents (those come from the OS on each poll). */
  datatype PollDescriptor = PollDescriptor(fd: int, events: bv16)

  /** A value of poll_descriptor_map: the position in `descriptors` and the connection. */
  datatype Slot = Slot(index: int, connection: Connection?)

  /** The revents bits that make poll() look at a descriptor at all. */
  predicate Reportable(revents: bv16) {
    revents & (POLLIN | POLLERR | POLLNVAL | POLLHUP) != 0
  }

  /** The status of a descriptor with the given revents. */
  function Classify(revents: bv16): (s: SocketStatus)
    ensures s == Error <==> revents & (POLLERR | POLLNVAL) != 0
    ensures s == Disconnect <==> revents & (POLLERR | POLLNVAL) == 0 && revents & POLLHUP != 0
    ensures s == Normal <==> revents & (POLLERR | POLLNVAL | POLLHUP) == 0
  {
    if revents & (POLLERR | POLLNVAL) != 0 then Error
    else if revents & POLLHUP != 0 then Disconnect
    else Normal
  }

  /** One turn of poll()'s loop: descriptor `d`, whose revents are `rev`, and the
      entries gathered so far. */
  function Step(acc: seq<Entry>, d: PollDescriptor, m: map<int, Slot>, rev: bv16): Result<seq<Entry>> {
    if !Reportable(rev) || d.fd !in m then Success(acc)
    else if m[d.fd].connection == null then Failure(InvalidSocketConnection("Invalid socket descriptor", d.fd))
    else Success(Insert(acc, Entry(m[d.fd].connection, Classify(rev))))
  }

  /** poll()'s loop over the first `n` descriptors. */
  function Scan(descs: seq<PollDescriptor>, m: map<int, Slot>, revents: seq<bv16>, n: nat): Result<seq<Entry>>
    requires n <= |descs| == |revents|
  {
    if n == 0 then Success([])
    else
      match Scan(descs, m, revents, n - 1)
      case Failure(e) => Failure(e)
      case Success(acc) => Step(acc, descs[n - 1], m, revents[n - 1])
  }

  /** Descriptor `i` is reportable and tracked, but its map entry holds no connection. */
  predicate NullAt(descs: seq<PollDescriptor>, m: map<int, Slot>, revents: seq<bv16>, i: int)
    requires 0 <= i < |descs| == |revents|
  {
    Reportable(revents[i]) && descs[i].fd in m && m[descs[i].fd].connection == null
  }

  /** Once the loop has thrown, later descriptors do not matter. */
  lemma {:induction false} ScanStaysFailed(descs: seq<PollDescriptor>, m: map<int, Slot>, revents: seq<bv16>, i: nat, n: nat)
    requires i <= n <= |descs| == |revents|
    requires Scan(descs, m, revents, i).Failure?
    ensures Scan(descs, m, revents, n) == Scan(descs, m, revents, i)
    decreases n - i
  {
    if i < n {
      ScanStaysFailed(descs, m, revents, i, n - 1);
    }
  }

  /** poll() throws InvalidSocketConnectionException exactly when some reportable,
      tracked descriptor has a null connection, and then for such a descriptor. */
  lemma {:induction false} ScanFails(descs: seq<PollDescriptor>, m: map<int, Slot>, revents: seq<bv16>, n: nat)
    requires n <= |descs| == |revents|
    ensures Scan(descs, m, revents, n).Failure? <==> exists i :: 0 <= i < n && NullAt(descs, m, revents, i)
    ensures Scan(descs, m, revents, n).Failure? ==>
      exists i :: 0 <= i < n && NullAt(descs, m, revents, i)
        && Scan(descs, m, revents, n).error == InvalidSocketConnection("Invalid socket descriptor", descs[i].fd)
  {
    if n > 0 {
      ScanFails(descs, m, revents, n - 1);
      if Scan(descs, m, revents, n - 1).Failure? {
        var i :| 0 <= i < n - 1 && NullAt(descs, m, revents, i)
          && Scan(descs, m, revents, n - 1).error == InvalidSocketConnection("Invalid socket descriptor", descs[i].fd);
        assert NullAt(descs, m, revents, i);
      } else if NullAt(descs, m, revents, n - 1) {
        assert Scan(descs, m, revents, n).error == InvalidSocketConnection("Invalid socket descriptor", descs[n - 1].fd);
      } else {
        assert Scan(descs, m, revents, n).Success?;
        forall i | 0 <= i < n ensures !NullAt(descs, m, revents, i) {
          if i < n - 1 {
            assert !NullAt(descs, m, revents, i);
          }
        }
      }
    }
  }

  /** Entry `e` is what the loop records for one of the first `n` descriptors: a
      reportable, tracked one whose connection `e` holds, classified by its revents. */
  ghost predicate ReportedFor(descs: seq<PollDescriptor>, m: map<int, Slot>, revents: seq<bv16>, n: nat, e: Entry)
    requires n <= |descs| == |revents|
  {
    exists i :: 0 <= i < n && Reportable(revents[i]) && descs[i].fd in m
      && m[descs[i].fd].connection == e.connection && e.status == Classify(revents[i])
  }

  /** Every reported entry holds the connection tracked for some reportable descriptor and
      carries that descriptor's classified status; untracked and quiet descriptors
      contribute nothing. Conversely every reportable, tracked descriptor's connection is
      reported. No connection is reported twice. */
  lemma {:induction false} ScanMembers(descs: seq<PollDescriptor>, m: map<int, Slot>, revents: seq<bv16>, n: nat)
    requires n <= |descs| == |revents|
    requires Scan(descs, m, revents, n).Success?
    ensures Unique(Scan(descs, m, revents, n).value)
    ensures forall e :: e in Scan(descs, m, revents, n).value ==> ReportedFor(descs, m, revents, n, e)
    ensures forall i :: 0 <= i < n && Reportable(revents[i]) && descs[i].fd in m ==>
      m[descs[i].fd].connection != null && Contains(Scan(descs, m, revents, n).value, m[descs[i].fd].connection)
  {
    if n > 0 {
      assert Scan(descs, m, revents, n - 1).Success?;
      ScanMembers(descs, m, revents, n - 1);
      var acc := Scan(descs, m, revents, n - 1).value;
      var rs := Scan(descs, m, revents, n).value;
      assert acc <= rs;
      forall e | e in rs
        ensures ReportedFor(descs, m, revents, n, e)
      {
        if e in acc {
          var i :| 0 <= i < n - 1 && Reportable(revents[i]) && descs[i].fd in m
            && m[descs[i].fd].connection == e.connection && e.status == Classify(revents[i]);
        } else {
          var j :| 0 <= j < |rs| && rs[j] == e;
          assert j >= |acc|;
          assert Reportable(revents[n - 1]) && descs[n - 1].fd in m;
        }
      }
      forall i | 0 <= i < n && Reportable(revents[i]) && descs[i].fd in m
        ensures m[descs[i].fd].connection != null && Contains(rs, m[descs[i].fd].connection)
      {
        if i < n - 1 {
          var c := m[descs[i].fd].connection;
          var j :| 0 <= j < |acc| && acc[j].connection == c;
          assert rs[j] == acc[j];
        }
      }
    }
  }

  /** The PollService object. */
  class PollService {
    var timeout: int
    var descriptors: seq<PollDescriptor>
    var descriptorMap: map<int, Slot>
    var results: seq<Entry>

    /** Every tracked descriptor's slot points at its own descriptor and holds a
        connection with that descriptor; every descriptor is tracked, watches POLLIN, and
        appears once. */
    ghost predicate Valid()
      reads this
    {
      && (forall f :: f in descriptorMap ==>
            0 <= descriptorMap[f].index < |descriptors| && descriptors[descriptorMap[f].index].fd == f)
      && (forall f :: f in descriptorMap ==>
            descriptorMap[f].connection != null && descriptorMap[f].connection.descriptor == f)
      && (forall i :: 0 <= i < |descriptors| ==> descriptors[i].fd in descriptorMap && descriptors[i].events == POLLIN)
      && (forall i, j :: 0 <= i < j < |descriptors| ==> descriptors[i].fd != descriptors[j].fd)
    }

    /** The connections currently tracked. */
    ghost function Tracked(): set<Connection>
      reads this
    {
      set f | f in descriptorMap && descriptorMap[f].connection != null :: descriptorMap[f].connection
    }

    /** Nothing is tracked. */
    ghost predicate Empty()
      reads this
    {
      descriptors == [] && descriptorMap == map[]
    }

    /** What poll() returns for the given OS result. */
    function PollResult(pollReturn: int, revents: seq<bv16>, errorCode: int): Result<seq<Entry>>
      reads this
      requires |revents| == |descriptors|
    {
      if pollReturn == SocketError then Failure(PollError(errorCode))
      else if pollReturn > 0 then Scan(descriptors, descriptorMap, revents, |descriptors|)
      else Success([])
    }

    constructor (timeout: int := DefaultTimeout)
      ensures Valid() && Empty() && results == []
      ensures this.timeout == timeout
    {
      this.timeout := timeout;
      descriptors := [];
      descriptorMap := map[];
      results := [];
    }

    /** Starts out tracking exactly `socket`. */
    constructor WithSocket(socket: Connection, timeout: int := DefaultTimeout)
      ensures Valid() && results == [] && this.timeout == timeout
      ensures descriptors == [PollDescriptor(socket.descriptor, POLLIN)]
      ensures descriptorMap == map[socket.descriptor := Slot(0, socket)]
      ensures Tracked() == {socket}
    {
      this.timeout := timeout;
      descriptors := [];
      descriptorMap := map[];
      results := [];
      new;
      AddSocket(socket);
    }

    /** add_socket: one more POLLIN descriptor at the end, and the descriptor's map entry
        (over)written to point at it. */
    method AddSocket(socket: Connection)
      modifies this`descriptors, this`descriptorMap
      ensures descriptors == old(descriptors) + [PollDescriptor(socket.descriptor, POLLIN)]
      ensures descriptorMap == old(descriptorMap)[socket.descriptor := Slot(|old(descriptors)|, socket)]
      ensures old(Valid()) && socket.descriptor !in old(descriptorMap) ==>
        Valid() && Tracked() == old(Tracked()) + {socket}
    {
      ghost var T := Tracked();
      descriptors := descriptors + [PollDescriptor(socket.descriptor, POLLIN)];
      descriptorMap := descriptorMap[socket.descriptor := Slot(|descriptors| - 1, socket)];
      if old(Valid()) && socket.descriptor !in old(descriptorMap) {
        assert descriptorMap[socket.descriptor].connection == socket;
        forall c | c in T ensures c in Tracked() {
          var f :| f in old(descriptorMap) && old(descriptorMap)[f].connection == c;
          assert f != socket.descriptor && f in descriptorMap;
        }
      }
    }

    /** remove_socket: an untracked descriptor changes nothing; a tracked one loses its
        descriptor and its map entry, and every later descriptor's stored index moves
        down by one. */
    method RemoveSocket(socket: Connection)
      requires Valid()
      modifies this`descriptors, this`descriptorMap
      ensures Valid()
      ensures socket.descriptor !in old(descriptorMap) ==>
        descriptors == old(descriptors) && descriptorMap == old(descriptorMap)
      ensures socket.descriptor in old(descriptorMap) ==>
        var k := old(descriptorMap)[socket.descriptor].index;
        && descriptors == old(descriptors)[..k] + old(descriptors)[k + 1..]
        && descriptorMap.Keys == old(descriptorMap).Keys - {socket.descriptor}
        && (forall f :: f in descriptorMap ==>
              descriptorMap[f].connection == old(descriptorMap)[f].connection
              && descriptorMap[f].index ==
                   if old(descriptorMap)[f].index > k then old(descriptorMap)[f].index - 1
                   else old(descriptorMap)[f].index)
      ensures Tracked() == old(Tracked()) - (if socket.descriptor in old(descriptorMap)
                                             then {old(descriptorMap)[socket.descriptor].connection}
                                             else {})
    {
      var fd := socket.descriptor;
      if fd !in descriptorMap {
        return;
      }
      ghost var D, M := descriptors, descriptorMap;
      var index := descriptorMap[fd].index;

      descriptors := descriptors[..index] + descriptors[index + 1..];
      descriptorMap := descriptorMap - {fd};

      var i := index;
      while i < |descriptors|
        modifies this`descriptorMap
        invariant index <= i <= |descriptors| == |D| - 1
        invariant descriptors == D[..index] + D[index + 1..]
        invariant descriptorMap.Keys == M.Keys - {fd}
        invariant forall f :: f in descriptorMap ==>
          descriptorMap[f].connection == M[f].connection
          && descriptorMap[f].index ==
               if index < M[f].index <= i then M[f].index - 1 else M[f].index
      {
        var g := descriptors[i].fd;
        assert descriptors[i] == D[i + 1];
        SlotOfDescriptorIn(D, M, i + 1);
        assert g != fd by { SlotOfDescriptorIn(D, M, index); }
        var slot := if g in descriptorMap then descriptorMap[g] else Slot(0, null);
        descriptorMap := descriptorMap[g := slot.(index := i)];
        forall f | f in descriptorMap && f != g
          ensures M[f].index != i + 1
        {
          assert D[M[f].index].fd == f;
        }
        i := i + 1;
      }
      assert M[fd].connection in old(Tracked());
      RemovedIsValid(D, M, fd, index);
      forall c | c in old(Tracked()) && c != M[fd].connection
        ensures c in Tracked()
      {
        var f :| f in M && M[f].connection != null && M[f].connection == c;
        assert f != fd;
        assert f in descriptorMap;
      }
    }

    /** SlotOfDescriptor for a snapshot of the two fields. */
    static lemma SlotOfDescriptorIn(D: seq<PollDescriptor>, M: map<int, Slot>, j: int)
      requires ValidState(D, M) && 0 <= j < |D|
      ensures D[j].fd in M && M[D[j].fd].index == j
    {
      var k := M[D[j].fd].index;
      assert D[k].fd == D[j].fd;
    }

    /** Valid(), for a snapshot of the two fields. */
    static ghost predicate ValidState(D: seq<PollDescriptor>, M: map<int, Slot>) {
      && (forall f :: f in M ==> 0 <= M[f].index < |D| && D[M[f].index].fd == f)
      && (forall f :: f in M ==> M[f].connection != null && M[f].connection.descriptor == f)
      && (forall i :: 0 <= i < |D| ==> D[i].fd in M && D[i].events == POLLIN)
      && (forall i, j :: 0 <= i < j < |D| ==> D[i].fd != D[j].fd)
    }

    /** After remove_socket's loop the state is valid again. */
    lemma RemovedIsValid(D: seq<PollDescriptor>, M: map<int, Slot>, fd: int, index: int)
      requires ValidState(D, M) && fd in M && index == M[fd].index
      requires descriptors == D[..index] + D[index + 1..]
      requires descriptorMap.Keys == M.Keys - {fd}
      requires forall f :: f in descriptorMap ==>
          descriptorMap[f].connection == M[f].connection
          && descriptorMap[f].index == if index < M[f].index then M[f].index - 1 else M[f].index
      ensures Valid()
    {
      forall i | 0 <= i < |descriptors| ensures descriptors[i] == D[if i < index then i else i + 1] {
      }
      forall f | f in descriptorMap
        ensures 0 <= descriptorMap[f].index < |descriptors| && descriptors[descriptorMap[f].index].fd == f
      {
        assert M[f].index != index;
      }
      forall i | 0 <= i < |descriptors| ensures descriptors[i].fd in descriptorMap {
        var j := if i < index then i else i + 1;
        assert D[j].fd != fd;
      }
    }

    /** clear_sockets: nothing is tracked any more. */
    method ClearSockets()
      modifies this`descriptors, this`descriptorMap
      ensures Valid() && Empty() && Tracked() == {}
    {
      descriptors := [];
      descriptorMap := map[];
    }

    /** poll(): clears the previous results, then either raises PollException for an OS
        failure, or collects the ready tracked sockets (none on a timeout). */
    method Poll(pollReturn: int, revents: seq<bv16>, errorCode: int) returns (r: Result<seq<Entry>>)
      requires |revents| == |descriptors|
      modifies this`results
      ensures r == PollResult(pollReturn, revents, errorCode)
      ensures r.Success? ==> results == r.value
      ensures pollReturn == SocketError ==> results == []
    {
      results := [];
      if pollReturn == SocketError {
        return Failure(PollError(errorCode));
      } else if pollReturn > 0 {
        var i := 0;
        while i < |descriptors|
          invariant 0 <= i <= |descriptors|
          invariant Scan(descriptors, descriptorMap, revents, i) == Success(results)
        {
          var d := descriptors[i];
          if revents[i] & (POLLIN | POLLERR | POLLNVAL | POLLHUP) != 0 {
            if d.fd !in descriptorMap {
              // a descriptor that is no longer tracked is skipped
              i := i + 1;
              continue;
            }
            var ready := descriptorMap[d.fd].connection;
            if ready == null {
              r := Failure(InvalidSocketConnection("Invalid socket descriptor", d.fd));
              ScanStaysFailed(descriptors, descriptorMap, revents, i + 1, |descriptors|);
              return;
            }
            results := Insert(results, Entry(ready, Classify(revents[i])));
          }
          i := i + 1;
        }
      }
      r := Success(results);
    }
  }

  /** In a valid state poll() never raises InvalidSocketConnectionException: it either
      reports the OS failure or succeeds, and then reports only tracked connections,
      each once. */
  lemma ValidPollSucceeds(ps: PollService, pollReturn: int, revents: seq<bv16>, errorCode: int)
    requires ps.Valid() && |revents| == |ps.descriptors|
    ensures pollReturn != SocketError <==> ps.PollResult(pollReturn, revents, errorCode).Success?
    ensures pollReturn == SocketError ==> ps.PollResult(pollReturn, revents, errorCode).error.IsPollException()
    ensures ps.PollResult(pollReturn, revents, errorCode).Success? ==>
      var rs := ps.PollResult(pollReturn, revents, errorCode).value;
      Unique(rs) && forall j :: 0 <= j < |rs| ==> rs[j].connection in ps.Tracked()
  {
    var D, M := ps.descriptors, ps.descriptorMap;
    if pollReturn != SocketError && pollReturn > 0 {
      ScanFails(D, M, revents, |D|);
      ScanMembers(D, M, revents, |D|);
      var rs := Scan(D, M, revents, |D|).value;
      forall j | 0 <= j < |rs| ensures rs[j].connection in ps.Tracked() {
        assert ReportedFor(D, M, revents, |D|, rs[j]);
      }
    }
  }
}
