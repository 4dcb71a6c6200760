/** The connection primitive, reduced to the two contracts the core relies on: a send
    that delivers every byte, and a receive that reports false when the peer closes
    before the requested number of bytes has arrived. The OS calls behind them
    (socket, bind, listen, connect, getaddrinfo) are not part of this model. */
module Sockets {
  import opened Errors

  /** NETWORK_BYTE: one unsigned byte. */
  type Byte = b: int | 0 <= b < 256

  /** A SocketConnection. Object identity plays the role of the shared_ptr that the
      library compares with ==. */
  class Connection {
    /** The OS socket descriptor. */
    const descriptor: int
    /** Every byte the peer will still send before it closes the stream. */
    var inbound: seq<Byte>
    /** Every byte sent on this connection so far. */
    var outbound: seq<Byte>
    /** One element per send call, in order. */
    var sendCalls: seq<seq<Byte>>
    /** For a listening socket: the connections accept() will hand out, in order. */
    var backlog: seq<Connection>

    constructor (descriptor: int, inbound: seq<Byte>, backlog: seq<Connection>)
      ensures this.descriptor == descriptor && this.inbound == inbound && this.backlog == backlog
      ensures outbound == [] && sendCalls == []
    {
      this.descriptor := descriptor;
      this.inbound := inbound;
      this.outbound := [];
      this.sendCalls := [];
      this.backlog := backlog;
    }

    /** send: all bytes go out, as one call. */
    method Send(bytes: seq<Byte>)
      modifies this`outbound, this`sendCalls
      ensures outbound == old(outbound) + bytes
      ensures sendCalls == old(sendCalls) + [bytes]
    {
      outbound := outbound + bytes;
      sendCalls := sendCalls + [bytes];
    }

    /** receive(buffer, n): true with exactly the next n bytes, or false when the peer
        closed first; a close consumes whatever arrived before it. */
    method Receive(n: nat) returns (ok: bool, data: seq<Byte>)
      modifies this`inbound
      ensures ok <==> n <= |old(inbound)|
      ensures ok ==> data == old(inbound)[..n] && inbound == old(inbound)[n..]
      ensures !ok ==> data == old(inbound) && inbound == []
    {
      if n <= |inbound| {
        ok, data := true, inbound[..n];
        inbound := inbound[n..];
      } else {
        ok, data := false, inbound;
        inbound := [];
      }
    }

    /** accept: the next pending connection, or AcceptException when none is queued. */
    method Accept() returns (r: Result<Connection>)
      modifies this`backlog
      ensures old(backlog) == [] ==> r == Failure(AcceptError) && backlog == []
      ensures old(backlog) != [] ==> r == Success(old(backlog)[0]) && backlog == old(backlog)[1..]
    {
      if backlog == [] {
        r := Failure(AcceptError);
      } else {
        r := Success(backlog[0]);
        backlog := backlog[1..];
      }
    }
  }
}
