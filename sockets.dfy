/** The browser's WebSocket objects as the two live-feed clients see them.
    A socket is named by the order in which it was created and carries its
    ready state; the network behind it is not modelled. The browser
    delivers an open event only to a connecting socket, messages only to an
    open one and one close event to any socket not yet closed; an event it
    would not deliver changes nothing. */
module Sockets {
  datatype ReadyState = Connecting | Open | Closing | Closed

  predicate CanOpen(sockets: seq<ReadyState>, id: nat) {
    id < |sockets| && sockets[id] == Connecting
  }

  predicate CanReceive(sockets: seq<ReadyState>, id: nat) {
    id < |sockets| && sockets[id] == Open
  }

  predicate CanClose(sockets: seq<ReadyState>, id: nat) {
    id < |sockets| && sockets[id] != Closed
  }

  /** `ws.close()`: a connecting or open socket starts closing (its close
      event follows later); on any other socket it does nothing. */
  function CloseCalled(sockets: seq<ReadyState>, id: nat): (r: seq<ReadyState>)
    ensures |r| == |sockets|
    ensures forall k :: 0 <= k < |r| && k != id ==> r[k] == sockets[k]
    ensures id < |r| ==> r[id] == (if sockets[id] in {Connecting, Open} then Closing else sockets[id])
    ensures CanClose(sockets, id) <==> CanClose(r, id)
  {
    if id < |sockets| && sockets[id] in {Connecting, Open} then sockets[id := Closing] else sockets
  }
}
