/**
 * `ConnectionManager`: the registry of live WebSocket connections keyed by
 * user id, and the realtime endpoint that echoes inbound text back to its
 * sender. A connection handle is opaque (the type parameter `Handle`).
 */
module Connections {
  import opened Wrappers

  /** A text the registry hands to a connection for delivery. */
  datatype Delivery<Handle> = Delivery(handle: Handle, text: string)

  /** The realtime reply to inbound text: `f"Echo: {data}"`. */
  function EchoText(data: string): (r: string)
    ensures |r| == |data| + 6
    ensures r[..6] == "Echo: " && r[6..] == data
  {
    "Echo: " + data
  }

  /** Stripping the echo prefix gives back the inbound text. */
  lemma EchoTextInjective(a: string, b: string)
    ensures EchoText(a) == EchoText(b) <==> a == b
  {
  }

  class ConnectionManager<Handle> {
    var activeConnections: map<string, Handle>

    constructor ()
      ensures activeConnections == map[]
    {
      activeConnections := map[];
    }

    /** `connect`: registers the handle, replacing any previous one for the same user. */
    method Connect(handle: Handle, userId: string)
      modifies this
      ensures activeConnections == old(activeConnections)[userId := handle]
      ensures userId in activeConnections && activeConnections[userId] == handle
      ensures forall u :: u != userId ==> (u in activeConnections <==> u in old(activeConnections))
      ensures forall u :: u != userId && u in activeConnections ==> activeConnections[u] == old(activeConnections)[u]
    {
      activeConnections := activeConnections[userId := handle];
    }

    /** `disconnect`: removes the user's entry if there is one; otherwise nothing happens. */
    method Disconnect(userId: string)
      modifies this
      ensures activeConnections == old(activeConnections) - {userId}
      ensures userId !in old(activeConnections) ==> activeConnections == old(activeConnections)
    {
      if userId in activeConnections {
        activeConnections := activeConnections - {userId};
      }
    }

    /** `send_message`: the delivery it would make, only to a registered user; the registry is not changed. */
    method SendMessage(userId: string, message: string) returns (sent: Option<Delivery<Handle>>)
      ensures sent.Some? <==> userId in activeConnections
      ensures sent.Some? ==> sent.value.handle == activeConnections[userId] && sent.value.text == message
    {
      if userId in activeConnections {
        sent := Some(Delivery(activeConnections[userId], message));
      } else {
        sent := None;
      }
    }

    /**
     * `websocket_endpoint` for one connection's lifetime: connect, echo every
     * inbound text back over this connection, and deregister on disconnect.
     * `inbound` is what `receive_text` returned before the client left.
     */
    method WebsocketSession(handle: Handle, userId: string, inbound: seq<string>) returns (sent: seq<Delivery<Handle>>)
      modifies this
      ensures |sent| == |inbound|
      ensures forall i :: 0 <= i < |inbound| ==> sent[i] == Delivery(handle, EchoText(inbound[i]))
      ensures activeConnections == old(activeConnections) - {userId}
    {
      Connect(handle, userId);
      sent := [];
      for i := 0 to |inbound|
        invariant activeConnections == old(activeConnections)[userId := handle]
        invariant |sent| == i
        invariant forall j :: 0 <= j < i ==> sent[j] == Delivery(handle, EchoText(inbound[j]))
      {
        var response := EchoText(inbound[i]);
        var delivered := SendMessage(userId, response);
        if delivered.Some? {
          sent := sent + [delivered.value];
        }
      }
      Disconnect(userId);
    }
  }
}
