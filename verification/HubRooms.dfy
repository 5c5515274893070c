/** A hub and its clients as mutable objects (ws-service/internal/hub/hub.go, client.go): what each
operation does when nothing interferes with it. RoomProtocol takes the same operations apart into
atomic steps and lets everything interfere. */
module HubRooms {
  import opened Wrappers
  import opened Envelopes
  import opened RoomMaps

  type NodeId = string
  type DocId = int

  datatype Envelope = Envelope(doc: DocId, sender: int, body: Body)

  /** What a hub publishes: the envelope and the node it comes from. */
  datatype EnvelopeMessage = EnvelopeMessage(origin: NodeId, envelope: Envelope)

  class Client {
    const doc: DocId
    const user: int
    const name: string
    const cap: nat
    var send: seq<Envelope>     // the buffered channel `Send`
    var done: bool              // `Done` is closed
    var unregistered: bool

    constructor (doc: DocId, user: int, name: string, sendBuffer: int)
      ensures this.doc == doc && this.user == user && this.name == name
      ensures cap == (if sendBuffer <= 0 then 64 else sendBuffer) && send == [] && !done && !unregistered
    {
      this.doc, this.user, this.name := doc, user, name;
      cap := if sendBuffer <= 0 then 64 else sendBuffer;
      send, done, unregistered := [], false, false;
    }

    method Close()
      modifies this`done
      ensures done
    {
      if !done {
        done := true;
      }
    }

    method MarkUnregistered() returns (first: bool)
      modifies this`unregistered
      ensures unregistered && first == !old(unregistered)
    {
      first := false;
      if !unregistered {
        first := true;
        unregistered := true;
      }
    }

    /** A send that does not wait: refused when the buffer is full. */
    method TrySend(env: Envelope) returns (sent: bool)
      modifies this`send
      ensures sent == (|old(send)| < cap)
      ensures send == if sent then old(send) + [env] else old(send)
    {
      sent := |send| < cap;
      if sent {
        send := send + [env];
      }
    }

    method SendEnvelope(env: Envelope)
      modifies this`send
      ensures send == if |old(send)| < cap then old(send) + [env] else old(send)
    {
      var sent := TrySend(env);
    }
  }

  class Subscription {
    var closed: bool

    constructor ()
      ensures !closed
    {
      closed := false;
    }

    method Close()
      modifies this
      ensures closed
    {
      if !closed {
        closed := true;
      }
    }
  }

  /** The broker's channels, as the list of what has been published. */
  class Broker {
    var published: seq<EnvelopeMessage>

    constructor ()
      ensures published == []
    {
      published := [];
    }

    method Publish(msg: EnvelopeMessage, works: bool) returns (ok: bool)
      modifies this
      ensures ok == works
      ensures published == if works then old(published) + [msg] else old(published)
    {
      ok := works;
      if works {
        published := published + [msg];
      }
    }
  }

  class Hub {
    const nodeId: NodeId
    const broker: Broker
    var rooms: map<DocId, Room<Client, Subscription>>

    constructor (nodeId: NodeId, broker: Broker)
      ensures this.nodeId == nodeId && this.broker == broker && rooms == map[]
    {
      this.nodeId, this.broker := nodeId, broker;
      rooms := map[];
    }

    ghost function RoomOf(doc: DocId): set<Client>
      reads this
    {
      Members(rooms, doc)
    }

    /** `broadcastLocal`: everyone in the room is given the envelope, except those whose buffer is full;
    they, and only they, are closed. */
    method BroadcastLocal(doc: DocId, env: Envelope)
      modifies RoomOf(doc)`send, RoomOf(doc)`done
      ensures forall c | c in RoomOf(doc) ::
                c.send == (if old(|c.send|) < c.cap then old(c.send) + [env] else old(c.send))
                && c.done == (old(c.done) || old(|c.send|) >= c.cap)
    {
      if doc !in rooms {
        return;
      }
      var clients := rooms[doc].members;
      var slow := {};
      var todo := clients;
      while todo != {}
        invariant todo <= clients
        invariant forall c | c in todo :: c.send == old(c.send)
        invariant forall c | c in clients - todo :: 
                    c.send == if old(|c.send|) < c.cap then old(c.send) + [env] else old(c.send)
        invariant forall c | c in clients :: c.done == old(c.done)
        invariant slow == set c | c in clients - todo && old(|c.send|) >= c.cap
        decreases todo
      {
        var client :| client in todo;
        var sent := client.TrySend(env);
        if !sent {
          slow := slow + {client};
        }
        todo := todo - {client};
      }
      var dropped := slow;
      while slow != {}
        invariant slow <= dropped
        invariant forall c | c in clients :: 
                    c.send == if old(|c.send|) < c.cap then old(c.send) + [env] else old(c.send)
        invariant forall c | c in clients :: c.done == (old(c.done) || c in dropped - slow)
        decreases slow
      {
        var client :| client in slow;
        client.Close();
        slow := slow - {client};
      }
    }

    /** `HandleClientEnvelope`: the envelope is stamped with the client's document and user, broadcast
    here, then published under this node's id. */
    method HandleClientEnvelope(client: Client, body: Body, works: bool) returns (ok: bool)
      modifies RoomOf(client.doc)`send, RoomOf(client.doc)`done, broker
      ensures ok == works && rooms == old(rooms)
      ensures var env := Envelope(client.doc, client.user, body);
              && broker.published == (if works
                    then old(broker.published) + [EnvelopeMessage(nodeId, env)] else old(broker.published))
              && forall c | c in RoomOf(client.doc) ::
                   c.send == (if old(|c.send|) < c.cap then old(c.send) + [env] else old(c.send))
                   && c.done == (old(c.done) || old(|c.send|) >= c.cap)
    {
      var env := Envelope(client.doc, client.user, body);
      BroadcastLocal(client.doc, env);
      ok := broker.Publish(EnvelopeMessage(nodeId, env), works);
    }

    /** `notifyParticipantEvent`: a system event, sent by user 0. */
    method NotifyParticipantEvent(client: Client, body: Body, works: bool) returns (ok: bool)
      modifies RoomOf(client.doc)`send, RoomOf(client.doc)`done, broker
      ensures ok == works && rooms == old(rooms)
      ensures var env := Envelope(client.doc, 0, body);
              && broker.published == (if works
                    then old(broker.published) + [EnvelopeMessage(nodeId, env)] else old(broker.published))
              && forall c | c in RoomOf(client.doc) ::
                   c.send == (if old(|c.send|) < c.cap then old(c.send) + [env] else old(c.send))
                   && c.done == (old(c.done) || old(|c.send|) >= c.cap)
    {
      var env := Envelope(client.doc, 0, body);
      BroadcastLocal(client.doc, env);
      ok := broker.Publish(EnvelopeMessage(nodeId, env), works);
    }

    /** `Register`. `subscribed` is what `Subscribe` would return; without it a new room cannot open. */
    method Register(client: Client, subscribed: Option<Subscription>, works: bool) returns (ok: bool)
      modifies this`rooms, RoomOf(client.doc)`send, RoomOf(client.doc)`done, client`send, client`done, broker
      ensures ok == (client.doc in old(rooms) || subscribed.Some?)
      ensures !ok ==> rooms == old(rooms) && broker.published == old(broker.published)
      ensures !ok ==>
                forall c | c in old(RoomOf(client.doc)) + {client} :: c.send == old(c.send) && c.done == old(c.done)
      ensures ok ==>
                && rooms == AddMember(old(rooms), client.doc, client,
                                      if client.doc in old(rooms) then old(rooms)[client.doc].sub else subscribed.value)
                && broker.published == (if works
                     then old(broker.published)
                          + [EnvelopeMessage(nodeId, Envelope(client.doc, 0, Joined(client.user, client.name)))]
                     else old(broker.published))
                && forall c | c in RoomOf(client.doc) ::
                     c.send == (if old(|c.send|) < c.cap
                                then old(c.send) + [Envelope(client.doc, 0, Joined(client.user, client.name))]
                                else old(c.send))
                     && c.done == (old(c.done) || old(|c.send|) >= c.cap)
    {
      if client.doc !in rooms {
        if subscribed.None? {
          return false;
        }
        rooms := rooms[client.doc := Room({}, subscribed.value)];
      }
      var room := rooms[client.doc];
      rooms := rooms[client.doc := room.(members := room.members + {client})];
      assert rooms == AddMember(old(rooms), client.doc, client,
                                if client.doc in old(rooms) then old(rooms)[client.doc].sub else subscribed.value) by {
        assert {} + {client} == {client};
      }
      var _ := NotifyParticipantEvent(client, Joined(client.user, client.name), works);
      ok := true;
    }

    /** `Unregister`: only the first call does anything. The room loses the client, the others are told,
    the client is closed, and an emptied room's subscription with it. */
    method Unregister(client: Client, works: bool)
      modifies this`rooms, client`unregistered, client`done, broker
      modifies RoomOf(client.doc)`send, RoomOf(client.doc)`done
      modifies if client.doc in rooms then {rooms[client.doc].sub} else {}
      ensures client.unregistered && client.send == old(client.send)
      ensures old(client.unregistered) || client.doc !in old(rooms) ==>
                && rooms == old(rooms) && broker.published == old(broker.published)
                && forall c | c in old(RoomOf(client.doc)) && c != client ::
                     c.send == old(c.send) && c.done == old(c.done)
      ensures old(client.unregistered) ==>
                && client.done == old(client.done)
                && (client.doc in rooms ==> rooms[client.doc].sub.closed == old(rooms[client.doc].sub.closed))
      ensures !old(client.unregistered) ==> client.done && rooms == RemoveMember(old(rooms), client.doc, client)
      ensures !old(client.unregistered) && client.doc in old(rooms) ==>
                && broker.published == (if works
                     then old(broker.published)
                          + [EnvelopeMessage(nodeId, Envelope(client.doc, 0, Left(client.user, client.name)))]
                     else old(broker.published))
                && (old(rooms)[client.doc].sub.closed <==> old(rooms[client.doc].sub.closed) || client.doc !in rooms)
                && forall c | c in RoomOf(client.doc) ::
                     c.send == (if old(|c.send|) < c.cap
                                then old(c.send) + [Envelope(client.doc, 0, Left(client.user, client.name))]
                                else old(c.send))
                     && c.done == (old(c.done) || c == client || old(|c.send|) >= c.cap)
    {
      var first := client.MarkUnregistered();
      if !first {
        return;
      }
      if client.doc !in rooms {
        client.Close();
        return;
      }
      var room := rooms[client.doc];
      var remaining := room.members - {client};
      var empty := remaining == {};
      if empty {
        rooms := rooms - {client.doc};
      } else {
        rooms := rooms[client.doc := room.(members := remaining)];
      }
      var _ := NotifyParticipantEvent(client, Left(client.user, client.name), works);
      client.Close();
      if empty {
        room.sub.Close();
      }
    }

    /** `consumeRoom`, for one delivered message: copies of this node's own messages are dropped. */
    method ConsumeMessage(doc: DocId, msg: EnvelopeMessage)
      modifies RoomOf(doc)`send, RoomOf(doc)`done
      ensures forall c | c in RoomOf(doc) ::
                c.send == (if msg.origin != nodeId && old(|c.send|) < c.cap
                           then old(c.send) + [msg.envelope] else old(c.send))
                && c.done == (old(c.done) || (msg.origin != nodeId && old(|c.send|) >= c.cap))
    {
      if msg.origin == nodeId {
        return;
      }
      BroadcastLocal(doc, msg.envelope);
    }
  }
}
