/**
 * The party-manager's websocket services: the stream channel keeps the party's
 * playback position in sync, the chat channel relays and stores messages.
 * Each inbound frame is one call to `Receive`; the session loop around it is
 * the caller's.
 */
module PartySync {
  import opened Wrappers
  import opened Uuids
  import opened Sockets
  import opened Registry
  import opened PartyStore
  import PartyRouter

  /** The exceptions a session can end with besides a disconnect. */
  datatype SessionError =
    | KeyError    // a frame without "type" or "time"
    | TypeError   // chat for a party id with no stored party: `None["messages"]`

  const TimeUpdate: Json := JStr("timeupdate")
  const JoinedText: string := "joined to the party!"
  const LeftText: string := "left the party!"

  /** `{"type": "timeupdate", "time": t}`, sent to a socket that joins a party with a cached position. */
  function TimeUpdateFrame(time: Json): Message {
    map["type" := TimeUpdate, "time" := time]
  }

  /** `{"type": k, "time": t}`: the relayed form of a stream frame, any other keys dropped. */
  function StreamFrame(kind: Json, time: Json): Message {
    map["type" := kind, "time" := time]
  }

  /** `{"type": "chat", "text": text}`: a notice the chat service sends and stores. */
  function Notice(text: string): Message {
    map["type" := JStr("chat"), "text" := JStr(text)]
  }

  /**
   * A socket joining the chat first receives the stored history in order, then
   * the join notice once per time it is registered, after earlier registrations.
   */
  lemma JoinerSeesHistoryThenNotice(ws: WebSocket, history: seq<Message>, others: seq<WebSocket>)
    ensures Outbox(SendTo(ws, history) + SendEach(others + [ws], Notice(JoinedText)), ws)
            == history + Copies(Notice(JoinedText), multiset(others)[ws] + 1)
  {
    OutboxConcat(SendTo(ws, history), SendEach(others + [ws], Notice(JoinedText)), ws);
    OutboxSendTo(ws, history, ws);
    OutboxSendEach(others + [ws], Notice(JoinedText), ws);
    assert multiset(others + [ws])[ws] == multiset(others)[ws] + 1;
  }

  /** A party member already in the chat gets no history, only the notice, once per registration. */
  lemma MemberSeesOnlyNotice(ws: WebSocket, history: seq<Message>, others: seq<WebSocket>, member: WebSocket)
    requires member != ws
    ensures Outbox(SendTo(ws, history) + SendEach(others + [ws], Notice(JoinedText)), member)
            == Copies(Notice(JoinedText), multiset(others)[member])
  {
    OutboxConcat(SendTo(ws, history), SendEach(others + [ws], Notice(JoinedText)), member);
    OutboxSendTo(ws, history, member);
    OutboxSendEach(others + [ws], Notice(JoinedText), member);
    assert multiset(others + [ws])[member] == multiset(others)[member];
  }

  /** `WebSocketStreamConnectionService`. */
  class StreamService {
    const router: PartyRouter.WebSocketRouter
    /** The cache: for each party, the "time" of the last stream frame. */
    var cache: map<Uuid, Json>
    /** Every frame sent, in sending order. */
    var sent: seq<Delivery<Message>>

    constructor (router: PartyRouter.WebSocketRouter)
      ensures this.router == router && cache == map[] && sent == []
    {
      this.router := router;
      cache := map[];
      sent := [];
    }

    /**
     * `connect`, up to its receive loop: registers the socket, then sends it the
     * cached position if the party has one, and nothing otherwise.
     */
    method Connect(partyId: Uuid, websocket: WebSocket)
      modifies this, router
      ensures router.connections == Appended(old(router.connections), partyId, websocket)
      ensures cache == old(cache)
      ensures partyId in old(cache) ==> sent == old(sent) + [Delivery(websocket, TimeUpdateFrame(old(cache)[partyId]))]
      ensures partyId !in old(cache) ==> sent == old(sent)
    {
      router.AddConnection(partyId, websocket);
      if partyId in cache {
        sent := sent + [Delivery(websocket, TimeUpdateFrame(cache[partyId]))];
      }
    }

    /**
     * One pass of the receive loop: `handle_message`, then the cache takes the
     * frame's time, whatever its type. A missing key raises KeyError, which ends
     * the session and leaves the socket registered.
     */
    method Receive(partyId: Uuid, message: Message) returns (r: Outcome<SessionError>)
      modifies this, router
      ensures r.Pass? <==> "type" in message && "time" in message
      ensures r.Fail? ==> r.error == KeyError && cache == old(cache)
      ensures r.Pass? ==> cache == old(cache)[partyId := message["time"]]
      ensures "type" in message && message["type"] != TimeUpdate ==>
                router.connections == Touched(old(router.connections), partyId)
      ensures !("type" in message && message["type"] != TimeUpdate) ==>
                router.connections == old(router.connections)
      ensures r.Pass? && message["type"] != TimeUpdate ==>
                sent == old(sent) + SendEach(ListFor(old(router.connections), partyId), StreamFrame(message["type"], message["time"]))
      ensures !(r.Pass? && message["type"] != TimeUpdate) ==> sent == old(sent)
    {
      r := HandleMessage(partyId, message);
      if r.Fail? {
        return;
      }
      if "time" !in message {
        return Fail(KeyError);
      }
      cache := cache[partyId := message["time"]];
    }

    /**
     * `handle_message`: a "timeupdate" frame is not relayed; any other type goes
     * as `{"type", "time"}` to every socket of the party, the sender included.
     */
    method HandleMessage(partyId: Uuid, message: Message) returns (r: Outcome<SessionError>)
      modifies this, router
      ensures cache == old(cache)
      ensures r.Pass? <==> "type" in message && (message["type"] == TimeUpdate || "time" in message)
      ensures r.Fail? ==> r.error == KeyError
      ensures "type" in message && message["type"] != TimeUpdate ==>
                router.connections == Touched(old(router.connections), partyId)
      ensures !("type" in message && message["type"] != TimeUpdate) ==>
                router.connections == old(router.connections)
      ensures r.Pass? && message["type"] != TimeUpdate ==>
                sent == old(sent) + SendEach(ListFor(old(router.connections), partyId), StreamFrame(message["type"], message["time"]))
      ensures !(r.Pass? && message["type"] != TimeUpdate) ==> sent == old(sent)
    {
      if "type" !in message {
        return Fail(KeyError);
      }
      if message["type"] == TimeUpdate {
        return Pass;
      }
      var conns := router.GetWebsocketByPartyId(partyId);
      if "time" !in message {
        return Fail(KeyError);
      }
      SendToAll(conns, StreamFrame(message["type"], message["time"]));
      r := Pass;
    }

    /** `send_to_all`: the frame to each listed socket, in list order. */
    method SendToAll(conns: seq<WebSocket>, message: Message)
      modifies this
      ensures cache == old(cache)
      ensures sent == old(sent) + SendEach(conns, message)
    {
      var i := 0;
      while i < |conns|
        invariant 0 <= i <= |conns|
        invariant cache == old(cache)
        invariant sent == old(sent) + SendEach(conns[..i], message)
      {
        assert conns[..i + 1] == conns[..i] + [conns[i]];
        SendEachConcat(conns[..i], [conns[i]], message);
        sent := sent + [Delivery(conns[i], message)];
        i := i + 1;
      }
      assert conns[..i] == conns;
    }

    /** On WebSocketDisconnect: the socket leaves the party's list. */
    method Disconnect(partyId: Uuid, websocket: WebSocket) returns (r: Outcome<RemoveError>)
      modifies router
      ensures r.Pass? <==> websocket in ListFor(old(router.connections), partyId)
      ensures r.Pass? ==> router.connections == Removed(old(router.connections), partyId, websocket)
      ensures r.Fail? ==> router.connections == Touched(old(router.connections), partyId)
    {
      r := router.RemoveConnection(partyId, websocket);
    }
  }

  /** `WebSocketChatConnectionService`. */
  class ChatService {
    const router: PartyRouter.WebSocketRouter
    const storage: PartyCollection
    /** Every frame sent, in sending order. */
    var sent: seq<Delivery<Message>>

    constructor (router: PartyRouter.WebSocketRouter, storage: PartyCollection)
      ensures this.router == router && this.storage == storage && sent == []
    {
      this.router := router;
      this.storage := storage;
      sent := [];
    }

    /**
     * `connect`, up to its receive loop: registers the socket, replays the
     * party's stored messages to it in order, then sends the join notice to
     * every socket of the party and stores it. An unknown party raises
     * TypeError after the registration, with nothing sent or stored.
     */
    method Connect(partyId: Uuid, websocket: WebSocket) returns (r: Outcome<SessionError>)
      modifies this, router, storage
      ensures router.connections == Appended(old(router.connections), partyId, websocket)
      ensures r.Fail? <==> Find(old(storage.documents), ByPartyId(partyId)).None?
      ensures r.Fail? ==> r.error == TypeError && sent == old(sent) && storage.documents == old(storage.documents)
      ensures r.Pass? ==>
                sent == old(sent)
                        + SendTo(websocket, Find(old(storage.documents), ByPartyId(partyId)).value.messages)
                        + SendEach(ListFor(old(router.connections), partyId) + [websocket], Notice(JoinedText))
      ensures r.Pass? ==> storage.documents == Pushed(old(storage.documents), partyId, Notice(JoinedText))
    {
      router.AddConnection(partyId, websocket);
      var party := Find(storage.documents, ByPartyId(partyId));
      if party.None? {
        return Fail(TypeError);
      }
      ReplayTo(websocket, party.value.messages);
      var conns := router.GetWebsocketByPartyId(partyId);
      SendAll(Notice(JoinedText), conns);
      storage.PushMessage(partyId, Notice(JoinedText));
      r := Pass;
    }

    /** One pass of the receive loop: the frame goes verbatim to every socket of the party, the sender included, and is stored. */
    method Receive(partyId: Uuid, message: Message)
      modifies this, router, storage
      ensures router.connections == Touched(old(router.connections), partyId)
      ensures sent == old(sent) + SendEach(ListFor(old(router.connections), partyId), message)
      ensures storage.documents == Pushed(old(storage.documents), partyId, message)
    {
      var conns := router.GetWebsocketByPartyId(partyId);
      SendAll(message, conns);
      storage.PushMessage(partyId, message);
    }

    /**
     * On WebSocketDisconnect: the socket leaves the list, then the leave notice
     * goes to the sockets that remain and is stored. A socket that was not
     * listed raises ValueError before anything is sent or stored.
     */
    method Disconnect(partyId: Uuid, websocket: WebSocket) returns (r: Outcome<RemoveError>)
      modifies this, router, storage
      ensures r.Pass? <==> websocket in ListFor(old(router.connections), partyId)
      ensures r.Pass? ==> router.connections == Removed(old(router.connections), partyId, websocket)
      ensures r.Pass? ==> sent == old(sent) + SendEach(ListFor(router.connections, partyId), Notice(LeftText))
      ensures r.Pass? ==> storage.documents == Pushed(old(storage.documents), partyId, Notice(LeftText))
      ensures r.Fail? ==> router.connections == Touched(old(router.connections), partyId)
      ensures r.Fail? ==> sent == old(sent) && storage.documents == old(storage.documents)
    {
      r := router.RemoveConnection(partyId, websocket);
      if r.Fail? {
        return;
      }
      ghost var remaining := router.connections;
      assert partyId in remaining;
      var conns := router.GetWebsocketByPartyId(partyId);
      assert router.connections == remaining;
      SendAll(Notice(LeftText), conns);
      storage.PushMessage(partyId, Notice(LeftText));
    }

    /** The history replay of `connect`: each stored message to the new socket, in stored order. */
    method ReplayTo(websocket: WebSocket, messages: seq<Message>)
      modifies this
      ensures sent == old(sent) + SendTo(websocket, messages)
    {
      var i := 0;
      while i < |messages|
        invariant 0 <= i <= |messages|
        invariant sent == old(sent) + SendTo(websocket, messages[..i])
      {
        assert messages[..i + 1][..i] == messages[..i];
        sent := sent + [Delivery(websocket, messages[i])];
        i := i + 1;
      }
      assert messages[..i] == messages;
    }

    /** `send_all`: the frame to each listed socket, in list order. */
    method SendAll(message: Message, conns: seq<WebSocket>)
      modifies this
      ensures sent == old(sent) + SendEach(conns, message)
    {
      var i := 0;
      while i < |conns|
        invariant 0 <= i <= |conns|
        invariant sent == old(sent) + SendEach(conns[..i], message)
      {
        assert conns[..i + 1] == conns[..i] + [conns[i]];
        SendEachConcat(conns[..i], [conns[i]], message);
        sent := sent + [Delivery(conns[i], message)];
        i := i + 1;
      }
      assert conns[..i] == conns;
    }
  }
}
