/**
 * The party-manager's websocket routers: one list of websockets per party id,
 * and two process-wide instances, one for the stream channel and one for chat.
 */
module PartyRouter {
  import opened Wrappers
  import opened Seqs
  import opened Uuids
  import opened Sockets
  import opened Registry

  class WebSocketRouter {
    var connections: Table<Uuid>

    constructor ()
      ensures connections == map[]
    {
      connections := map[];
    }

    /** `get_websocket_by_party_id`: the party's list; an unknown party gets, and keeps, an empty entry. */
    method GetWebsocketByPartyId(partyId: Uuid) returns (conns: seq<WebSocket>)
      modifies this
      ensures conns == ListFor(old(connections), partyId)
      ensures partyId !in old(connections) ==> conns == []
      ensures connections == Touched(old(connections), partyId)
    {
      if partyId !in connections {
        connections := connections[partyId := []];
      }
      conns := connections[partyId];
    }

    /** `add_connection`: appends at the end of the party's list. */
    method AddConnection(partyId: Uuid, websocket: WebSocket)
      modifies this
      ensures connections == Appended(old(connections), partyId, websocket)
    {
      var conns := ListFor(connections, partyId);
      connections := connections[partyId := conns + [websocket]];
    }

    /** `remove_connection`: drops the first occurrence, or raises ValueError with the party's entry created. */
    method RemoveConnection(partyId: Uuid, websocket: WebSocket) returns (r: Outcome<RemoveError>)
      modifies this
      ensures r.Pass? <==> websocket in ListFor(old(connections), partyId)
      ensures r.Pass? ==> connections == Removed(old(connections), partyId, websocket)
      ensures r.Fail? ==> r.error == ValueError && connections == Touched(old(connections), partyId)
    {
      var conns := ListFor(connections, partyId);
      if websocket !in conns {
        connections := connections[partyId := conns];
        return Fail(ValueError);
      }
      connections := connections[partyId := RemoveFirst(conns, websocket)];
      r := Pass;
    }
  }

  /**
   * The two `lru_cache(maxsize=1)` factories: each builds its router on the
   * first call and hands out that same instance afterwards.
   */
  class RouterFactories {
    var stream: WebSocketRouter?
    var chat: WebSocketRouter?

    /** The two singletons, once both exist, are different objects. */
    ghost predicate Valid()
      reads this
    {
      stream != null && chat != null ==> stream != chat
    }

    constructor ()
      ensures Valid() && stream == null && chat == null
    {
      stream := null;
      chat := null;
    }

    /** `get_stream_websocket_router`. */
    method GetStreamWebsocketRouter() returns (router: WebSocketRouter)
      requires Valid()
      modifies this
      ensures Valid()
      ensures old(stream) != null ==> router == old(stream)
      ensures old(stream) == null ==> fresh(router) && router.connections == map[]
      ensures stream == router && chat == old(chat)
      ensures chat != null ==> router != chat
    {
      if stream == null {
        stream := new WebSocketRouter();
      }
      router := stream;
    }

    /** `get_chat_websocket_router`. */
    method GetChatWebsocketRouter() returns (router: WebSocketRouter)
      requires Valid()
      modifies this
      ensures Valid()
      ensures old(chat) != null ==> router == old(chat)
      ensures old(chat) == null ==> fresh(router) && router.connections == map[]
      ensures chat == router && stream == old(stream)
      ensures stream != null ==> router != stream
    {
      if chat == null {
        chat := new WebSocketRouter();
      }
      router := chat;
    }
  }
}
