/** The earlier party-manager router: websockets listed per user id, append-only. */
module BackendPartyRouter {
  import opened Uuids
  import opened Sockets
  import opened Registry

  class WebSocketRouter {
    var connections: Table<Uuid>

    constructor ()
      ensures connections == map[]
    {
      connections := map[];
    }

    /** `get_websocket_by_user_id`: the id's list; an unseen id gets, and keeps, an empty entry. */
    method GetWebsocketByUserId(id: Uuid) returns (conns: seq<WebSocket>)
      modifies this
      ensures conns == ListFor(old(connections), id)
      ensures id !in old(connections) ==> conns == []
      ensures connections == Touched(old(connections), id)
    {
      if id !in connections {
        connections := connections[id := []];
      }
      conns := connections[id];
    }

    /** `add_pair_in_table`: appends at the end of the id's list. */
    method AddPairInTable(id: Uuid, websocket: WebSocket)
      modifies this
      ensures connections == Appended(old(connections), id, websocket)
    {
      var conns := ListFor(connections, id);
      connections := connections[id := conns + [websocket]];
    }
  }
}
