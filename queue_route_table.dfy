/** The queue-manager's table of waiting-room websockets, one list per film id. */
module QueueRouteTable {
  import opened Wrappers
  import opened Seqs
  import opened Sockets
  import opened Registry

  class WebSocketRouteTable {
    var connections: Table<string>

    constructor ()
      ensures connections == map[]
    {
      connections := map[];
    }

    /** `get_websocket_by_film_id`: the film's list; an unknown film gets, and keeps, an empty entry. */
    method GetWebsocketByFilmId(filmId: string) returns (conns: seq<WebSocket>)
      modifies this
      ensures conns == ListFor(old(connections), filmId)
      ensures filmId !in old(connections) ==> conns == []
      ensures connections == Touched(old(connections), filmId)
    {
      if filmId !in connections {
        connections := connections[filmId := []];
      }
      conns := connections[filmId];
    }

    /** `add_connection`: appends at the end of the film's list; a websocket may be listed twice. */
    method AddConnection(filmId: string, websocket: WebSocket)
      modifies this
      ensures connections == Appended(old(connections), filmId, websocket)
    {
      var conns := ListFor(connections, filmId);
      connections := connections[filmId := conns + [websocket]];
    }

    /**
     * `remove_connection`: drops the first occurrence; a websocket not listed for
     * the film raises ValueError, after the lookup has created the film's entry.
     */
    method RemoveConnection(filmId: string, websocket: WebSocket) returns (r: Outcome<RemoveError>)
      modifies this
      ensures r.Pass? <==> websocket in ListFor(old(connections), filmId)
      ensures r.Pass? ==> connections == Removed(old(connections), filmId, websocket)
      ensures r.Fail? ==> r.error == ValueError && connections == Touched(old(connections), filmId)
    {
      var conns := ListFor(connections, filmId);
      if websocket !in conns {
        connections := connections[filmId := conns];
        return Fail(ValueError);
      }
      connections := connections[filmId := RemoveFirst(conns, websocket)];
      r := Pass;
    }
  }
}
