/** The earlier queue-manager table: exactly one websocket per websocket id, in a plain dict. */
module BackendQueueRouteTable {
  import opened Wrappers
  import opened Sockets

  /** Reading a key the dict does not hold. */
  datatype LookupError = KeyError

  class WebSocketRouteTable {
    var connections: map<string, WebSocket>

    constructor ()
      ensures connections == map[]
    {
      connections := map[];
    }

    /** `get_websocket_by_ws_id`: the registered websocket, or KeyError for an id never added. */
    function GetWebsocketByWsId(wsId: string): (r: Result<WebSocket, LookupError>)
      reads this
      ensures r.Success? <==> wsId in connections
      ensures r.Success? ==> r.value == connections[wsId]
    {
      if wsId in connections then Success(connections[wsId]) else Failure(KeyError)
    }

    /** `add_pair_in_table`: binds the id to this websocket, replacing any earlier one. */
    method AddPairInTable(wsId: string, websocket: WebSocket)
      modifies this
      ensures GetWebsocketByWsId(wsId) == Success(websocket)
      ensures connections.Keys == old(connections.Keys) + {wsId}
      ensures forall k :: k in old(connections) && k != wsId ==> connections[k] == old(connections[k])
    {
      connections := connections[wsId := websocket];
    }
  }
}
