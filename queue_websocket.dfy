/**
 * The queue-manager's websocket service: registers waiting-room sockets under
 * their film id and broadcasts text to every socket of a film.
 */
module QueueWebSocket {
  import opened Wrappers
  import opened Sockets
  import opened Registry
  import QueueRouteTable

  /** The listed connections whose send goes through, in list order. */
  function Reached(conns: seq<WebSocket>, failing: set<WebSocket>): seq<WebSocket>
  {
    if conns == [] then []
    else
      var last := conns[|conns| - 1];
      Reached(conns[..|conns| - 1], failing) + (if last in failing then [] else [last])
  }

  /** The listed connections whose send raised AttributeError, in list order. */
  function Failed(conns: seq<WebSocket>, failing: set<WebSocket>): seq<WebSocket>
  {
    if conns == [] then []
    else
      var last := conns[|conns| - 1];
      Failed(conns[..|conns| - 1], failing) + (if last in failing then [last] else [])
  }

  /** Extending the list by one connection extends the reached and failed parts by at most that one. */
  lemma FilterStep(conns: seq<WebSocket>, i: nat, failing: set<WebSocket>)
    requires i < |conns|
    ensures Reached(conns[..i + 1], failing) == Reached(conns[..i], failing) + (if conns[i] in failing then [] else [conns[i]])
    ensures Failed(conns[..i + 1], failing) == Failed(conns[..i], failing) + (if conns[i] in failing then [conns[i]] else [])
  {
    assert conns[..i + 1][..i] == conns[..i];
  }

  /** A connection is reached once per time it is listed, unless its sends fail, in which case never. */
  lemma {:induction false} ReachedCount(conns: seq<WebSocket>, failing: set<WebSocket>, ws: WebSocket)
    ensures multiset(Reached(conns, failing))[ws] == if ws in failing then 0 else multiset(conns)[ws]
  {
    if conns != [] {
      var init := conns[..|conns| - 1];
      ReachedCount(init, failing, ws);
      assert conns == init + [conns[|conns| - 1]];
    }
  }

  /**
   * After a broadcast every healthy registered connection has the message once per
   * registration, a failing one gets nothing, and nothing earlier is lost.
   */
  lemma BroadcastOutbox(log: seq<Delivery<string>>, conns: seq<WebSocket>, failing: set<WebSocket>, m: string, ws: WebSocket)
    ensures Outbox(log + SendEach(Reached(conns, failing), m), ws)
            == Outbox(log, ws) + Copies(m, if ws in failing then 0 else multiset(conns)[ws])
  {
    OutboxConcat(log, SendEach(Reached(conns, failing), m), ws);
    OutboxSendEach(Reached(conns, failing), m, ws);
    ReachedCount(conns, failing, ws);
  }

  class WebSocketService {
    const routeTable: QueueRouteTable.WebSocketRouteTable
    /** Every text frame sent, in sending order. */
    var sent: seq<Delivery<string>>
    /** The connections whose send raised AttributeError, as logged. */
    var errorLog: seq<WebSocket>

    constructor (routeTable: QueueRouteTable.WebSocketRouteTable)
      ensures this.routeTable == routeTable && sent == [] && errorLog == []
    {
      this.routeTable := routeTable;
      sent := [];
      errorLog := [];
    }

    /** `connect`: after the handshake, registers the websocket under the film. */
    method Connect(filmId: string, websocket: WebSocket)
      modifies routeTable
      ensures routeTable.connections == Appended(old(routeTable.connections), filmId, websocket)
    {
      routeTable.AddConnection(filmId, websocket);
    }

    /** `disconnect`: removes the websocket from the film's list, raising ValueError if it is not there. */
    method Disconnect(filmId: string, websocket: WebSocket) returns (r: Outcome<RemoveError>)
      modifies routeTable
      ensures r.Pass? <==> websocket in ListFor(old(routeTable.connections), filmId)
      ensures r.Pass? ==> routeTable.connections == Removed(old(routeTable.connections), filmId, websocket)
      ensures r.Fail? ==> routeTable.connections == Touched(old(routeTable.connections), filmId)
    {
      r := routeTable.RemoveConnection(filmId, websocket);
    }

    /**
     * `broadcast`: sends the text to each connection registered for the film, in
     * registration order; a send that raises AttributeError is logged and the
     * loop goes on. The lists of the table stay as they were.
     */
    method Broadcast(filmId: string, message: string, failing: set<WebSocket>)
      modifies this, routeTable
      ensures routeTable.connections == Touched(old(routeTable.connections), filmId)
      ensures sent == old(sent) + SendEach(Reached(ListFor(old(routeTable.connections), filmId), failing), message)
      ensures errorLog == old(errorLog) + Failed(ListFor(old(routeTable.connections), filmId), failing)
    {
      var conns := routeTable.GetWebsocketByFilmId(filmId);
      SendAll(conns, message, failing);
    }

    /** The loop of `broadcast` over one list of connections. */
    method SendAll(conns: seq<WebSocket>, message: string, failing: set<WebSocket>)
      modifies this
      ensures sent == old(sent) + SendEach(Reached(conns, failing), message)
      ensures errorLog == old(errorLog) + Failed(conns, failing)
    {
      var i := 0;
      ghost var reached: seq<WebSocket> := [];
      while i < |conns|
        invariant 0 <= i <= |conns|
        invariant reached == Reached(conns[..i], failing)
        invariant sent == old(sent) + SendEach(reached, message)
        invariant errorLog == old(errorLog) + Failed(conns[..i], failing)
      {
        var c := conns[i];
        FilterStep(conns, i, failing);
        if c in failing {
          assert Reached(conns[..i + 1], failing) == reached;
          errorLog := errorLog + [c];
        } else {
          assert Failed(conns[..i + 1], failing) == Failed(conns[..i], failing);
          SendEachConcat(reached, [c], message);
          assert SendEach([c], message) == [Delivery(c, message)];
          sent := sent + [Delivery(c, message)];
          reached := reached + [c];
        }
        i := i + 1;
      }
      assert conns[..i] == conns;
    }
  }
}
