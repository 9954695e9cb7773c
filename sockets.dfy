/**
 * Websocket connections as the services see them: opaque handles compared by
 * identity, and a log of every frame sent, in the order the sends happened.
 */
module Sockets {

  /** A live websocket; `handle` stands for the object's identity. */
  datatype WebSocket = WebSocket(handle: nat)

  /** One frame sent to one connection. */
  datatype Delivery<M> = Delivery(to: WebSocket, message: M)

  /** `for c in conns: await c.send(m)`: one frame per listed connection, in list order. */
  function SendEach<M>(conns: seq<WebSocket>, m: M): (d: seq<Delivery<M>>)
    ensures |d| == |conns|
    ensures forall i :: 0 <= i < |d| ==> d[i] == Delivery(conns[i], m)
  {
    if conns == [] then [] else [Delivery(conns[0], m)] + SendEach(conns[1..], m)
  }

  /** Sending to a list is sending to its first part and then to the rest. */
  lemma {:induction false} SendEachConcat<M>(a: seq<WebSocket>, b: seq<WebSocket>, m: M)
    ensures SendEach(a + b, m) == SendEach(a, m) + SendEach(b, m)
  {
    var whole, parts := SendEach(a + b, m), SendEach(a, m) + SendEach(b, m);
    forall i | 0 <= i < |whole|
      ensures whole[i] == parts[i]
    {
      if i < |a| {
        assert (a + b)[i] == a[i];
      } else {
        assert (a + b)[i] == b[i - |a|];
      }
    }
  }

  /** The frames one connection received, in the order they were sent. */
  function Outbox<M>(log: seq<Delivery<M>>, ws: WebSocket): seq<M>
  {
    if log == [] then []
    else
      var last := log[|log| - 1];
      Outbox(log[..|log| - 1], ws) + (if last.to == ws then [last.message] else [])
  }

  /** `n` copies of `m`. */
  function Copies<M>(m: M, n: nat): (r: seq<M>)
    ensures |r| == n && forall i :: 0 <= i < n ==> r[i] == m
  {
    seq(n, _ => m)
  }

  /** Every connection's outbox of a two-part log is its outbox of the first part, then of the second. */
  lemma {:induction false} OutboxConcat<M>(a: seq<Delivery<M>>, b: seq<Delivery<M>>, ws: WebSocket)
    ensures Outbox(a + b, ws) == Outbox(a, ws) + Outbox(b, ws)
  {
    if b != [] {
      var b' := b[..|b| - 1];
      assert (a + b)[..|a + b| - 1] == a + b';
      OutboxConcat(a, b', ws);
    } else {
      assert a + b == a;
    }
  }

  /**
   * Sending `m` to a list gives each connection `m` once per time it is listed
   * (duplicates included) and gives an unlisted connection nothing.
   */
  lemma {:induction false} OutboxSendEach<M>(conns: seq<WebSocket>, m: M, ws: WebSocket)
    ensures Outbox(SendEach(conns, m), ws) == Copies(m, multiset(conns)[ws])
  {
    if conns != [] {
      var head := [Delivery(conns[0], m)];
      assert SendEach(conns, m) == head + SendEach(conns[1..], m);
      OutboxConcat(head, SendEach(conns[1..], m), ws);
      assert head[..0] == [];
      OutboxSendEach(conns[1..], m, ws);
      assert conns == [conns[0]] + conns[1..];
      assert multiset(conns) == multiset{conns[0]} + multiset(conns[1..]);
    }
  }

  /** `for m in msgs: await ws.send(m)`: the frames to one connection, in order. */
  function SendTo<M>(ws: WebSocket, msgs: seq<M>): (d: seq<Delivery<M>>)
    ensures |d| == |msgs|
    ensures forall i :: 0 <= i < |d| ==> d[i] == Delivery(ws, msgs[i])
  {
    if msgs == [] then [] else SendTo(ws, msgs[..|msgs| - 1]) + [Delivery(ws, msgs[|msgs| - 1])]
  }

  /** Replaying a list to one connection gives it exactly that list and gives every other connection nothing. */
  lemma {:induction false} OutboxSendTo<M>(ws: WebSocket, msgs: seq<M>, other: WebSocket)
    ensures Outbox(SendTo(ws, msgs), other) == if other == ws then msgs else []
  {
    if msgs != [] {
      var init := msgs[..|msgs| - 1];
      var last := Delivery(ws, msgs[|msgs| - 1]);
      assert SendTo(ws, msgs) == SendTo(ws, init) + [last];
      assert (SendTo(ws, init) + [last])[..|msgs| - 1] == SendTo(ws, init);
      OutboxSendTo(ws, init, other);
      assert msgs == init + [msgs[|msgs| - 1]];
    }
  }
}
