/**
 * The in-memory connection tables the services keep: a `defaultdict(list)`
 * from a film, party or user id to the websockets registered under it.
 */
module Registry {
  import opened Seqs
  import opened Sockets

  type Table<K> = map<K, seq<WebSocket>>

  /** `list.remove` on a list that does not hold the connection. */
  datatype RemoveError = ValueError

  /** What `connections[k]` yields: the stored list, or the empty list a defaultdict creates. */
  function ListFor<K(==,!new)>(t: Table<K>, k: K): seq<WebSocket>
  {
    if k in t then t[k] else []
  }

  /** The table after `connections[k]` was read: the key now exists, and no list changed. */
  function Touched<K(==,!new)>(t: Table<K>, k: K): (t': Table<K>)
    ensures k in t' && t'.Keys == t.Keys + {k}
    ensures forall k' :: ListFor(t', k') == ListFor(t, k')
  {
    t[k := ListFor(t, k)]
  }

  /** The table after `connections[k].append(ws)`. */
  function Appended<K(==,!new)>(t: Table<K>, k: K, ws: WebSocket): (t': Table<K>)
    ensures t'.Keys == t.Keys + {k}
    ensures ListFor(t', k) == ListFor(t, k) + [ws]
    ensures forall k' :: k' != k ==> ListFor(t', k') == ListFor(t, k')
  {
    t[k := ListFor(t, k) + [ws]]
  }

  /** The table after `connections[k].remove(ws)` succeeded. */
  function Removed<K(==,!new)>(t: Table<K>, k: K, ws: WebSocket): (t': Table<K>)
    requires ws in ListFor(t, k)
    ensures t'.Keys == t.Keys + {k}
    ensures multiset(ListFor(t', k)) == multiset(ListFor(t, k)) - multiset{ws}
    ensures forall k' :: k' != k ==> ListFor(t', k') == ListFor(t, k')
  {
    RemoveFirstMultiset(ListFor(t, k), ws);
    t[k := RemoveFirst(ListFor(t, k), ws)]
  }

  /** The table a run of `append` calls builds from an empty one, applied in call order. */
  function Replay<K(==,!new)>(adds: seq<(K, WebSocket)>): Table<K>
  {
    if adds == [] then map[]
    else
      var last := adds[|adds| - 1];
      Appended(Replay(adds[..|adds| - 1]), last.0, last.1)
  }

  /** The websockets a run of `append` calls put under `k`, in call order. */
  function AddedUnder<K(==,!new)>(adds: seq<(K, WebSocket)>, k: K): seq<WebSocket>
  {
    if adds == [] then []
    else (if adds[0].0 == k then [adds[0].1] else []) + AddedUnder(adds[1..], k)
  }

  lemma {:induction false} AddedUnderConcat<K(!new)>(a: seq<(K, WebSocket)>, b: seq<(K, WebSocket)>, k: K)
    ensures AddedUnder(a + b, k) == AddedUnder(a, k) + AddedUnder(b, k)
  {
    if a != [] {
      assert (a + b)[1..] == a[1..] + b;
      AddedUnderConcat(a[1..], b, k);
    } else {
      assert a + b == b;
    }
  }

  /** A lookup returns every websocket added under its key, in the order they were added. */
  lemma {:induction false} ReplayCollects<K(!new)>(adds: seq<(K, WebSocket)>, k: K)
    ensures ListFor(Replay(adds), k) == AddedUnder(adds, k)
  {
    if adds != [] {
      var init := adds[..|adds| - 1];
      var last := adds[|adds| - 1];
      ReplayCollects(init, k);
      assert adds == init + [last];
      AddedUnderConcat(init, [last], k);
      assert [last][1..] == [];
      assert AddedUnder([last], k) == if last.0 == k then [last.1] else [];
    }
  }
}
