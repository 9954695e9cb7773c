/**
 * The "parties" document collection of the party-manager, as the services use
 * it: documents in insertion order, `find_one`-style lookups that return the
 * first match, and `update_one` with `$push` on the messages list.
 */
module PartyStore {
  import opened Wrappers

  /** A JSON value as received from or sent to a websocket. */
  datatype Json =
    | JNull
    | JBool(b: bool)
    | JNum(n: real)
    | JStr(s: string)
    | JList(items: seq<Json>)
    | JObject(fields: map<string, Json>)

  /** A JSON object frame, as `receive_json`/`send_json` carry it. */
  type Message = map<string, Json>

  datatype PartyDocument = PartyDocument(partyId: string, filmId: string, usersIds: seq<string>, messages: seq<Message>)

  /** The two filters the services pass to `find_element_by_properties`. */
  datatype Query =
    | ByPartyId(partyId: string)   // {"party_id": party_id}
    | ByUser(userId: string)       // {"users_ids": {"$in": [user_id]}}

  predicate Matches(d: PartyDocument, q: Query) {
    match q
    case ByPartyId(p) => d.partyId == p
    case ByUser(u) => u in d.usersIds
  }

  /** The position of the first document the filter matches, if any. */
  function FindFirst(docs: seq<PartyDocument>, q: Query): (r: Option<nat>)
    ensures r.Some? ==> r.value < |docs| && Matches(docs[r.value], q)
    ensures r.Some? ==> forall j :: 0 <= j < r.value ==> !Matches(docs[j], q)
    ensures r.None? <==> forall j :: 0 <= j < |docs| ==> !Matches(docs[j], q)
  {
    if docs == [] then None
    else if Matches(docs[0], q) then Some(0)
    else
      match FindFirst(docs[1..], q)
      case None => None
      case Some(i) => Some(i + 1)
  }

  /** `find_element_by_properties`: the first matching document, or None. */
  function Find(docs: seq<PartyDocument>, q: Query): (r: Option<PartyDocument>)
    ensures r.Some? ==> r.value in docs && Matches(r.value, q)
    ensures r.None? <==> forall d :: d in docs ==> !Matches(d, q)
  {
    match FindFirst(docs, q)
    case None => None
    case Some(i) => Some(docs[i])
  }

  /**
   * `update_element({"party_id": p}, {"$push": {"messages": m}})`: appends the
   * message to the first document with that party id; no match changes nothing.
   */
  function Pushed(docs: seq<PartyDocument>, partyId: string, m: Message): (r: seq<PartyDocument>)
    ensures |r| == |docs|
    ensures FindFirst(docs, ByPartyId(partyId)).None? ==> r == docs
    ensures FindFirst(docs, ByPartyId(partyId)).Some? ==>
              var i := FindFirst(docs, ByPartyId(partyId)).value;
              r == docs[i := docs[i].(messages := docs[i].messages + [m])]
  {
    if docs == [] then []
    else if docs[0].partyId == partyId then [docs[0].(messages := docs[0].messages + [m])] + docs[1..]
    else [docs[0]] + Pushed(docs[1..], partyId, m)
  }

  /** Two lists that agree, position by position, on a filter have the same first match. */
  lemma {:induction false} FindFirstSameMatches(a: seq<PartyDocument>, b: seq<PartyDocument>, q: Query)
    requires |a| == |b|
    requires forall j :: 0 <= j < |a| ==> (Matches(a[j], q) <==> Matches(b[j], q))
    ensures FindFirst(a, q) == FindFirst(b, q)
  {
    if a != [] && !Matches(a[0], q) {
      FindFirstSameMatches(a[1..], b[1..], q);
    }
  }

  /** Pushing a chat message never changes which document any filter finds first. */
  lemma {:induction false} PushedKeepsMatches(docs: seq<PartyDocument>, partyId: string, m: Message, q: Query)
    ensures FindFirst(Pushed(docs, partyId, m), q) == FindFirst(docs, q)
  {
    var r := Pushed(docs, partyId, m);
    forall j | 0 <= j < |docs|
      ensures Matches(r[j], q) <==> Matches(docs[j], q)
    {
      assert r[j].partyId == docs[j].partyId && r[j].usersIds == docs[j].usersIds;
    }
    FindFirstSameMatches(r, docs, q);
  }

  /** After a push the party's document holds its old history followed by the message. */
  lemma PushedThenFound(docs: seq<PartyDocument>, partyId: string, m: Message)
    ensures Find(Pushed(docs, partyId, m), ByPartyId(partyId)) ==
              match Find(docs, ByPartyId(partyId))
              case None => None
              case Some(d) => Some(d.(messages := d.messages + [m]))
  {
    PushedKeepsMatches(docs, partyId, m, ByPartyId(partyId));
  }

  /** The collection as one mutable list of documents. */
  class PartyCollection {
    var documents: seq<PartyDocument>

    constructor ()
      ensures documents == []
    {
      documents := [];
    }

    /** `insert_element(doc, "parties")`. */
    method InsertElement(doc: PartyDocument)
      modifies this
      ensures documents == old(documents) + [doc]
    {
      documents := documents + [doc];
    }

    /** `update_element` with a `$push` of one message onto the party's `messages`. */
    method PushMessage(partyId: string, m: Message)
      modifies this
      ensures documents == Pushed(old(documents), partyId, m)
    {
      documents := Pushed(documents, partyId, m);
    }
  }
}
