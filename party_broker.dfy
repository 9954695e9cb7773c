/**
 * The party-manager's broker consumer: turns a party-creation message from the
 * queue-manager into a party document, and looks parties up.
 */
module PartyBroker {
  import opened Wrappers
  import opened Uuids
  import opened PartyStore

  /** The consumed message: a film and the users who waited for it. */
  datatype PartyCreationMessage = PartyCreationMessage(filmId: Uuid, usersIds: seq<Uuid>)

  /** The document `create_party` stores for a fresh party id. */
  function NewPartyDocument(partyId: Uuid, msg: PartyCreationMessage): PartyDocument
  {
    PartyDocument(partyId, msg.filmId, msg.usersIds, [])
  }

  /**
   * A freshly stored party is the one its id finds, and every one of its users
   * is found in some party that lists them.
   */
  lemma CreatedPartyFindable(docs: seq<PartyDocument>, partyId: Uuid, msg: PartyCreationMessage)
    requires forall d :: d in docs ==> d.partyId != partyId
    ensures Find(docs + [NewPartyDocument(partyId, msg)], ByPartyId(partyId)) == Some(NewPartyDocument(partyId, msg))
    ensures forall u :: u in msg.usersIds ==>
              Find(docs + [NewPartyDocument(partyId, msg)], ByUser(u)).Some? &&
              u in Find(docs + [NewPartyDocument(partyId, msg)], ByUser(u)).value.usersIds
  {
    var all := docs + [NewPartyDocument(partyId, msg)];
    assert all[|docs|] == NewPartyDocument(partyId, msg);
    assert forall u :: u in msg.usersIds ==> Matches(all[|docs|], ByUser(u));
  }

  /** A user already in an older party is found there: the lookup returns the oldest party listing the user. */
  lemma OldestPartyWins(docs: seq<PartyDocument>, d: PartyDocument, userId: string)
    requires Find(docs, ByUser(userId)).Some?
    ensures Find(docs + [d], ByUser(userId)) == Find(docs, ByUser(userId))
  {
    var i := FindFirst(docs, ByUser(userId)).value;
    var all := docs + [d];
    assert all[i] == docs[i];
    assert forall j :: 0 <= j < i ==> all[j] == docs[j];
  }

  class PartyManagerService {
    const storage: PartyCollection

    constructor (storage: PartyCollection)
      ensures this.storage == storage
    {
      this.storage := storage;
    }

    /**
     * `create_party`: stores one document with the fresh id, the film, the users
     * in message order and no messages, and returns that id. The id `uuid4()`
     * draws is the parameter `freshId`.
     */
    method CreateParty(msg: PartyCreationMessage, freshId: Uuid) returns (partyId: Uuid)
      modifies storage
      ensures partyId == freshId
      ensures storage.documents == old(storage.documents) + [PartyDocument(freshId, msg.filmId, msg.usersIds, [])]
    {
      partyId := freshId;
      storage.InsertElement(NewPartyDocument(partyId, msg));
    }

    /** `find_party_by_id`: the party's document; a storage exception is printed and yields None. */
    function FindPartyById(partyId: Uuid, storageFails: bool): (r: Option<PartyDocument>)
      reads this, storage
      ensures r.Some? ==> r.value in storage.documents && r.value.partyId == partyId
      ensures r.None? <==> storageFails || forall d :: d in storage.documents ==> d.partyId != partyId
    {
      if storageFails then None else Find(storage.documents, ByPartyId(partyId))
    }

    /** `find_party_id_by_user_id`: the first party listing the user; a storage exception yields None. */
    function FindPartyIdByUserId(userId: Uuid, storageFails: bool): (r: Option<PartyDocument>)
      reads this, storage
      ensures r.Some? ==> r.value in storage.documents && userId in r.value.usersIds
      ensures r.None? <==> storageFails || forall d :: d in storage.documents ==> userId !in d.usersIds
    {
      if storageFails then None else Find(storage.documents, ByUser(userId))
    }
  }
}
