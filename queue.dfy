/**
 * The waiting queue of the queue-manager service: one JSON record
 * `{amount, members}` per film in Redis, written with a 600-second expiry.
 * `QueueService.HandleQueue` is `handle_queue` as written; `HandleQueueIntended`
 * is the behaviour its constants and comments aim at (see README, Findings).
 */
module Queue {
  import opened Wrappers
  import opened Uuids
  import opened ClientId

  const AMOUNT_MEMBERS_IN_PARTY: int := 10
  const MAX_PARTY_WAITING_TIME: int := 10 * 60

  /** A waiting user as stored: `{"user_id", "user_agent", "client_id"}`. */
  datatype Member = Member(userId: Uuid, userAgent: string, clientId: Token)

  /** The JSON record kept per film. */
  datatype QueueRecord = QueueRecord(amount: int, members: seq<Member>)

  /** A record together with the expiry, in seconds, it was written with. */
  datatype Stored = Stored(record: QueueRecord, ttl: int)

  /** The Redis keyspace the service uses: key text to stored record. */
  type Store = map<string, Stored>

  /** The message handed to the broker when a party forms. */
  datatype PartyPayload = PartyPayload(filmId: string, usersIds: seq<string>)

  /** The keyword arguments passed to `OutputPartyPayloads(...)`. */
  datatype PayloadArgs = PayloadArgs(filmId: string, usersIds: Option<seq<string>>, members: Option<seq<Member>>)

  datatype ValidationError = MissingUsersIds | InvalidUuid

  /** What `handle_queue` gives back: the new amount, `None`, or the exception it raises. */
  datatype JoinResult = Amount(n: int) | NoValue | Raised(error: ValidationError)

  /** Every text of the list parses as a UUID. */
  predicate AllUuidInputs(ids: seq<string>) {
    forall i :: 0 <= i < |ids| ==> IsUuidInput(ids[i])
  }

  /** The canonical forms of a list of parsable UUID texts, in list order. */
  function ParseAll(ids: seq<string>): (r: seq<string>)
    requires AllUuidInputs(ids)
    ensures |r| == |ids|
    ensures forall i :: 0 <= i < |r| ==> ParseUuid(ids[i]) == Some(r[i]) && IsUuidText(r[i])
  {
    seq(|ids|, i requires 0 <= i < |ids| => ParseUuid(ids[i]).value)
  }

  /**
   * pydantic's construction of `OutputPartyPayloads`: `film_id` and `users_ids`
   * are required and must parse as UUIDs, which the payload then holds in
   * canonical lower-case form; a keyword the model does not declare, such as
   * `members`, is dropped.
   */
  function ValidatePayload(args: PayloadArgs): (r: Result<PartyPayload, ValidationError>)
    ensures r.Success? <==>
              args.usersIds.Some? && IsUuidInput(args.filmId) && AllUuidInputs(args.usersIds.value)
    ensures r.Success? ==>
              ParseUuid(args.filmId) == Some(r.value.filmId) &&
              |r.value.usersIds| == |args.usersIds.value| &&
              forall i :: 0 <= i < |r.value.usersIds| ==> ParseUuid(args.usersIds.value[i]) == Some(r.value.usersIds[i])
    ensures args.usersIds.None? ==> r == Failure(MissingUsersIds)
    ensures args.usersIds.Some? && !(IsUuidInput(args.filmId) && AllUuidInputs(args.usersIds.value)) ==>
              r == Failure(InvalidUuid)
  {
    if args.usersIds.None? then Failure(MissingUsersIds)
    else if !IsUuidInput(args.filmId) || !AllUuidInputs(args.usersIds.value) then Failure(InvalidUuid)
    else Success(PartyPayload(ParseUuid(args.filmId).value, ParseAll(args.usersIds.value)))
  }

  /** Canonical ids pass validation unchanged, so the corrected join's payload is what pydantic would build. */
  lemma {:induction false} CanonicalPayloadValidates(filmId: Uuid, ids: seq<Uuid>)
    ensures ValidatePayload(PayloadArgs(filmId, Some(ids), None)) == Success(PartyPayload(filmId, ids))
  {
    ParseCanonical(filmId);
    forall i | 0 <= i < |ids|
      ensures IsUuidInput(ids[i]) && ParseUuid(ids[i]) == Some(ids[i])
    {
      ParseCanonical(ids[i]);
    }
    var r := ValidatePayload(PayloadArgs(filmId, Some(ids), None)).value;
    assert r.usersIds == ids;
  }

  /** The `user` dict a join builds. */
  function NewMember(ft: FilmTogether, settingsKey: Key, nonce: Nonce): Member
  {
    Member(ft.userId, ft.userAgent, MakeClientId(ft, settingsKey, nonce))
  }

  /** The user ids of a member list, in member order. */
  function UserIds(members: seq<Member>): (ids: seq<string>)
    ensures |ids| == |members|
    ensures forall i :: 0 <= i < |ids| ==> ids[i] == members[i].userId && IsUuidText(ids[i])
  {
    seq(|members|, i requires 0 <= i < |members| => members[i].userId)
  }

  /** The record invariant every write keeps: `amount == len(members)`, below the party size, 600 s expiry. */
  predicate WellFormed(s: Stored)
  {
    1 <= s.record.amount <= AMOUNT_MEMBERS_IN_PARTY - 1 &&
    s.record.amount == |s.record.members| &&
    s.ttl == MAX_PARTY_WAITING_TIME
  }

  /** `[member["client_id"] for member in members]`. */
  function ClientIds(members: seq<Member>): (ids: seq<Token>)
    ensures |ids| == |members|
    ensures forall i :: 0 <= i < |ids| ==> ids[i] == members[i].clientId
  {
    seq(|members|, i requires 0 <= i < |members| => members[i].clientId)
  }

  /**
   * `check_if_client_id_exist`: false with no record for the film; otherwise
   * whether the freshly made client id equals some member's stored one.
   */
  function CheckIfClientIdExist(store: Store, ft: FilmTogether, settingsKey: Key, nonce: Nonce): (found: bool)
    ensures ft.filmId !in store ==> !found
    ensures found <==>
              ft.filmId in store &&
              exists i :: 0 <= i < |store[ft.filmId].record.members| &&
                          store[ft.filmId].record.members[i].clientId == MakeClientId(ft, settingsKey, nonce)
  {
    if ft.filmId !in store then false
    else
      var ids := ClientIds(store[ft.filmId].record.members);
      assert forall i :: 0 <= i < |ids| ==> ids[i] == store[ft.filmId].record.members[i].clientId;
      MakeClientId(ft, settingsKey, nonce) in ids
  }

  /**
   * The duplicate check only fires on a member whose stored token was sealed with
   * this very call's nonce; since every call draws a fresh one, it never fires.
   */
  lemma DuplicateCheckNeedsSameNonce(store: Store, ft: FilmTogether, settingsKey: Key, nonce: Nonce)
    requires ft.filmId in store
    requires forall m :: m in store[ft.filmId].record.members && m.clientId.Sealed? ==> m.clientId.nonce != nonce
    ensures !CheckIfClientIdExist(store, ft, settingsKey, nonce)
  {
  }

  /**
   * The same user on the same device, queued a moment ago, is not recognised on a
   * second attempt: the first join stored a token with nonce `n1`, the check makes
   * one with `n2`.
   */
  lemma RepeatedJoinNotDetected(ft: FilmTogether, settingsKey: Key, n1: Nonce, n2: Nonce)
    requires n1 != n2
    ensures var store := map[ft.filmId := Stored(QueueRecord(1, [NewMember(ft, settingsKey, n1)]), MAX_PARTY_WAITING_TIME)];
            !CheckIfClientIdExist(store, ft, settingsKey, n2)
  {
    var store := map[ft.filmId := Stored(QueueRecord(1, [NewMember(ft, settingsKey, n1)]), MAX_PARTY_WAITING_TIME)];
    DuplicateCheckNeedsSameNonce(store, ft, settingsKey, n2);
  }

  /**
   * The duplicate check the design calls for: compare the identity fields that
   * every member record keeps in the clear, which do not depend on any nonce.
   */
  predicate IsAlreadyQueued(store: Store, ft: FilmTogether)
  {
    ft.filmId in store &&
    exists i :: 0 <= i < |store[ft.filmId].record.members| &&
                store[ft.filmId].record.members[i].userId == ft.userId &&
                store[ft.filmId].record.members[i].userAgent == ft.userAgent
  }

  /** Whoever was queued for a film under some nonce is recognised again under any other. */
  lemma RejoinDetected(store: Store, ft: FilmTogether, settingsKey: Key, n1: Nonce)
    requires ft.filmId in store
    requires NewMember(ft, settingsKey, n1) in store[ft.filmId].record.members
    ensures IsAlreadyQueued(store, ft)
  {
    var members := store[ft.filmId].record.members;
    var i :| 0 <= i < |members| && members[i] == NewMember(ft, settingsKey, n1);
  }

  /** The queue engine: the Redis keyspace and the broker's outgoing messages. */
  class QueueService {
    const settingsKey: Key
    var store: Store
    var published: seq<PartyPayload>

    ghost predicate Valid()
      reads this
    {
      forall k :: k in store ==> WellFormed(store[k])
    }

    constructor (settingsKey: Key)
      ensures Valid()
      ensures this.settingsKey == settingsKey && store == map[] && published == []
    {
      this.settingsKey := settingsKey;
      store := map[];
      published := [];
    }

    /**
     * The party branch as written: build the payload, publish it, then delete
     * the literal key "film_id" rather than the film's key.
     */
    method FormParty(args: PayloadArgs) returns (r: JoinResult)
      requires Valid()
      modifies this
      ensures Valid()
      ensures ValidatePayload(args).Failure? ==>
                r == Raised(ValidatePayload(args).error) && store == old(store) && published == old(published)
      ensures ValidatePayload(args).Success? ==>
                r == NoValue &&
                published == old(published) + [ValidatePayload(args).value] &&
                store == old(store) - {"film_id"}
    {
      var party := ValidatePayload(args);
      if party.Failure? {
        return Raised(party.error);
      }
      published := published + [party.value];
      store := store - {"film_id"};
      r := NoValue;
    }

    /**
     * `handle_queue` as written. A first join stores `{1, [user]}`; a join below
     * the threshold appends the user and returns the new amount; a join that
     * finds `amount == 9` builds the payload with `members=` instead of
     * `users_ids=`, so pydantic raises before anything is published, and the
     * stored queue stays as it was.
     */
    method HandleQueue(ft: FilmTogether, nonce: Nonce) returns (r: JoinResult)
      requires Valid()
      modifies this
      ensures Valid()
      ensures published == old(published)
      ensures ft.filmId !in old(store) ==>
                r == Amount(1) &&
                store == old(store)[ft.filmId := Stored(QueueRecord(1, [NewMember(ft, settingsKey, nonce)]), MAX_PARTY_WAITING_TIME)]
      ensures ft.filmId in old(store) && old(store)[ft.filmId].record.amount == AMOUNT_MEMBERS_IN_PARTY - 1 ==>
                r == Raised(MissingUsersIds) && store == old(store)
      ensures ft.filmId in old(store) && old(store)[ft.filmId].record.amount != AMOUNT_MEMBERS_IN_PARTY - 1 ==>
                var q := old(store)[ft.filmId].record;
                r == Amount(q.amount + 1) &&
                store == old(store)[ft.filmId := Stored(QueueRecord(q.amount + 1, q.members + [NewMember(ft, settingsKey, nonce)]), MAX_PARTY_WAITING_TIME)]
    {
      var filmId: string := ft.filmId;
      var user := NewMember(ft, settingsKey, nonce);
      if filmId !in store {
        var q := QueueRecord(1, [user]);
        store := store[filmId := Stored(q, MAX_PARTY_WAITING_TIME)];
        return Amount(q.amount);
      }
      var q := store[filmId].record;
      if q.amount == AMOUNT_MEMBERS_IN_PARTY - 1 {
        r := FormParty(PayloadArgs(filmId, None, Some(q.members)));
      } else {
        q := QueueRecord(q.amount + 1, q.members + [user]);
        store := store[filmId := Stored(q, MAX_PARTY_WAITING_TIME)];
        r := Amount(q.amount);
      }
    }

    /**
     * The corrected join: at the threshold the joining user completes the
     * party, the payload carries all ten user ids, and the film's own queue is
     * deleted, so the next join starts a new queue.
     */
    method HandleQueueIntended(ft: FilmTogether, nonce: Nonce) returns (r: JoinResult)
      requires Valid()
      modifies this
      ensures Valid()
      ensures ft.filmId !in old(store) ==>
                r == Amount(1) && published == old(published) &&
                store == old(store)[ft.filmId := Stored(QueueRecord(1, [NewMember(ft, settingsKey, nonce)]), MAX_PARTY_WAITING_TIME)]
      ensures ft.filmId in old(store) && old(store)[ft.filmId].record.amount == AMOUNT_MEMBERS_IN_PARTY - 1 ==>
                var q := old(store)[ft.filmId].record;
                r == NoValue &&
                published == old(published) + [PartyPayload(ft.filmId, UserIds(q.members) + [ft.userId])] &&
                |UserIds(q.members) + [ft.userId]| == AMOUNT_MEMBERS_IN_PARTY &&
                store == old(store) - {ft.filmId} && ft.filmId !in store
      ensures ft.filmId in old(store) && old(store)[ft.filmId].record.amount != AMOUNT_MEMBERS_IN_PARTY - 1 ==>
                var q := old(store)[ft.filmId].record;
                r == Amount(q.amount + 1) && published == old(published) &&
                store == old(store)[ft.filmId := Stored(QueueRecord(q.amount + 1, q.members + [NewMember(ft, settingsKey, nonce)]), MAX_PARTY_WAITING_TIME)]
    {
      var filmId: string := ft.filmId;
      var user := NewMember(ft, settingsKey, nonce);
      if filmId !in store {
        var q := QueueRecord(1, [user]);
        store := store[filmId := Stored(q, MAX_PARTY_WAITING_TIME)];
        return Amount(q.amount);
      }
      var q := store[filmId].record;
      if q.amount == AMOUNT_MEMBERS_IN_PARTY - 1 {
        var party := PartyPayload(filmId, UserIds(q.members + [user]));
        assert UserIds(q.members + [user]) == UserIds(q.members) + [ft.userId];
        published := published + [party];
        store := store - {filmId};
        r := NoValue;
      } else {
        q := QueueRecord(q.amount + 1, q.members + [user]);
        store := store[filmId := Stored(q, MAX_PARTY_WAITING_TIME)];
        r := Amount(q.amount);
      }
    }
  }
}
