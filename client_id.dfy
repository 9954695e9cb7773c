/**
 * The client id of the waiting queue: the text
 * `film_id + " " + user_id + " " + user_agent`, encrypted with Fernet under the
 * service's configured key, and the getters that decrypt it and pick one field
 * out of `split(" ")`.
 *
 * Fernet is modelled abstractly: a token records the key it was sealed under,
 * the fresh timestamp and IV drawn for that call (a `Nonce`, passed in because
 * it is random), and the plaintext it carries; only the configured key opens it.
 */
module ClientId {
  import opened Wrappers
  import opened Strings
  import opened Uuids

  /** A Fernet key; its bytes play no part in the model. */
  datatype Key = Key(id: nat)

  /** What Fernet draws afresh on every encryption: the current time and a random 128-bit IV. */
  datatype Nonce = Nonce(timestamp: int, iv: nat)

  /** A client id as it arrives: a Fernet token, or text that is not one. */
  datatype Token = Sealed(key: Key, nonce: Nonce, plaintext: string) | Garbage(text: string)

  datatype CodecError = InvalidToken | IndexError

  /** The join request: pydantic has already parsed both ids as UUIDs. */
  datatype FilmTogether = FilmTogether(filmId: Uuid, userId: Uuid, userAgent: string)

  /** `_encrypt(message, key)`: the `key` argument is ignored, the configured key is used. */
  function Encrypt(message: string, key: Key, settingsKey: Key, nonce: Nonce): (t: Token)
    ensures t.Sealed? && t.key == settingsKey && t.plaintext == message
  {
    Sealed(settingsKey, nonce, message)
  }

  /** `_decrypt(token, key)`: again `key` is ignored; a token not sealed under the configured key raises. */
  function Decrypt(token: Token, key: Key, settingsKey: Key): (r: Result<string, CodecError>)
    ensures r.Success? <==> token.Sealed? && token.key == settingsKey
  {
    if token.Sealed? && token.key == settingsKey then Success(token.plaintext) else Failure(InvalidToken)
  }

  /** The text `make_client_id` encrypts. */
  function RawClientId(ft: FilmTogether): string
  {
    ft.filmId + " " + ft.userId + " " + ft.userAgent
  }

  /** `make_client_id`: encrypts the raw client id under the configured key with this call's nonce. */
  function MakeClientId(ft: FilmTogether, settingsKey: Key, nonce: Nonce): (t: Token)
    ensures Decrypt(t, settingsKey, settingsKey) == Success(RawClientId(ft))
  {
    Encrypt(RawClientId(ft), settingsKey, settingsKey, nonce)
  }

  /** Field `index` of the decrypted client id split on single spaces; a missing field raises IndexError. */
  function FieldOf(clientId: Token, settingsKey: Key, index: nat): (r: Result<string, CodecError>)
  {
    match Decrypt(clientId, settingsKey, settingsKey)
    case Failure(e) => Failure(e)
    case Success(raw) =>
      var parts := Split(raw);
      if index < |parts| then Success(parts[index]) else Failure(IndexError)
  }

  /** `get_film_id_from_client_id`. */
  function GetFilmIdFromClientId(clientId: Token, settingsKey: Key): (r: Result<string, CodecError>)
    ensures r.Success? <==> clientId.Sealed? && clientId.key == settingsKey
    ensures r.Success? ==> r.value == Split(clientId.plaintext)[0] && ' ' !in r.value
    ensures r.Failure? ==> r == Failure(InvalidToken)
  {
    FieldOf(clientId, settingsKey, 0)
  }

  /** `get_user_id_from_client_id`: the second field; a one-field text raises IndexError. */
  function GetUserIdFromClientId(clientId: Token, settingsKey: Key): (r: Result<string, CodecError>)
    ensures r.Success? <==>
              clientId.Sealed? && clientId.key == settingsKey && |Split(clientId.plaintext)| >= 2
    ensures r.Success? ==> r.value == Split(clientId.plaintext)[1] && ' ' !in r.value
    ensures !(clientId.Sealed? && clientId.key == settingsKey) ==> r == Failure(InvalidToken)
    ensures clientId.Sealed? && clientId.key == settingsKey && |Split(clientId.plaintext)| < 2 ==>
              r == Failure(IndexError)
  {
    FieldOf(clientId, settingsKey, 1)
  }

  /** `get_user_agent_from_client_id`: the third field; a text with fewer fields raises IndexError. */
  function GetUserAgentFromClientId(clientId: Token, settingsKey: Key): (r: Result<string, CodecError>)
    ensures r.Success? <==>
              clientId.Sealed? && clientId.key == settingsKey && |Split(clientId.plaintext)| >= 3
    ensures r.Success? ==> r.value == Split(clientId.plaintext)[2] && ' ' !in r.value
    ensures !(clientId.Sealed? && clientId.key == settingsKey) ==> r == Failure(InvalidToken)
    ensures clientId.Sealed? && clientId.key == settingsKey && |Split(clientId.plaintext)| < 3 ==>
              r == Failure(IndexError)
  {
    FieldOf(clientId, settingsKey, 2)
  }

  /** The pieces of a raw client id: the two UUIDs whole, then the user agent's own pieces. */
  lemma RawClientIdPieces(ft: FilmTogether)
    ensures Split(RawClientId(ft)) == [ft.filmId, ft.userId] + Split(ft.userAgent)
  {
    UuidHasNoSpace(ft.filmId);
    UuidHasNoSpace(ft.userId);
    SplitThreeFields(ft.filmId, ft.userId, ft.userAgent);
  }

  /** Decryption undoes encryption under the configured key, whatever key argument is passed. */
  lemma DecryptInvertsEncrypt(message: string, k1: Key, k2: Key, settingsKey: Key, nonce: Nonce)
    ensures Decrypt(Encrypt(message, k1, settingsKey, nonce), k2, settingsKey) == Success(message)
  {
  }

  /** The key argument of both helpers has no effect. */
  lemma KeyArgumentIgnored(message: string, token: Token, k1: Key, k2: Key, settingsKey: Key, nonce: Nonce)
    ensures Encrypt(message, k1, settingsKey, nonce) == Encrypt(message, k2, settingsKey, nonce)
    ensures Decrypt(token, k1, settingsKey) == Decrypt(token, k2, settingsKey)
  {
  }

  /** Two client ids made for the same request at different moments differ: Fernet is randomized. */
  lemma ClientIdIsNotDeterministic(ft: FilmTogether, settingsKey: Key, n1: Nonce, n2: Nonce)
    requires n1 != n2
    ensures MakeClientId(ft, settingsKey, n1) != MakeClientId(ft, settingsKey, n2)
  {
  }

  /** The film id comes back out of any client id made for it. */
  lemma {:induction false} FilmIdRoundTrip(ft: FilmTogether, settingsKey: Key, nonce: Nonce)
    ensures GetFilmIdFromClientId(MakeClientId(ft, settingsKey, nonce), settingsKey) == Success(ft.filmId)
  {
    RawClientIdPieces(ft);
  }

  /** The user id comes back out of any client id made for it. */
  lemma {:induction false} UserIdRoundTrip(ft: FilmTogether, settingsKey: Key, nonce: Nonce)
    ensures GetUserIdFromClientId(MakeClientId(ft, settingsKey, nonce), settingsKey) == Success(ft.userId)
  {
    RawClientIdPieces(ft);
  }

  /**
   * The user-agent getter returns only the text before the user agent's first
   * space, so it gives the user agent back exactly when that has no space.
   */
  lemma {:induction false} UserAgentRoundTrip(ft: FilmTogether, settingsKey: Key, nonce: Nonce)
    ensures GetUserAgentFromClientId(MakeClientId(ft, settingsKey, nonce), settingsKey)
            == Success(Split(ft.userAgent)[0])
    ensures GetUserAgentFromClientId(MakeClientId(ft, settingsKey, nonce), settingsKey) == Success(ft.userAgent)
            <==> ' ' !in ft.userAgent
  {
    RawClientIdPieces(ft);
    FirstPieceIsWhole(ft.userAgent);
  }

  /** A token that was not sealed under the configured key yields no field, only an error. */
  lemma ForeignTokenRejected(clientId: Token, settingsKey: Key, index: nat)
    requires !(clientId.Sealed? && clientId.key == settingsKey)
    ensures FieldOf(clientId, settingsKey, index) == Failure(InvalidToken)
  {
  }

  /** A well-sealed text with fewer than three fields makes the user-agent getter raise IndexError. */
  lemma ShortPlaintextRaises(settingsKey: Key, nonce: Nonce, raw: string)
    requires |Split(raw)| < 3
    ensures GetUserAgentFromClientId(Sealed(settingsKey, nonce, raw), settingsKey) == Failure(IndexError)
  {
  }
}
