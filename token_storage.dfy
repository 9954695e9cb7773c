/**
 * The auth service's denylist of access tokens, kept in a key-value store
 * with expiry: a logged-out token's `jti` maps to "invalid" until the token
 * itself would have expired.
 */
module TokenStorage {
  import opened Wrappers

  /** A stored value and the moment, in whole seconds, at which the store drops it. */
  datatype Entry = Entry(value: string, expiresAt: int)

  type Store = map<string, Entry>

  /** The claims of a decoded token that the denylist reads. */
  datatype DecryptedToken = DecryptedToken(jti: Option<string>, exp: Option<int>)

  datatype TokenError =
    | KeyError        // the token lacks a claim the code reads
    | Unauthorized    // HTTP 401: the token is denylisted
    | ResponseError   // the store refuses a SET whose expiry is not positive

  const InvalidMarker: string := "invalid"

  /** `get(key)` at time `now`: the value, while its entry has not expired. */
  function Get(store: Store, key: string, now: int): (r: Option<string>)
    ensures r.Some? <==> key in store && now < store[key].expiresAt
    ensures r.Some? ==> r.value == store[key].value
  {
    if key in store && now < store[key].expiresAt then Some(store[key].value) else None
  }

  /** `_check_if_token_in_denylist`: the token's jti holds a non-empty value. */
  function TokenInDenylist(store: Store, token: DecryptedToken, now: int): (r: Result<bool, TokenError>)
    ensures token.jti.None? <==> r == Failure(KeyError)
    ensures r == Success(true) <==> token.jti.Some? && Get(store, token.jti.value, now).Some? && Get(store, token.jti.value, now).value != ""
  {
    match token.jti
    case None => Failure(KeyError)
    case Some(jti) =>
      var v := Get(store, jti, now);
      Success(v.Some? && v.value != "")
  }

  /** `check_if_token_is_valid`: passes unless the token is denylisted, which raises 401. */
  function CheckIfTokenIsValid(store: Store, token: DecryptedToken, now: int): (r: Outcome<TokenError>)
    ensures r == Fail(Unauthorized) <==> TokenInDenylist(store, token, now) == Success(true)
    ensures r == Fail(KeyError) <==> token.jti.None?
    ensures r.Pass? <==> TokenInDenylist(store, token, now) == Success(false)
  {
    match TokenInDenylist(store, token, now)
    case Failure(e) => Fail(e)
    case Success(true) => Fail(Unauthorized)
    case Success(false) => Pass
  }

  /** The store after `set(jti, "invalid", exp - now)` succeeded: the entry lives until `exp`. */
  function Denylisted(store: Store, jti: string, exp: int): (r: Store)
    ensures r.Keys == store.Keys + {jti}
    ensures r[jti] == Entry(InvalidMarker, exp)
    ensures forall k :: k in store && k != jti ==> r[k] == store[k]
  {
    store[jti := Entry(InvalidMarker, exp)]
  }

  /** A denylisted token is refused from the moment it is listed until it expires. */
  lemma DenylistedTokenRefused(store: Store, token: DecryptedToken, now: int, later: int)
    requires token.jti.Some? && token.exp.Some?
    requires now <= later < token.exp.value
    ensures CheckIfTokenIsValid(Denylisted(store, token.jti.value, token.exp.value), token, later) == Fail(Unauthorized)
  {
    assert Get(Denylisted(store, token.jti.value, token.exp.value), token.jti.value, later) == Some(InvalidMarker);
  }

  /** Denylisting one jti changes nothing for a token with another jti. */
  lemma OtherTokensUnaffected(store: Store, jti: string, exp: int, token: DecryptedToken, now: int)
    requires token.jti.Some? ==> token.jti.value != jti
    ensures CheckIfTokenIsValid(Denylisted(store, jti, exp), token, now) == CheckIfTokenIsValid(store, token, now)
  {
    if token.jti.Some? {
      assert Get(Denylisted(store, jti, exp), token.jti.value, now) == Get(store, token.jti.value, now);
    }
  }

  class TokenHandler {
    /** The key-value store, with each entry's expiry. */
    var noSql: Store

    constructor (noSql: Store)
      ensures this.noSql == noSql
    {
      this.noSql := noSql;
    }

    /**
     * `put_token_in_denylist`: stores "invalid" under the token's jti for the
     * token's remaining lifetime, `exp - now` seconds. A token already past
     * its expiry gives a non-positive lifetime, which the store refuses.
     */
    method PutTokenInDenylist(token: DecryptedToken, now: int) returns (r: Outcome<TokenError>)
      modifies this
      ensures r == Fail(KeyError) <==> token.jti.None? || token.exp.None?
      ensures r == Fail(ResponseError) <==> token.jti.Some? && token.exp.Some? && token.exp.value - now <= 0
      ensures r.Pass? ==> noSql == Denylisted(old(noSql), token.jti.value, token.exp.value)
      ensures r.Fail? ==> noSql == old(noSql)
    {
      if token.jti.None? || token.exp.None? {
        return Fail(KeyError);
      }
      var accessExpires := token.exp.value - now;
      if accessExpires <= 0 {
        return Fail(ResponseError);
      }
      noSql := noSql[token.jti.value := Entry(InvalidMarker, now + accessExpires)];
      r := Pass;
    }
  }
}
