/**
 * The mock auth service's credential lookup against its in-memory `users_db`,
 * a dictionary from username to a record of string fields.
 */
module MockUser {
  import opened Wrappers
  import opened Uuids

  type UserRecord = map<string, string>

  /** The pydantic `User` model. */
  datatype User = User(userId: Uuid, username: string, password: string)

  datatype LookupError =
    | KeyError          // the record has no "password" field
    | ValidationError   // the record does not make a valid `User`

  const MaxLength: nat := 255

  /** `User(**record)`: the fields validated by the pydantic model. */
  function MakeUser(record: UserRecord): (r: Result<User, LookupError>)
    ensures r.Success? <==>
              "user_id" in record && IsUuidInput(record["user_id"]) &&
              "username" in record && |record["username"]| <= MaxLength &&
              "password" in record && |record["password"]| <= MaxLength
    ensures r.Success? ==> r.value.username == record["username"] && r.value.password == record["password"]
    ensures r.Failure? ==> r.error == ValidationError
  {
    if "user_id" in record && "username" in record && "password" in record then
      match ParseUuid(record["user_id"])
      case Some(id) =>
        if |record["username"]| <= MaxLength && |record["password"]| <= MaxLength
        then Success(User(id, record["username"], record["password"]))
        else Failure(ValidationError)
      case None => Failure(ValidationError)
    else Failure(ValidationError)
  }

  /**
   * `check_user_exist`: the user built from the stored record when the
   * username is known and the password matches the stored one; None otherwise.
   */
  function CheckUserExist(usersDb: map<string, UserRecord>, username: string, password: string): (r: Result<Option<User>, LookupError>)
    ensures r == Success(None) <==>
              username !in usersDb ||
              ("password" in usersDb[username] && usersDb[username]["password"] != password)
    ensures r == Failure(KeyError) <==> username in usersDb && "password" !in usersDb[username]
    ensures r.Success? && r.value.Some? ==>
              username in usersDb && usersDb[username]["password"] == password &&
              r.value.value.password == password && MakeUser(usersDb[username]) == Success(r.value.value)
    ensures username in usersDb && "password" in usersDb[username] && usersDb[username]["password"] == password ==>
              match MakeUser(usersDb[username])
              case Success(user) => r == Success(Some(user))
              case Failure(_) => r == Failure(ValidationError)
  {
    if username in usersDb then
      var record := usersDb[username];
      if "password" !in record then Failure(KeyError)
      else if password == record["password"] then
        match MakeUser(record)
        case Success(user) => Success(Some(user))
        case Failure(e) => Failure(e)
      else Success(None)
    else Success(None)
  }

  /**
   * A record holding a user's canonical id, username and password, whatever
   * other fields it carries, signs in with that password as that user.
   */
  lemma StoredCredentialsAccepted(usersDb: map<string, UserRecord>, username: string, u: User)
    requires username in usersDb
    requires "user_id" in usersDb[username] && usersDb[username]["user_id"] == u.userId
    requires "username" in usersDb[username] && usersDb[username]["username"] == u.username
    requires "password" in usersDb[username] && usersDb[username]["password"] == u.password
    requires |u.username| <= MaxLength && |u.password| <= MaxLength
    ensures CheckUserExist(usersDb, username, u.password) == Success(Some(u))
  {
    ParseCanonical(u.userId);
  }
}
