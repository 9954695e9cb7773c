# movie-together: matchmaking queue, party sync and auth helpers in Dafny

This project models the core of the movie-together services:

- **Matchmaking queue** (queue-manager). A user asks to watch a film together. They get an encrypted client id and join a per-film waiting record in Redis (`{amount, members}`, 600-second expiry). When the tenth user arrives, the code tries to hand a party to the broker, but building the payload fails (see Findings).
- **Connection registries**. Each keeps a `defaultdict(list)` of websockets per film, party or user id. Reading an unknown key creates an empty entry, `add` appends, and `remove` drops the first occurrence or raises `ValueError`. There are also two singleton router factories, and an older plain dict keyed by websocket id.
- **Party manager**. The broker consumer stores a party document (`party_id`, `film_id`, `users_ids`, `messages`) in the "parties" collection. The stream channel relays playback events and caches the last position per party. The chat channel replays the stored history to a newcomer, relays every message to the whole party and appends it to the history.
- **Auth helpers**:
  - the permission decision with the `*.*` wildcard;
  - login-history pagination arithmetic;
  - the password-change rejection rules;
  - random passwords for social sign-up;
  - the access-token denylist with expiry;
  - the mock service's credential lookup.

How the model represents the system:

- Websocket sends go into an append-only delivery log `sent`. What one connection received is `Sockets.Outbox(sent, ws)`.
- Redis and Mongo are maps and document lists held in class fields.
- Randomness is passed in as a parameter: Fernet's timestamp and IV (`Nonce`), `uuid4`, the `secrets.choice` draws and the password hash.
- Clocks are passed in as parameters too (`now`).
- Each inbound websocket frame is one call to a `Receive` method. The endless receive loops are the caller's.

Where the specification and the code disagree, the model follows the code:

- The chat and stream relays send to every socket of the party, **including the sender**. There is no "all others" filter.
- The queue record is updated by a plain get-then-set. There is no compare-and-swap, so concurrent joins can lose updates. Concurrency is not modelled.
- At the threshold the code does not add the joining user to the party (see Findings).
- Removing a connection that was never registered raises `ValueError`; it is not a silent no-op.
- A queue connection whose send fails is only logged (`AttributeError`); it is not removed from the film's list.

## Model

| member | source | states |
|---|---|---|
| Seqs.RemoveFirst | queue-manager-service/src/integration/websocket.py:19-20 | `list.remove`: the list with exactly the first occurrence taken out; everything before and after it is kept in order |
| Seqs.RemoveFirstMultiset | queue-manager-service/src/integration/websocket.py:19-20 | a removal takes away exactly one copy of the connection and shortens the list by one |
| Seqs.RemoveFirstAfterAppend | queue-manager-service/src/integration/websocket.py:15-20 | removing a connection just appended to a list that did not hold it restores the list |
| Strings.Split | queue-manager-service/src/services/client_id.py:44 | `str.split(" ")`: at least one piece, no piece holds a space, and re-joining with single spaces gives the text back |
| Strings.SplitAfterWord | queue-manager-service/src/services/client_id.py:29-31 | splitting `a + " " + b` with a space-free `a` gives `a` followed by the pieces of `b` |
| Strings.SplitJoin | queue-manager-service/src/services/client_id.py:29-31 | splitting a space-joined list of space-free words gives back those words |
| Strings.FirstPieceIsWhole | queue-manager-service/src/services/client_id.py:62 | the first piece is the whole text exactly when the text has no space |
| Uuids.UuidHasNoSpace | queue-manager-service/src/services/client_id.py:29-31 | the text of a UUID holds no space |
| Sockets.SendEach | queue-manager-service/src/services/websocket.py:42-44 | a send loop produces one frame per listed connection, in list order, duplicates included |
| Sockets.SendEachConcat | party_manager_service/src/services/websocket.py:56-57 | sending to a list is sending to its first part, then to the rest |
| Sockets.OutboxConcat | party_manager_service/src/services/websocket.py:52-57 | what a connection received from two consecutive sends is what the first gave it, then what the second gave it |
| Sockets.OutboxSendEach | party_manager_service/src/services/websocket.py:132-137 | after a send to a list, each connection has the message once per time it is listed; an unlisted one has nothing |
| Sockets.SendTo | party_manager_service/src/services/websocket.py:74-75 | the history replay sends each message to the one connection, in order |
| Sockets.OutboxSendTo | party_manager_service/src/services/websocket.py:74-75 | the replay gives the new connection exactly the history and every other connection nothing |
| Registry.Touched | queue-manager-service/src/integration/websocket.py:10-13 | a defaultdict read adds the key, with an empty list if it was unknown, and changes no list |
| Registry.Appended | queue-manager-service/src/integration/websocket.py:15-16 | `append` puts the websocket at the end of that key's list; other keys' lists are unchanged |
| Registry.Removed | queue-manager-service/src/integration/websocket.py:19-20 | a successful `remove` takes exactly one copy out of that key's list; other keys' lists are unchanged |
| Registry.AddedUnderConcat | backend/party-manager-service/src/integration/websocket.py:15-16 | filtering a run of appends by key distributes over concatenation |
| Registry.ReplayCollects | backend/party-manager-service/src/integration/websocket.py:12-16 | after any run of appends, the list for an id is every websocket added under that id, in insertion order |
| QueueRouteTable.WebSocketRouteTable.GetWebsocketByFilmId | queue-manager-service/src/integration/websocket.py:12-13 | returns the film's list, or the empty list for an unknown film, whose empty entry stays |
| QueueRouteTable.WebSocketRouteTable.AddConnection | queue-manager-service/src/integration/websocket.py:15-16 | the table becomes `Appended` of the old one |
| QueueRouteTable.WebSocketRouteTable.RemoveConnection | queue-manager-service/src/integration/websocket.py:19-20 | succeeds iff the websocket is listed for the film, then the table is `Removed`; otherwise ValueError and only the film's entry is created |
| PartyRouter.WebSocketRouter.GetWebsocketByPartyId | party-manager-service/src/integration/websocket.py:10-13 | the party's list, or the empty list for an unknown party, whose empty entry stays |
| PartyRouter.WebSocketRouter.AddConnection | party-manager-service/src/integration/websocket.py:15-16 | appends at the end of the party's list and no other |
| PartyRouter.WebSocketRouter.RemoveConnection | party-manager-service/src/integration/websocket.py:18-19 | removes the first occurrence iff the websocket is listed; otherwise ValueError |
| PartyRouter.RouterFactories.GetStreamWebsocketRouter | party-manager-service/src/integration/websocket.py:22-24 | the first call builds a fresh empty router and later calls return that same one; it is never the chat router |
| PartyRouter.RouterFactories.GetChatWebsocketRouter | party-manager-service/src/integration/websocket.py:27-29 | the first call builds a fresh empty router and later calls return that same one; it is never the stream router |
| BackendPartyRouter.WebSocketRouter.GetWebsocketByUserId | backend/party-manager-service/src/integration/websocket.py:10-13 | the id's list, or the empty list for an unseen id |
| BackendPartyRouter.WebSocketRouter.AddPairInTable | backend/party-manager-service/src/integration/websocket.py:15-16 | appends to the end of the id's list; other ids are unchanged |
| BackendQueueRouteTable.WebSocketRouteTable.GetWebsocketByWsId | backend/queue-manager-service/src/integration/websocket.py:11-12 | succeeds iff the id was added, returning its websocket; otherwise KeyError |
| BackendQueueRouteTable.WebSocketRouteTable.AddPairInTable | backend/queue-manager-service/src/integration/websocket.py:14-15 | afterwards the id yields this websocket; every other binding is kept |
| ClientId.Encrypt | queue-manager-service/src/services/client_id.py:13-15 | the token is sealed under the configured key and carries the message, whatever key is passed |
| ClientId.Decrypt | queue-manager-service/src/services/client_id.py:17-19 | decryption succeeds exactly for tokens sealed under the configured key |
| ClientId.MakeClientId | queue-manager-service/src/services/client_id.py:21-35 | the client id decrypts to `film_id + " " + user_id + " " + user_agent` |
| ClientId.GetFilmIdFromClientId | queue-manager-service/src/services/client_id.py:37-44 | yields a value exactly for tokens sealed under the configured key: the first space-separated field; any other token raises InvalidToken |
| ClientId.GetUserIdFromClientId | queue-manager-service/src/services/client_id.py:46-53 | yields the second field exactly when the token is sealed under the configured key and its text has at least two fields; a foreign token raises InvalidToken, a one-field text IndexError |
| ClientId.GetUserAgentFromClientId | queue-manager-service/src/services/client_id.py:55-62 | yields the third field exactly when the token is sealed under the configured key and its text has at least three fields; a foreign token raises InvalidToken, a shorter text IndexError |
| ClientId.RawClientIdPieces | queue-manager-service/src/services/client_id.py:29-31 | the raw id splits into the film id, the user id, then the user agent's own pieces |
| ClientId.DecryptInvertsEncrypt | queue-manager-service/src/services/client_id.py:13-19 | decrypting an encryption gives the message back |
| ClientId.KeyArgumentIgnored | queue-manager-service/src/services/client_id.py:13-19 | the `key` argument of both helpers has no effect |
| ClientId.ClientIdIsNotDeterministic | queue-manager-service/src/services/client_id.py:21-35 | two client ids made for the same request with different timestamp or IV differ |
| ClientId.FilmIdRoundTrip | queue-manager-service/src/services/client_id.py:21-44 | the film-id getter returns the film id of any client id made for it |
| ClientId.UserIdRoundTrip | queue-manager-service/src/services/client_id.py:46-53 | the user-id getter returns the user id of any client id made for it |
| ClientId.UserAgentRoundTrip | queue-manager-service/src/services/client_id.py:55-62 | the user-agent getter returns the text before the agent's first space; it returns the agent itself iff the agent has no space |
| ClientId.ForeignTokenRejected | queue-manager-service/src/services/client_id.py:17-19 | a token not sealed under the configured key yields an error, never a field |
| ClientId.ShortPlaintextRaises | queue-manager-service/src/services/client_id.py:55-62 | a plaintext with fewer than three pieces makes the user-agent getter raise IndexError |
| Queue.ValidatePayload | queue-manager-service/src/schemas/entity.py:18-20 | the payload builds iff `users_ids` is given and every id parses as a UUID in either case; the payload holds the canonical lower-case forms; a missing `users_ids` is a validation error, an unparsable id another |
| Queue.CanonicalPayloadValidates | queue-manager-service/src/schemas/entity.py:18-20 | canonical ids pass validation unchanged, so the payload the corrected join publishes is the one pydantic builds |
| Queue.CheckIfClientIdExist | queue-manager-service/src/services/queue.py:27-44 | false with no queue for the film; otherwise true iff some member's stored client id equals the one just made |
| Queue.DuplicateCheckNeedsSameNonce | queue-manager-service/src/services/queue.py:30-44 | the check cannot match a member whose token was sealed with a different timestamp or IV |
| Queue.RepeatedJoinNotDetected | queue-manager-service/src/services/queue.py:30-44 | a user queued once is not recognised when the same request is checked again (as written) |
| Queue.RejoinDetected | queue-manager-service/src/services/queue.py:54-58 | comparing the stored user id and user agent recognises every re-join (corrected) |
| Queue.QueueService.FormParty | queue-manager-service/src/services/queue.py:71-78 | a payload that fails validation raises with nothing published or deleted; a valid one is published and the key "film_id" is deleted |
| Queue.QueueService.HandleQueue | queue-manager-service/src/services/queue.py:46-88 | first join stores `{1, [user]}` with 600 s expiry and returns 1; below the threshold it appends and returns the new amount; at amount 9 it raises with nothing stored or published; records stay well formed |
| Queue.QueueService.HandleQueueIntended | queue-manager-service/src/services/queue.py:46-88 | as above, except that at amount 9 it publishes all ten user ids (the joiner last), deletes the film's own queue and returns None (corrected) |
| QueueWebSocket.ReachedCount | queue-manager-service/src/services/websocket.py:42-46 | a connection is reached once per listing unless its sends fail, then never |
| QueueWebSocket.BroadcastOutbox | queue-manager-service/src/services/websocket.py:38-46 | after a broadcast each healthy connection has the message once per listing and a failing one nothing, with earlier frames kept |
| QueueWebSocket.WebSocketService.Connect | queue-manager-service/src/services/websocket.py:27-29 | the websocket is appended to the film's list |
| QueueWebSocket.WebSocketService.Disconnect | queue-manager-service/src/services/websocket.py:31-36 | removes the first occurrence iff listed; otherwise ValueError |
| QueueWebSocket.WebSocketService.Broadcast | queue-manager-service/src/services/websocket.py:38-46 | sends to every listed connection whose send does not fail, in order; each AttributeError is logged and the loop goes on; no list changes |
| QueueWebSocket.WebSocketService.SendAll | queue-manager-service/src/services/websocket.py:42-46 | the loop's log is the sends to the reached connections, and its error log the failed ones, in list order |
| PartyStore.FindFirst | party_manager_service/src/services/broker.py:30-46 | the position of the first document the filter matches; none iff no document matches |
| PartyStore.Find | party_manager_service/src/services/websocket.py:71-73 | a returned document is in the collection and matches the filter; none iff nothing matches |
| PartyStore.Pushed | party_manager_service/src/services/websocket.py:105-109 | `$push` appends the message to the first document with the party id, and nothing else changes; no match changes nothing |
| PartyStore.PushedKeepsMatches | party_manager_service/src/services/websocket.py:105-109 | pushing a message never changes which document a party-id or user filter finds |
| PartyStore.PushedThenFound | party_manager_service/src/services/websocket.py:105-109 | after a push, the party's document holds its old history followed by the message |
| PartyStore.PartyCollection.InsertElement | party_manager_service/src/services/broker.py:16-27 | the document is added after all existing ones |
| PartyStore.PartyCollection.PushMessage | party_manager_service/src/services/websocket.py:81-92 | the collection becomes `Pushed` of the old one |
| PartyBroker.CreatedPartyFindable | party_manager_service/src/services/broker.py:14-46 | a newly created party is found by its id, and each of its users is found in a party that lists them |
| PartyBroker.OldestPartyWins | party_manager_service/src/services/broker.py:38-46 | a user already in a stored party keeps being found in that older party |
| PartyBroker.PartyManagerService.CreateParty | party_manager_service/src/services/broker.py:14-28 | inserts exactly one document (fresh id, film id, users in message order, no messages) and returns that id |
| PartyBroker.PartyManagerService.FindPartyById | party_manager_service/src/services/broker.py:30-36 | a found document is stored and has the id; None iff the storage fails or no document has it |
| PartyBroker.PartyManagerService.FindPartyIdByUserId | party_manager_service/src/services/broker.py:38-46 | a found document is stored and lists the user; None iff the storage fails or no document lists the user |
| PartySync.JoinerSeesHistoryThenNotice | party_manager_service/src/services/websocket.py:67-93 | a socket joining the chat receives the whole stored history in order, then the join notice |
| PartySync.MemberSeesOnlyNotice | party_manager_service/src/services/websocket.py:76-93 | a socket already in the chat receives only the join notice, once per registration |
| PartySync.StreamService.Connect | party_manager_service/src/services/websocket.py:22-35 | registers the socket; sends it `{"type": "timeupdate", "time": t}` iff the party has a cached time, else nothing |
| PartySync.StreamService.Receive | party_manager_service/src/services/websocket.py:37-43 | a frame with "type" and "time" is handled and then becomes the party's cached time; a missing key raises KeyError with the cache unchanged |
| PartySync.StreamService.HandleMessage | party_manager_service/src/services/websocket.py:45-50 | a "timeupdate" frame is not relayed; any other type goes as `{type, time}` to every socket of the party, the sender included |
| PartySync.StreamService.SendToAll | party_manager_service/src/services/websocket.py:52-57 | the frame goes to each listed socket, in order |
| PartySync.StreamService.Disconnect | party_manager_service/src/services/websocket.py:42-43 | the socket leaves the party's list (ValueError if not listed) |
| PartySync.ChatService.Connect | party_manager_service/src/services/websocket.py:67-93 | registers the socket, replays the history to it, then sends the join notice to every socket and stores it; an unknown party raises TypeError with nothing sent or stored |
| PartySync.ChatService.Receive | party_manager_service/src/services/websocket.py:95-110 | the frame goes verbatim to every socket of the party, the sender included, and is appended to the history |
| PartySync.ChatService.Disconnect | party_manager_service/src/services/websocket.py:111-130 | the socket leaves the list; then the leave notice goes to the remaining sockets and is stored. If the socket was not listed, ValueError, with nothing sent or stored |
| PartySync.ChatService.ReplayTo | party_manager_service/src/services/websocket.py:74-75 | each stored message goes to the new socket, in stored order |
| PartySync.ChatService.SendAll | party_manager_service/src/services/websocket.py:132-137 | the frame goes to each listed socket, in order |
| Authorization.AnyGranted | backend/auth-service/src/services/authorization.py:63-65 | true iff some user permission appears among the endpoint's |
| Authorization.RequiredPermissions | backend/auth-service/src/services/authorization.py:55-66 | granted iff the user holds `*.*` or a permission the endpoint lists; an empty user list is never granted |
| Authorization.RequiredPermissionsOrderFree | backend/auth-service/src/services/authorization.py:55-66 | the decision depends only on which names the lists hold, not on order or repetition |
| Authorization.AuthorizationCheck | backend/auth-service/src/services/authorization.py:18-32 | a rejected token raises 401 and a missing claim raises KeyError; otherwise the result is true iff the claim holds `*.*` or a required permission |
| UserServices.CheckRepeatedPassword | auth-service/src/services/user_services.py:117-120 | true iff the two strings are equal |
| UserServices.CalculateOffset | auth-service/src/services/user_services.py:400-406 | the page's range starts at or after 0 and is exactly `page_size` rows long; page 1 starts at 0 |
| UserServices.PagesTile | auth-service/src/services/user_services.py:400-406 | each page starts where the previous one ends |
| UserServices.PageOfRow | auth-service/src/services/user_services.py:400-406 | a row lies in a page's range iff the page is `index // page_size + 1` |
| UserServices.CalcPreviousAndNextPages | auth-service/src/services/user_services.py:353-360 | previous is `page - 1`, or None exactly on page 1; a next page, when given, is `page + 1` |
| UserServices.NextPageAsWritten | auth-service/src/services/user_services.py:357-359 | as written, a next page is given iff `count >= 2 * page_size * page_number` |
| UserServices.NextPageMissedExample | auth-service/src/services/user_services.py:357-359 | page 1 of size 2 with 3 rows gets no next page, though row 2 lies on page 2 |
| UserServices.NextPageIntended | auth-service/src/services/user_services.py:357-359 | a next page is given iff the next page's first row exists (corrected) |
| UserServices.AsWrittenNextPageIsSound | auth-service/src/services/user_services.py:357-359 | whenever the code as written gives a next page, the corrected rule gives the same one |
| UserServices.UpdateDecision | auth-service/src/services/user_services.py:93-105 | updated iff the repetition matches, the user exists, the old password verifies and the new password differs. A missing user raises AttributeError, but only after the repetition check; a mismatched repetition is always rejected |
| UserServices.UserAccounts.UpdatePassword | auth-service/src/services/user_services.py:93-115 | a rejected change writes nothing; an accepted one stores the new hash for that username only |
| UserServices.AlphabetIsAlphanumeric | auth-service/src/services/user_services.py:429 | the alphabet holds exactly the ASCII letters and digits |
| UserServices.GenerateRandomPassword | auth-service/src/services/user_services.py:427-430 | the password has 16 characters, each an ASCII letter or digit |
| UserServices.EveryPasswordReachable | auth-service/src/services/user_services.py:427-430 | every 16-character string of letters and digits is a possible output |
| TokenStorage.Get | auth-service/src/db/storage.py:26 | a key yields its value exactly while its entry has not expired |
| TokenStorage.TokenInDenylist | auth-service/src/db/storage.py:24-28 | a token without a jti raises KeyError; otherwise true iff its jti holds a live non-empty value |
| TokenStorage.CheckIfTokenIsValid | auth-service/src/db/storage.py:30-39 | raises 401 iff the token is denylisted; otherwise it passes |
| TokenStorage.Denylisted | auth-service/src/db/storage.py:41-47 | listing a jti stores the "invalid" marker under it, to expire at `exp`, and keeps every other entry |
| TokenStorage.DenylistedTokenRefused | auth-service/src/db/storage.py:30-47 | once listed, a token is refused at every moment before its own expiry |
| TokenStorage.OtherTokensUnaffected | auth-service/src/db/storage.py:41-47 | listing one jti leaves the check of every token with another jti unchanged |
| TokenStorage.TokenHandler.PutTokenInDenylist | auth-service/src/db/storage.py:41-47 | stores "invalid" under the jti until `exp`; a missing claim raises KeyError; a non-positive lifetime is refused by the store; on failure nothing is written |
| Uuids.ParseUuid | mock-auth-service/src/models/models.py:6 | accepts exactly the hyphenated hex forms, and yields the lower-case canonical UUID |
| Uuids.ParseCanonical | mock-auth-service/src/models/models.py:6 | canonical UUID text parses to itself |
| MockUser.MakeUser | mock-auth-service/src/models/models.py:5-8 | a record makes a `User` iff it has a valid `user_id` and `username` and `password` of at most 255 characters |
| MockUser.CheckUserExist | mock-auth-service/src/services/user.py:11-18 | None iff the username is unknown or the password differs; a returned user has the supplied password and is the one built from the stored record; when the password matches, the result is that user exactly when the record validates as a `User`, and ValidationError otherwise; a record without "password" raises KeyError |
| MockUser.StoredCredentialsAccepted | mock-auth-service/src/services/user.py:15-17 | a record holding a user's canonical id, username and password (other fields ignored) signs in with that password as that user |

## Left out

- Network and process I/O is not modelled: websocket `accept`, the handshake, `print` and `logging` output, JSON and UTF-8 encoding and decoding, and the Redis, Mongo and RabbitMQ clients. The stores are maps and lists; the broker is the `published` list.
- Concurrency is not modelled: `asyncio.gather`, interleaved sessions, and the lost update of the queue's get-then-set. Every operation runs atomically, and the two halves of a `gather` are applied send first, then store.
- Fernet internals (AES, HMAC, base64) are abstract. A token records its key, nonce and plaintext. The source calls `decrypt` without a `ttl`, so tokens never expire, and neither do they in the model.
- JWT decoding, `jwt_required` and password hashing are oracles or parameters: `AccessToken`, `verify` and `newHash`.
- Redis expiry of the queue records is recorded as the `ttl` a record was written with. Records do not disappear with time in the queue model.
- Queue.QueueService.HandleQueue: the threshold branch raises, as the code does. Publishing and deleting are modelled in `FormParty`, which a validating payload reaches.
- The `pass` stubs `create_queue`, `add_to_queue` and `remove_from_queue` have no behaviour to model.
- The `lru_cache` factories of the queue route table, the websocket services and the party manager service are plain single instances here. Only the two party router factories are modelled.
- Stream and chat sends in the party manager are modelled as never failing. Only the queue broadcast's AttributeError path is modelled: the `failing` set decides, connection by connection, whether that send raises `AttributeError`, which the loop logs before going on. An exception of any other type, which would end the source's loop early, is not modelled.
- The party store's Mongo driver is not part of this model. `find_element_by_properties` is modelled as "first match in insertion order", and `update_element` with `$push` as "update the first match".
- A non-object JSON frame on a party websocket is not modelled; messages are JSON objects.
- Uuids.ParseUuid: accepts only the hyphenated 36-character form, in either case. Braced, `urn:` and unhyphenated spellings that pydantic also accepts are not modelled.
- Queue.ValidatePayload: uses the same parser, so braced, `urn:uuid:` and 32-digit unhyphenated ids, which pydantic accepts and normalises, are rejected here as `InvalidUuid`.
- MockUser.MakeUser: parses `user_id` with the same parser, with the same three spellings not modelled.
- `users_db` itself (`db/users.py`) is not part of this model. Records are maps from field name to string.
- The chat endpoint passes three arguments to the two-parameter `connect` (party_manager_service/src/api/v1/websockets.py:64-66). The model uses `connect` as the service defines it.

## Findings

| source | as written | input that shows it | evidently intended | confidence | as-written member | corrected member |
|---|---|---|---|---|---|---|
| queue-manager-service/src/services/queue.py:71-74 | the payload is built with `members=`, but `OutputPartyPayloads` requires `users_ids`, so validation raises | a tenth user joins a film whose record has `amount == 9` | the payload carries the user ids | not executed | Queue.QueueService.HandleQueue | Queue.QueueService.HandleQueueIntended |
| queue-manager-service/src/services/queue.py:78 | deletes the literal key `"film_id"`, so the film's queue is never cleared | any payload that validates, e.g. via `FormParty` | delete the key `film_id` | not executed | Queue.QueueService.FormParty | Queue.QueueService.HandleQueueIntended |
| queue-manager-service/src/services/queue.py:70-78 | the threshold branch takes the existing 9 members and drops the joining user | a tenth join: the party would hold 9 ids | the joiner completes a party of `AMOUNT_MEMBERS_IN_PARTY` = 10 | not executed | Queue.QueueService.HandleQueue | Queue.QueueService.HandleQueueIntended |
| queue-manager-service/src/services/queue.py:30-44 | the duplicate check compares freshly made Fernet tokens, which embed a new timestamp and IV each time | the same user and user agent join twice: `RepeatedJoinNotDetected` | recognise a queued user by identity | not executed | Queue.RepeatedJoinNotDetected | Queue.RejoinDetected |
| auth-service/src/services/user_services.py:357-359 | `next_page` only when `count // (page_size * page_number) > 1` | page 1, size 2 (the endpoint's default), count 3: no next page, though row 2 is on page 2 | a next page iff `count > page_size * page_number` | not executed | UserServices.NextPageMissedExample | UserServices.NextPageIntended |
