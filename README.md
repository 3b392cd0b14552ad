# Chat backend core, modelled in Dafny

This project models two stateful pieces of a FastAPI chat service and proves
what they promise.

- **The chat endpoints** (`app/api/endpoints/chat.py`):
  - the process-wide connection table `active_connections`, one socket per user id;
  - the WebSocket endpoint, which authenticates a token, registers the socket, and then runs a receive loop. For each frame the loop checks membership, stores the message, and broadcasts it to the other online participants;
  - the REST room operations `get_user_chats`, `create_chat`, `add_participant` and `get_chat_messages`.

  These are modelled by the class `ChatEndpoints.ChatServer` over in-memory tables:
  - rooms, participants and the message log;
  - the connection table;
  - the socket bindings;
  - a per-socket outbox of the frames written to it.
- **The recent-message cache** (`app/redis_cache/redis_messages.py`):
  - `cache_message` pushes a message's JSON text onto the head of the Redis list `chat:{chat_id}:messages` and trims the list to its 50 newest entries;
  - `get_cached_messages` reads the whole list back and decodes each entry.

  The Redis list commands are modelled exactly, including how Redis resolves and clamps indices (`RedisLists`). The key format is modelled with Python's decimal `str` of an integer (`RedisKeys`). What the operations mean is stated in `RedisMessages`, and the in-place update lives in the class `RedisMessageCache.MessageCache`.

Files:

| file | module | contents |
|---|---|---|
| `results.dfy` | `Results` | `Option`, `Result` |
| `json.dfy` | `JsonValues` | JSON documents, Python `dict.get` |
| `chat_models.dfy` | `ChatModels` | table rows, response schemas, frames, error constants |
| `chat_queries.dfy` | `ChatQueries` | the SQL queries as functions; fan-out over the connection table |
| `chat_endpoints.dfy` | `ChatEndpoints` | `ChatServer`: handshake, receive loop, disconnect, REST operations |
| `chat_scenarios.dfy` | `ChatScenarios` | concrete runs: a stale disconnect, a two-member broadcast |
| `redis_lists.dfy` | `RedisLists` | LPUSH, LTRIM, LRANGE over a keyspace |
| `redis_keys.dfy` | `RedisKeys` | `str(int)` and the cache key, proved injective |
| `redis_messages.dfy` | `RedisMessages` | `cache_message` / `get_cached_messages` as functions, and their properties |
| `redis_cache.dfy` | `RedisMessageCache` | `MessageCache`: the keyspace updated in place |

`ChatServer.Valid()` is the invariant every state-changing operation keeps:
- every registered socket is bound to the user it is registered for, so fan-out never reaches the sender;
- every live socket is bound, and every bound socket has an outbox;
- no participant row occurs twice;
- room and message ids stay below the next id to be assigned;
- message ids increase along the log.

## Model

| member | source | states |
|---|---|---|
| JsonValues.Get | app/api/endpoints/chat.py:208-209 | `dict.get` yields a value exactly when the key is present and not `null`, and then yields the stored value |
| ChatQueries.FindUser | app/api/endpoints/chat.py:30-31 | `None` exactly when no user has the name; otherwise the first user row with that name |
| ChatQueries.FindRoom | app/api/endpoints/chat.py:98-99 | `None` exactly when no room has the id; otherwise a room with that id |
| ChatQueries.Recipients | app/api/endpoints/chat.py:243-249 | the broadcast addressees are exactly the chat's participants other than the sender, without repeats when the participant table has none |
| ChatQueries.FanOutFrames | app/api/endpoints/chat.py:251-253 | after the send loop, each socket holds its earlier frames followed by one copy of the frame per time it was targeted |
| ChatQueries.FanOutKeys | app/api/endpoints/chat.py:251-253 | the send loop writes to no socket other than its targets |
| ChatQueries.TargetsBound | app/api/endpoints/chat.py:251-253 | every socket the send loop writes to was authenticated |
| ChatQueries.CountTargets | app/api/endpoints/chat.py:251-253 | with distinct addressees, a socket is targeted once if it is the registered socket of an addressee, and otherwise never |
| ChatQueries.FanOutToOnlineMembers | app/api/endpoints/chat.py:243-253 | a broadcast appends the frame exactly once to the registered socket of each other participant, skips offline participants, never echoes to the sender, and leaves every other socket alone |
| ChatQueries.MessagesOf | app/api/endpoints/chat.py:141-144 | a chat's listing holds exactly the logged messages with that chat id |
| ChatQueries.MessagesOfIncreasing | app/api/endpoints/chat.py:141-144 | the listing keeps log order: ids increase along it when they do along the log |
| ChatQueries.MessagesOfAppend | app/api/endpoints/chat.py:226-230 | storing a message appends it to its own chat's listing and leaves every other chat's listing unchanged |
| ChatQueries.ChatsOf | app/api/endpoints/chat.py:34-35 | the joined rooms are exactly the rooms that have a participant row for the user |
| ChatQueries.ChatsOfIncreasing | app/api/endpoints/chat.py:34-35 | the joined rooms keep table order: room ids increase along the result when they do along the table, so no room is listed twice |
| ChatEndpoints.Decide | app/api/endpoints/chat.py:207-227 | a frame is stored exactly when its `chat_id` is an integer in the 32-bit column range naming a chat the user belongs to and its `message` is a string; the stored row carries that `chat_id` and that text. It is denied exactly when it is a JSON object whose `chat_id` is absent, null, or an in-range integer the user has no participant row for; everything else raises |
| ChatEndpoints.Turn | app/api/endpoints/chat.py:204-258 | one turn of the loop as a value: only a disconnect ends it as a disconnect, only a raising frame crashes it, and a row is stored exactly for a stored frame, with the next id, the sender, the frame's chat, text and time |
| ChatEndpoints.RunGrows | app/api/endpoints/chat.py:204-253 | a run of the loop keeps the rows stored before it and stores at most one row per event |
| ChatEndpoints.RunPosted | app/api/endpoints/chat.py:204-253 | the rows a run stores carry consecutive ids in receipt order, each sent by the socket's user to a chat they belong to |
| ChatEndpoints.RunStopsAtEnd | app/api/endpoints/chat.py:204-258 | once the loop has ended, events after that point change nothing |
| ChatEndpoints.RunDenyOrLeave | app/api/endpoints/chat.py:219-223 | a denied frame appends exactly the error text to the sender's socket and the loop goes on, and a disconnect ends the loop as a disconnect, whatever the session stored before |
| ChatEndpoints.LostReplyAsWritten | app/api/endpoints/chat.py:220-230 | as the source runs, a denied frame or a disconnect right after a stored row crashes the loop with nothing sent, where the intended loop replies with the error text or ends as a disconnect |
| ChatEndpoints.ChatServer.Subject | app/api/endpoints/chat.py:165-170 | a subject exists exactly for a token that decodes and carries a string `sub` claim, and it is that claim |
| ChatEndpoints.ChatServer.ReadInbound | app/api/endpoints/chat.py:207-209 | a text is a bad frame exactly when it does not parse as a JSON object; otherwise `chat_id` and `message` are read with `dict.get` |
| ChatEndpoints.ChatServer.Acts | app/api/endpoints/chat.py:204-227 | the decided events, one per event, never store into a chat the user does not belong to |
| ChatEndpoints.ChatServer.UserFromToken | app/api/endpoints/chat.py:160-176 | the token is refused exactly when it does not decode, has no `sub`, or names no user. Otherwise the result is a user with that name |
| ChatEndpoints.ChatServer.constructor | app/api/endpoints/chat.py:179 | the connection table starts empty, as do all tables; ids start at 1 |
| ChatEndpoints.ChatServer.Connect | app/api/endpoints/chat.py:190-201 | a refused token gives close code 1008 and leaves the connection table unchanged. An accepted one sets the user's entry to the new socket, replacing any earlier one |
| ChatEndpoints.ChatServer.HandleFrame | app/api/endpoints/chat.py:204-253 | a bad frame ends the loop and leaves the table, log and outbox as they were. A non-participant's frame sends exactly "Error: You are not a participant in this chat." to the sender, stores nothing, and the loop goes on. A participant's frame appends exactly one row (next id, chat, sender, text, time), and the outbox becomes the fan-out of its payload to the other online participants |
| ChatEndpoints.ChatServer.SendToOthers | app/api/endpoints/chat.py:243-253 | the outbox becomes the fan-out of the payload to the recipients' registered sockets. Per socket, it gains the payload exactly when that socket should receive it |
| ChatEndpoints.ChatServer.SendToEach | app/api/endpoints/chat.py:251-253 | the loop sends, in order, on the registered socket of each listed user who is online |
| ChatEndpoints.ChatServer.Disconnect | app/api/endpoints/chat.py:255-258 | the entry deleted is the one keyed by the socket's user id, whichever socket it holds; absent, nothing changes |
| ChatEndpoints.ChatServer.ServeEvent | app/api/endpoints/chat.py:204-258 | the end, the stored rows and the new outbox are those of `Turn` on the decided frame: the loop crashes exactly when the frame's decision is to raise. Only a disconnect touches the connection table, and an escaping exception ends the loop without touching it |
| ChatEndpoints.ChatServer.ReceiveLoop | app/api/endpoints/chat.py:203-258 | the end, the stored rows and the outbox are those of `Run` over the decided events; the log grows by exactly those rows, with consecutive ids, each by this user to a chat they belong to. The connection table loses the user's entry only on a disconnect |
| ChatEndpoints.ChatServer.TakeTurn | app/api/endpoints/chat.py:204-258 | one iteration of the loop leaves, of the whole run, exactly the run of the remaining events from the new state, and extends the log by the row it stores |
| ChatEndpoints.ChatServer.Serve | app/api/endpoints/chat.py:182-258 | a session is rejected exactly when the token is refused, and then changes nothing in the table or the log; otherwise its end, rows and outbox are those of `Run` from the freshly registered socket. The id counter advances by exactly the rows stored, and the socket is bound to the token's user only when accepted |
| ChatModels.ToPayload | app/api/endpoints/chat.py:233-239 | the payload carries the stored row's id, chat, sender, text and time, and the row can be rebuilt from it |
| ChatEndpoints.ChatServer.GetUserChats | app/api/endpoints/chat.py:25-48 | fails with "404: User not found" exactly when no user has the name. Otherwise it returns one response per joined room, and in a valid state the response ids strictly increase, that is table order without repeats |
| ChatEndpoints.ChatServer.GetChatMessages | app/api/endpoints/chat.py:120-157 | succeeds exactly when the room and the user both exist. An unknown room gives "404: Chat not found"; otherwise an unknown user gives "404: User not found". On success it returns the chat's messages in log order, without id or timestamp, and checks no membership |
| ChatEndpoints.ChatServer.CreateChat | app/api/endpoints/chat.py:51-85 | the room is always appended with the next id. An unknown user gives "404: User not found" and adds no participant row; otherwise the creator's row is added and the room returned |
| ChatEndpoints.ChatServer.AddParticipant | app/api/endpoints/chat.py:88-117 | checks, in order, for an unknown user, an unknown chat and an existing membership. It succeeds exactly when none applies, and then appends exactly one new row, so rows stay duplicate-free. A failure changes nothing |
| ChatScenarios.StaleDisconnect | app/api/endpoints/chat.py:200-201 | for any valid server and accepted token: a user connects a second socket and then the first socket disconnects, and the user is left with no registered socket while the second stays open |
| ChatScenarios.TwoMemberBroadcast | app/api/endpoints/chat.py:243-253 | in a two-member chat with both online, a post by one reaches the other's socket once and is not echoed |
| RedisLists.Range | app/redis_cache/redis_messages.py:9 | the range LTRIM keeps and LRANGE returns is never longer than the list |
| RedisLists.RangeFromZero | app/redis_cache/redis_messages.py:9 | `LTRIM key 0 stop` keeps the first `stop + 1` elements, or the whole list if it is shorter |
| RedisLists.RangeAll | app/redis_cache/redis_messages.py:15 | `LRANGE key 0 -1` returns the whole list |
| RedisLists.LPush | app/redis_cache/redis_messages.py:8 | the pushed value becomes the head of the key's list, which is created if missing; no other key changes |
| RedisLists.LTrim | app/redis_cache/redis_messages.py:9 | the key's list becomes the range, and the key is present afterwards exactly when the range is not empty; no other key changes |
| RedisLists.LRange | app/redis_cache/redis_messages.py:15 | a read returns no more elements than the list holds |
| RedisKeys.Digits | app/redis_cache/redis_messages.py:7 | decimal digits only, at least one, and a single digit exactly for numbers below 10 |
| RedisKeys.IntToString | app/redis_cache/redis_messages.py:7 | a leading minus sign exactly for negative numbers |
| RedisKeys.MessagesKey | app/redis_cache/redis_messages.py:7 | the key is `chat:`, the id in decimal, then `:messages`; the part between them is exactly the decimal id |
| RedisKeys.DigitsInjective | app/redis_cache/redis_messages.py:7 | different numbers have different digit strings |
| RedisKeys.IntToStringInjective | app/redis_cache/redis_messages.py:7 | different integers print differently |
| RedisKeys.MessagesKeyInjective | app/redis_cache/redis_messages.py:14 | two chats share a cache key exactly when they are the same chat |
| RedisMessages.DecodeAll | app/redis_cache/redis_messages.py:16 | the decoded list has one entry per stored text, each the decoding of the text at the same position |
| RedisMessages.GetCachedMessages | app/redis_cache/redis_messages.py:12-16 | the read is the whole stored list decoded, in stored order; a chat never cached reads as empty |
| RedisMessages.Cached | app/redis_cache/redis_messages.py:7-9 | `cache_message` acts on its chat's list as one push followed by a cut to positions 0 through 49, and leaves every other key's list unchanged |
| RedisMessages.PushedEvictsOldest | app/redis_cache/redis_messages.py:8-9 | below 50 entries a push only prepends; at 50 it also drops the last, oldest, entry |
| RedisMessages.CachedIsHead | app/redis_cache/redis_messages.py:7-8 | after caching, the message's text is element 0 of its chat's list |
| RedisMessages.CachedEvictsOldest | app/redis_cache/redis_messages.py:8-9 | caching below capacity only prepends and at capacity drops the oldest; the list ends with at most 50 entries |
| RedisMessages.CachedOtherChats | app/redis_cache/redis_messages.py:7-9 | caching for one chat leaves every other chat's list unchanged |
| RedisMessages.CachedAllList | app/redis_cache/redis_messages.py:8-9 | a run of `cache_message` calls for one chat acts on its list as the same run of pushes |
| RedisMessages.PushedAllNewestFirst | app/redis_cache/redis_messages.py:8-9 | a run of pushes leaves the pushed texts newest first, followed by the earlier list, cut to 50 |
| RedisMessages.SixtyPushes | app/redis_cache/redis_messages.py:8-9 | pushing m1..m60 to one chat leaves exactly m60..m11, newest first |
| RedisMessages.CachedAllFromEmpty | app/redis_cache/redis_messages.py:8-9 | a chat with no list, after a run of caching, holds the 50 newest texts, newest first |
| RedisMessages.ReadAfterCache | app/redis_cache/redis_messages.py:8-16 | when `json.loads` undoes `json.dumps`, caching m then reading gives m followed by up to 49 messages that were there before |
| RedisMessages.ReadAfterCacheAll | app/redis_cache/redis_messages.py:5-16 | messages cached in turn into an empty chat read back as themselves, newest first, at most 50 |
| RedisMessageCache.MessageCache.CacheMessage | app/redis_cache/redis_messages.py:5-9 | the keyspace becomes the push-then-trim of the old one; the message's text is at the head; the list holds at most 50 |

## Left out

- Async scheduling and concurrency: several connections run as interleaved calls on one `ChatServer`, each call running to completion. The awaits inside one handler are not interleaved.
- WebSocket transport: `accept`, `close` and the actual I/O are not modelled. A send is recorded in the socket's outbox. Sending to a socket whose loop has ended is recorded too, where the transport would raise in the sender's loop.
- JWT decoding and the token secret: `decodeToken` is an opaque function from a token to its claims.
- `json.loads` of inbound frames is the opaque `parseJson`.
- `json.dumps` and `json.loads` of cached messages are parameters; read-back assumes they round-trip.
- The database session, commits and refreshes: the tables are in-memory sequences. Ids the database assigns are consecutive counters. `func.now()` is a timestamp the caller supplies.
- The `users` table is fixed for the life of the server. User registration and login live outside this core.
- Participant rows keep only the chat and the user: the row id and `joined_at` are not modelled.
- `ISO-8601` formatting of `created_at` and the JSON text of outbound frames: a payload frame carries the structured `MessageResponse`.
- SQL results come back in table order; the source's queries have no `ORDER BY`.
- `print` logging.
- The generic `except Exception` of each REST handler is modelled only for the errors the handlers raise themselves: `HttpError(400, "<code>: <detail>")`. Driver and commit failures are not modelled there.
- ChatEndpoints.ChatServer.Subject: a `sub` claim that is present but not a string counts as absent, so the handshake is refused with 1008. This relies on python-jose's default subject check, which refuses such a token inside `jwt.decode`; python-jose is not part of this model.
- ChatEndpoints.Decide: a `chat_id` that is neither absent, null nor an integer, or an integer outside the 32-bit range of the `chat_id` column, is taken to make the driver raise, ending the loop. The same holds for a missing, null or non-string `message` from a participant, which the NOT NULL text column refuses. Which driver error is raised is not modelled. `Json` has no number with a fraction, so `{"chat_id": 1.5}` has no parse here. A boolean `chat_id` is taken to raise, although a driver may coerce `true` or `1.0` to an integer.
- ChatEndpoints.Turn: models the evidently intended loop body. As the source runs, once the session has committed a row, a denied frame and a disconnect both raise before they reply or clean up (see Findings and `ChatEndpoints.RunAsWritten`).
- ChatEndpoints.ChatServer.HandleFrame: sends the error text to a non-participant after an earlier stored row too, where the source raises first (see Findings).
- ChatEndpoints.ChatServer.Disconnect: deletes the entry after an earlier stored row too, where the source raises before the deletion (see Findings).
- ChatEndpoints.ChatServer.ServeEvent: inherits the two lines above; `ReceiveLoop` and `Serve` follow `Run`, which uses the intended `Turn`.
- ChatEndpoints.ChatServer.Serve: an exception other than a disconnect ends the loop and leaves the user's entry in the connection table. That entry points at a socket whose loop no longer runs; the model keeps it, as the source does.
- The socket loop never calls `cache_message`. The chat endpoints and the message cache are modelled as two unconnected components, as in the source.
- Lines 195-198 of app/api/endpoints/chat.py are unreachable: `get_current_user_from_token` raises instead of returning a false value. The model has no branch for them.
- The participant test at app/api/endpoints/chat.py:134-139 tests a query result object, which is always truthy, so it never rejects. `GetChatMessages` has no membership check.
- The branches at app/api/endpoints/chat.py:36-37 and 145-146 compare a list with `None` and never fire.
- The Redis client connection (`app/redis_cache/redis_client.py`) is not part of this model. The keyspace is a value that the cache operations transform.

## Findings

| source | as written | input that shows it | evidently intended | confidence | as-written member | corrected member |
|---|---|---|---|---|---|---|
| app/api/endpoints/chat.py:219-258 | the session factory at app/db/session.py:12-14 keeps the default expire-on-commit, so the commit at line 229 expires `user`. The prints at lines 220-221 and 256 then reload `user.username` lazily outside the async context, which raises before the error reply at line 222 and before the cleanup at lines 257-258 | alice, a member of chat 7 but not of chat 8, sends `{"chat_id":7,"message":"hi"}`, then `{"chat_id":8,"message":"x"}` or a disconnect | the sender gets "Error: You are not a participant in this chat." and the loop goes on; a disconnect deletes the user's entry | medium; not executed, based on SQLAlchemy's documented async behaviour | ChatEndpoints.LostReplyAsWritten | ChatEndpoints.RunDenyOrLeave |
