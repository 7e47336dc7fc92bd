# Chat service core in Dafny

This project models the core of a reactive chat backend. The core has two sides:

- **Groups.** A group service follows a cache-aside, write-through design. It sits over an authoritative group store keyed by group id and a Redis cache. The cache has one key per group, `"group:" + id`, and every entry has a 30-minute time to live.
- **Messages.** A message service sits over a table partitioned by chat id and clustered by message id in descending order. A WebSocket handler parses every incoming text frame and fills in the id and timestamps the client left out. It saves the message through the message service. Once the save succeeds, it publishes the message's JSON on a sink shared by every session.

The source's external calls become parameters of the model:

| external call | modelled as |
|---|---|
| each store call | a `Reply`: it answers, it fails, or it stalls until the enclosing `.timeout(...)` fires |
| each Redis call the group service makes | a `Reply`: it answers, it fails (the failure is swallowed), or it stalls until the enclosing `.timeout(...)` fires |
| each Redis call inside `GroupRedisService` | a `bool` that says whether the call succeeds; that class has no timeout of its own |
| the id generator and the clock | values passed in |
| the JSON mapper | a `Codec`: a decoder and an encoder, each of which may fail |

Calls that happen but change nothing, such as cache reads and store lookups, are recorded in ghost call logs. This lets a contract say, for example, that a cache hit never reads the store.

Files, one module each:

| file | module | models |
|---|---|---|
| `chat_types.dfy` | `ChatTypes` | `Option`, `Result`, ids, instants, store replies, the exceptions and their fixed messages, `PageRequest.of` paging |
| `group_model.dfy` | `GroupModel` | `Group`, `CreateGroupDto`, `GroupDto`, and `GroupMapper` |
| `group_cache.dfy` | `GroupRedis` | `GroupRedisService` as a class over the cache's key space |
| `group_service.dfy` | `GroupServices` | `GroupServiceImpl` as a class holding the store map and the cache |
| `message_table.dfy` | `MessageTable` | `Message` and the partitioned, clustered message table |
| `message_service.dfy` | `MessageServices` | `MessageServiceImpl` as a class over the table |
| `chat_socket.dfy` | `ChatSocket` | `ChatWebSocketHandler`: prepare, `toJson`, and the per-frame save-then-publish step |

Three behaviours of the code worth knowing (the model follows the code):

- `updateGroup` resets `created_at` as well as `updated_at`. Both come from fresh clock readings.
- `createGroup` wraps only a timeout, as `ServiceExceptions`. Any other store error reaches the caller unchanged, as `StoreError`.
- Ids come from the injected generator or from `UUID.randomUUID()`. The model takes them as parameters.

## Model

| member | source | states |
|---|---|---|
| ChatTypes.MessagesIdentifyFailures | src/main/java/com/chatapp/chat_service/domain/service/MessageServiceImpl.java:31-72 | Two failures have the same message exactly when they are the same failure; this covers the message service's four messages and its limit rejection, and equally the group service's (GroupServiceImpl.java lines 41, 58, 68 and 84) and the two page-request rejections. The fixed messages are pairwise distinct, only the store's passed-through error has no fixed message, and lookup failures for different ids have different messages. |
| ChatTypes.Page | src/main/java/com/chatapp/chat_service/domain/service/GroupServiceImpl.java:64 | `PageRequest.of(page, size)` skips `page * size` rows and returns at most `size` of the rest, contiguous and in order. It returns nothing past the end. |
| GroupModel.ToDomain | src/main/java/com/chatapp/chat_service/infrastructure/mapper/GroupMapper.java:21-31 | A new group takes the generated id, the request's title, description, admin and members, the first clock reading as its creation time and the second as its update time. |
| GroupModel.ToDto | src/main/java/com/chatapp/chat_service/infrastructure/mapper/GroupMapper.java:33-43 | The DTO carries every field of the group unchanged. |
| GroupModel.CreatedDtoCarriesRequest | src/main/java/com/chatapp/chat_service/infrastructure/mapper/GroupMapper.java:21-43 | A created group's DTO carries the request's title, description, admin and members, the generated id, and the two clock readings. |
| GroupModel.ToDomainDependsOnlyOnRequestFields | src/main/java/com/chatapp/chat_service/infrastructure/mapper/GroupMapper.java:21-31 | Under the same id and clock, two requests map to the same group exactly when the requests are equal. |
| GroupModel.FixedClockStampsAgree | src/main/java/com/chatapp/chat_service/infrastructure/mapper/GroupMapper.java:28-29 | When the clock does not move between its two readings, `created_at` equals `updated_at`. |
| GroupModel.ToDtoLosesNothing | src/main/java/com/chatapp/chat_service/infrastructure/mapper/GroupMapper.java:33-43 | `toDto` is injective: two groups have the same DTO exactly when they are equal. |
| GroupRedis.Key | src/main/java/com/chatapp/chat_service/infrastructure/persistence/redis/GroupRedisService.java:21-24 | A group's key is `"group:"` followed by its id, and the id can be read back out of the key. |
| GroupRedis.IdOfKeyInverse | src/main/java/com/chatapp/chat_service/infrastructure/persistence/redis/GroupRedisService.java:21-24 | Every key that names a group id is that id's key. |
| GroupRedis.KeyInjective | src/main/java/com/chatapp/chat_service/infrastructure/persistence/redis/GroupRedisService.java:24-37 | Two ids share a cache key exactly when they are the same id. |
| GroupRedis.LookupFindsOwnId | src/main/java/com/chatapp/chat_service/infrastructure/persistence/redis/GroupRedisService.java:36-44 | In a coherent cache, a group read for an id has that id. |
| GroupRedis.LookupAfterStored | src/main/java/com/chatapp/chat_service/infrastructure/persistence/redis/GroupRedisService.java:23-44 | Reading a group right after writing it returns it. Reads of other ids are unaffected. |
| GroupRedis.StoredCoherent | src/main/java/com/chatapp/chat_service/infrastructure/persistence/redis/GroupRedisService.java:20-27 | A write keeps every entry under its own group's key with the 30-minute TTL. |
| GroupRedis.CacheAllCoherent | src/main/java/com/chatapp/chat_service/infrastructure/persistence/redis/GroupRedisService.java:57-60 | `saveAll` keeps the cache coherent, whichever writes land. |
| GroupRedis.CacheAllLastWriteWins | src/main/java/com/chatapp/chat_service/infrastructure/persistence/redis/GroupRedisService.java:57-60 | After `saveAll`, the cache holds, for each id, the last group of the list with that id whose write landed. |
| GroupRedis.CacheAllKeepsOtherKeys | src/main/java/com/chatapp/chat_service/infrastructure/persistence/redis/GroupRedisService.java:57-60 | `saveAll` leaves every key that none of its landed writes names exactly as it was. |
| GroupRedis.GroupRedisService.SaveGroup | src/main/java/com/chatapp/chat_service/infrastructure/persistence/redis/GroupRedisService.java:23-34 | Issues one SET of the group's key with the TTL and returns the group even when the write fails. The write changes the cache only when it lands. |
| GroupRedis.GroupRedisService.GetGroupById | src/main/java/com/chatapp/chat_service/infrastructure/persistence/redis/GroupRedisService.java:36-44 | Issues one GET and changes nothing. A failed read counts as not cached. A hit has the requested id. |
| GroupRedis.GroupRedisService.DeleteGroup | src/main/java/com/chatapp/chat_service/infrastructure/persistence/redis/GroupRedisService.java:46-55 | Issues a DEL then a GET of the same key; a failed DEL is swallowed. After a landed DEL, the follow-up read is always empty. |
| GroupRedis.GroupRedisService.SaveAll | src/main/java/com/chatapp/chat_service/infrastructure/persistence/redis/GroupRedisService.java:57-60 | Returns every group given. Issues one SET per group. Leaves the cache as the writes, applied in list order, make it. |
| GroupServices.RevisionKeepsOnlyTheId | src/main/java/com/chatapp/chat_service/domain/service/GroupServiceImpl.java:88-98 | An update overwrites every field but the id, including the creation time. Two groups with the same id revise to the same group. |
| GroupServices.GroupService.CreateGroup | src/main/java/com/chatapp/chat_service/domain/service/GroupServiceImpl.java:32-43 | Saves the mapped group to the store, then to the cache, and returns its DTO. The cache is written only after a successful save, and a failed cache write is swallowed. A store error passes through unchanged, and a stalled store becomes the create timeout; neither changes the store or the cache. A cache write that stalls also gives the create timeout, although the store row is already written. |
| GroupServices.GroupService.GetGroupById | src/main/java/com/chatapp/chat_service/domain/service/GroupServiceImpl.java:45-60 | A cache hit is returned without reading the store. On a miss, the store is read: a found group is cached and returned, an absent id gives an empty result, and a store failure gives "Failed to find group by id". A cache read or write that stalls also gives that failure, and a stalled read never reaches the store. The store never changes, and every group returned has the requested id. |
| GroupServices.GroupService.GetAllGroup | src/main/java/com/chatapp/chat_service/domain/service/GroupServiceImpl.java:62-70 | A negative page and a size below one are rejected before any query. A store failure gives "Failed to fetch all groups". Otherwise the call succeeds with exactly the page's rows, `min(size, n - page * size)` of them where `n` is the number of stored groups, each the DTO of the stored row at position `page * size + i`, in store order. The cache is not read. |
| GroupServices.PagedGroupsAreStored | src/main/java/com/chatapp/chat_service/domain/service/GroupServiceImpl.java:62-70 | Every DTO a page returns is the DTO of the stored group with that id. |
| GroupServices.GroupService.UpdateGroup | src/main/java/com/chatapp/chat_service/domain/service/GroupServiceImpl.java:72-86 | Loads the group from the store, never from the cache. An absent id gives an empty result and changes nothing. Otherwise saves the revised group, then caches it. Every store failure becomes "Failed to update group" and leaves the store and the cache unchanged. A cache write that stalls also gives "Failed to update group", although the store already holds the revised group. |
| GroupServices.GroupService.Revise | src/main/java/com/chatapp/chat_service/domain/service/GroupServiceImpl.java:88-101 | Sets the loaded group's fields from the request and two clock readings, then saves it. On success the store holds the revised group under the same id; on failure the store is unchanged. |
| MessageTable.UpsertKeepsClustering | src/main/java/com/chatapp/chat_service/domain/model/Message.java:21-25 | Writing a row into a partition keeps it strictly descending by message id. The partition then holds the row plus every old row with a different id. |
| MessageTable.StoreKeepsTable | src/main/java/com/chatapp/chat_service/domain/model/Message.java:21-25 | A save keeps every partition clustered and holding only its own chat's rows. It puts the message into its chat's partition, replaces only the row with the same id, and leaves other chats alone. |
| MessageTable.FindIn | src/main/java/com/chatapp/chat_service/domain/service/MessageServiceImpl.java:37-38 | A lookup by id in a partition returns a row with that id, or nothing when no row has it. |
| MessageTable.NewestByIdNeedNotBeNewestByTime | src/main/java/com/chatapp/chat_service/domain/service/MessageServiceImpl.java:62-63 | Descending message-id order is not creation order: a clustered partition can list an older message before a newer one. |
| MessageServices.RecentMessages | src/main/java/com/chatapp/chat_service/domain/service/MessageServiceImpl.java:57-73 | A limit outside 1 to 1000 fails with "Limit 1 .. 1000", whatever the store would do. A failed store gives "Error fetching recent messages". No answer has more than `limit` messages. |
| MessageServices.RecentMessagesAreNewestById | src/main/java/com/chatapp/chat_service/domain/service/MessageServiceImpl.java:57-73 | With a valid limit, the answer is the first `min(limit, n)` rows of the chat's partition, where `n` is the partition's size. The rows are in strictly descending id order and all belong to the chat. Every row left out has a smaller id than every row returned. |
| MessageServices.SentMessageIsFound | src/main/java/com/chatapp/chat_service/domain/service/MessageServiceImpl.java:26-43 | A message the store accepted is returned as saved, and a lookup of its id in its chat finds exactly that message. |
| MessageServices.MessageService.SendAMessage | src/main/java/com/chatapp/chat_service/domain/service/MessageServiceImpl.java:26-34 | A keyed message the store accepts is upserted and returned. Anything else gives "Error saving message" and leaves the table unchanged. The table stays well formed. |
| MessageServices.MessageService.GetMessageByID | src/main/java/com/chatapp/chat_service/domain/service/MessageServiceImpl.java:36-43 | Returns a row exactly when some partition holds a row with that id, and the row returned has that id. A failed store gives "Error fetching message". |
| MessageServices.MessageService.GetMessageByChatID | src/main/java/com/chatapp/chat_service/domain/service/MessageServiceImpl.java:45-55 | Returns the chat's whole partition in clustering order, every row of that chat. A failed store gives "Error fetching messages". |
| MessageServices.MessageService.GetRecentMessages | src/main/java/com/chatapp/chat_service/domain/service/MessageServiceImpl.java:57-73 | An invalid limit issues no repository call. A valid one issues exactly one paged query: page 0, `limit` rows, sorted by `messageId` descending. |
| ChatSocket.Prepared | src/main/java/com/chatapp/chat_service/api/socketApi/ChatWebSocketHandler.java:47-58 | An unparsable frame yields nothing. Otherwise a missing id becomes the frame's fresh random id, a missing creation time the first clock reading, and a missing update time the second. Every value the client sent is kept, and chat, sender, content and status pass through unchanged. |
| ChatSocket.PreparedIsIdempotent | src/main/java/com/chatapp/chat_service/api/socketApi/ChatWebSocketHandler.java:50-52 | Preparing an already prepared message changes nothing, whatever the new id and clock. |
| ChatSocket.ToJson | src/main/java/com/chatapp/chat_service/api/socketApi/ChatWebSocketHandler.java:60-66 | The text is the encoder's output, or `"{}"` when the encoder throws. With an encoder the decoder inverts, the text reads back as the message unless it is the placeholder. |
| ChatSocket.FrameStep | src/main/java/com/chatapp/chat_service/api/socketApi/ChatWebSocketHandler.java:29-38 | A frame is published exactly when it parses, names a chat, and the store accepts the save. A published frame changes the table by exactly one save (upsert) of its prepared message, and what is published is that message's JSON. A frame that is not published leaves the table unchanged. |
| ChatSocket.FrameStepKeepsTableWellFormed | src/main/java/com/chatapp/chat_service/api/socketApi/ChatWebSocketHandler.java:31-33 | Handling one frame keeps the message table well formed. |
| ChatSocket.FrameStepStoresWhatItPublishes | src/main/java/com/chatapp/chat_service/api/socketApi/ChatWebSocketHandler.java:32-33 | Whatever is published for a frame is the JSON of that frame's prepared message, which the table then holds in its chat's partition. |
| ChatSocket.PumpPublishesAnnouncements | src/main/java/com/chatapp/chat_service/api/socketApi/ChatWebSocketHandler.java:28-38 | A session publishes, in arrival order, the JSON of exactly those frames that parse, name a chat and are accepted by the store, whatever the table held. |
| ChatSocket.PumpKeepsTableWellFormed | src/main/java/com/chatapp/chat_service/api/socketApi/ChatWebSocketHandler.java:28-38 | Handling a session's frames keeps the message table well formed. |
| ChatSocket.MalformedFrameIsInvisible | src/main/java/com/chatapp/chat_service/api/socketApi/ChatWebSocketHandler.java:47-57 | A frame the mapper cannot read leaves the table and the published output exactly as if it had never arrived. |
| ChatSocket.ChatWebSocketHandler.ParseAndPrepareMessage | src/main/java/com/chatapp/chat_service/api/socketApi/ChatWebSocketHandler.java:47-58 | Decodes the frame, then sets each missing field in turn; the result is the prepared message. |
| ChatSocket.ChatWebSocketHandler.HandleFrame | src/main/java/com/chatapp/chat_service/api/socketApi/ChatWebSocketHandler.java:29-37 | Saves through the service and appends the saved message's JSON to the sink only when the save succeeds. The table and the sink end as one frame step leaves them. |
| ChatSocket.ChatWebSocketHandler.Handle | src/main/java/com/chatapp/chat_service/api/socketApi/ChatWebSocketHandler.java:28-45 | Handles a session's frames one after another. The table and the sink end as the session's frame steps leave them. |

## Left out

- Output side of `handle`: the session's `send` of the sink's flux, and `Mono.zip`, are not modelled. The sink is modelled as the sequence of texts published to it, and every subscriber is taken to see all of them.
- Publish failures: with no subscriber, `emitNext` drops the value. With `FAIL_FAST` it throws only when two sessions emit at the same moment; that throw happens inside `doOnNext`, so the `onErrorResume` swallows it and the message stays saved but is never published. Neither case is modelled; every emission is taken to reach the sink.
- Concurrency: the per-frame `flatMap` and the `flatMap(saveGroup, 8)` of `saveAll` may interleave. Both are modelled as running in order, so reordered completions and reordered output are not captured.
- TTL expiry: the time-to-live is recorded on every entry, but entries never expire in the model.
- The clustering comparator: the table's order on message ids is modelled as lexicographic order of the ids' text, not Cassandra's UUID comparator.
- Sort property: `getRecentMessages` asks for `Sort.by("messageId")` while the entity's field is `messageID`. The model takes the query to return rows in the table's clustering order and does not model how the driver resolves that property name.
- Paged queries: the model assumes that `findAllBy(PageRequest.of(page, size))` and `findByChatId(chatId, PageRequest.of(0, limit, ...))` return exactly the rows from position `page * size` on, at most `size` of them. How the Cassandra repository applies a plain `PageRequest` to a reactive query is not part of this model.
- Store row order for `getAllGroup`: the order of `findAllBy` is a parameter (`scan`), required to list every stored id exactly once.
- Failed or stalled writes: a store write that fails or times out is taken not to have landed. A write that lands after the timeout fired is not modelled.
- Partial streams: `getMessageByChatID` and `getAllGroup` either complete or fail as a whole. Rows emitted before a mid-stream error are not modelled.
- Logging: log statements are left out.
- The JSON mapper: Jackson's reading and writing are a parameter (`Codec`). The JSON text format is not modelled.
- The data stores themselves: Redis's and ScyllaDB's own behaviour beyond a key-value map and a partitioned, clustered table is not modelled.
- Timeouts: `.timeout(...)` durations are not modelled as time. A stall is one outcome of a store or group-service cache call, and only the enclosing operation's error mapping applies to it. A cache write that stalls is taken not to land.
- Error-message detail: `createGroup` passes a store error through with the store's own message, which the model does not know (`StoreError`). `updateGroup`'s exception also carries its cause, which is not modelled.
