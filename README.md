# Message delivery of the yapester chat app, in Dafny

This project models how the chat app delivers messages and tracks them. It covers four parts:

- **Conversation key.** Every component derives it the same way, as `[a, b].sort().join("_")` over two user ids.
- **Socket server** (`server/server.js`). It is one sequential state machine. It holds the `onlineUsers` presence set, the message store with each record's mutable status (`sent`, `delivered`, `seen`), and the log of pushes it emits to rooms (`io.to(id)`) and to every socket (`io.emit`).
- **Conversation fetch route** (`server/routes/messageRoutes.js`) and **the message schema** (`server/models/Message.js`).
- **The chat page** (`client/src/pages/Chat.jsx`). This is its message cache, unread counters, seen acknowledgements, send guard and follow-request bookkeeping.

Module layout, one module per file:

- `Addressing` (`addressing.dfy`): `ConversationId`, which is proved commutative, and injective on unordered pairs of ids without `_`.
- `MessageSchema` (`message_schema.dfy`): the record, the status enum and its default, and what `Message.create` accepts.
- `MessageRoutes` (`message_routes.dfy`): `GET /:userId`, which filters by key, sorts by `createdAt`, and answers 500 on failure.
- `Server` (`server.dfy`): the pure bulk `seenMessage` update and class `ChatServer`, whose methods are the socket handlers.
- `ChatClient` (`chat_client.dfy`): the page's pure updaters and predicates, and class `ChatView`, whose methods sequence them as the socket handlers, effects and actions do.
- `EndToEnd` (`end_to_end.dfy`): lemmas across the components, plus three scenario methods (`DeliveryScenario`, `SeenScenario`, `TwoTabsScenario`).
- `Wrappers` (`wrappers.dfy`): `Option` and `Result`.

How the model stands in for the outside world:

- **Clock.** It is a counter in `ChatServer`. Each record gets the current value as `createdAt`.
- **Store failures.** A `storeUp` parameter stands for a database that is unreachable or throws.
- **Emits.** They are appended to `ChatServer.pushes` on the server and to `ChatView.outbox` on the page.
- **HTTP calls made by the page.** They are parameters: the fetched list is passed to `OnConversationLoaded`, the follow request's outcome is passed to `SendFollow`, and the disconnect request's outcome with the reloaded connections is passed to `DisconnectPeer`.

Where the code does something other than one might expect, the model follows the code:

- **Receiver push.** It is unconditional. `privateMessage` pushes the `delivered` copy to the receiver's room whether or not the receiver is online, and no online check exists.
- **Presence.** It is a plain set, not a connection count. Closing one of two sockets that joined as the same user removes that user (`ChatServer.Disconnect`, `TwoTabsScenario`). So "online after N joins and M leaves iff N − M > 0" does not hold.
- **A socket whose `userId` is the empty string.** `if (socket.userId)` treats the empty string as false, so disconnecting such a socket leaves the set as it is. The model keeps this.
- **No authorization check on the socket handlers.** Any socket may send as any sender. The only guard is the page's `sendMessage` check.
- **The `delivered` status.** The enum allows it, but no handler stores it. `ChatServer.Valid` keeps the invariant that stored rows are only `sent` or `seen`. `delivered` is only the label on the receiver's push.

How the page's effects are modelled (`useEffect`):

- **Re-joining.** The socket effect depends on `selectedUser`, so every change of the open conversation emits `join` again: choosing a different peer (`ChatView.Select`), and closing the open conversation after a disconnect (`ChatView.DisconnectPeer`). Clicking the peer who is already open sets the same value, so React runs no effect and `Select` changes nothing.
- **The seen effect.** The effect on `[messages, selectedUser]` runs after every change to the cache, and `ChatView` reruns it after each change.
- **Seen is emitted twice on load.** When a fetched conversation has unseen messages, the loader emits `seenMessage`, and the rerun of the seen effect emits it again. The server's idempotence (`MarkSeenIdempotent`) makes the second one change nothing and send no notification.

## Model

| member | source | states |
|---|---|---|
| Addressing.ConversationId | server/server.js:56 | the key is one of the two joins `a_b` or `b_a`, and its length is the sum of the ids' lengths plus one |
| Addressing.Commutative | client/src/pages/Chat.jsx:36 | the key of (a, b) equals the key of (b, a) |
| Addressing.SmallerIdFirst | server/routes/messageRoutes.js:12 | the lexicographically smaller id comes first in the key |
| Addressing.SplitJoin | server/server.js:86 | a join of two ids without `_` splits back into exactly those two ids |
| Addressing.Injective | server/server.js:56 | two pairs of ids without `_` have the same key only if they are the same unordered pair |
| MessageSchema.ParseStatus | server/models/Message.js:25-27 | a status string is accepted iff it is `sent`, `delivered` or `seen`, and it parses to the status with that name |
| MessageSchema.StatusNameRoundTrip | server/models/Message.js:25-27 | every status's name parses back to that status |
| MessageSchema.StatusOf | server/models/Message.js:28 | a draft without a status gets `sent`; otherwise it gets the status it names |
| MessageSchema.ObjectIdIsWellFormed | server/models/Message.js:5-14 | an id that casts to an ObjectId contains no `_` |
| MessageSchema.Create | server/models/Message.js:3-32 | creation succeeds iff the store is up, sender and receiver are present and castable ids, and text and conversationId are present and non-empty; the record copies the draft, has the default or named status and has `createdAt = now`; a missing required field always fails; an invalid draft always fails with the validation error naming exactly its failing paths, whether or not the store is up; a valid draft with the store down fails with StoreUnavailable |
| MessageRoutes.ByConversation | server/routes/messageRoutes.js:14 | every returned record has the key; each record with the key appears as often as in the store, and no other record appears |
| MessageRoutes.InsertByCreatedAt | server/routes/messageRoutes.js:14 | inserting into a list sorted by createdAt keeps it sorted and adds exactly that record |
| MessageRoutes.SortByCreatedAt | server/routes/messageRoutes.js:14 | the result is in non-decreasing createdAt order and is a permutation of the input |
| MessageRoutes.SortKeepsSortedInput | server/routes/messageRoutes.js:14 | sorting a list already in createdAt order returns it unchanged |
| MessageRoutes.GetConversation | server/routes/messageRoutes.js:7-21 | with the store up, the answer is a JSON list of exactly the stored records with the derived key, each as often as stored and none dropped, in non-decreasing createdAt order; when the query throws, the answer is status 500 with the error body and no messages |
| MessageRoutes.SameConversationForBoth | server/routes/messageRoutes.js:12 | (me, other) and (other, me) get the same answer |
| MessageRoutes.ByConversationKeepsOrder | server/routes/messageRoutes.js:14 | in a store whose createdAt values increase, the records of one conversation are in createdAt order |
| MessageRoutes.OrderedStoreFetchedInStoreOrder | server/routes/messageRoutes.js:14 | in a store whose createdAt values increase, the fetch returns the conversation's records in store order |
| MessageRoutes.ByConversationAppend | server/routes/messageRoutes.js:14 | an appended record shows up at the end of its own conversation and leaves every other conversation as it was |
| Server.MarkSeen | server/server.js:88-95 | exactly the records with that key, that receiver and a status other than seen become seen; every other record is unchanged |
| Server.SeenCount | server/server.js:97 | the modified count is at most the store size, and it is zero iff no record matches the update's filter |
| Server.SeenCountIsModifiedCount | server/server.js:88-97 | the modified count equals the number of store positions whose record the bulk update changes |
| Server.MarkSeenMonotone | server/server.js:88-95 | the bulk update never moves a status backwards |
| Server.MarkSeenIdempotent | server/server.js:88-99 | a second update with nothing appended in between changes nothing and modifies zero records |
| Server.MarkSeenKeepsInvariant | server/server.js:88-95 | the bulk update keeps every stored record valid, never stores `delivered`, and keeps createdAt increasing |
| Server.ChatServer.constructor | server/server.js:41 | the server starts with an empty set, an empty store, no pushes and no sockets |
| Server.ChatServer.Connect | server/server.js:43 | a new socket gets a fresh id and has not joined |
| Server.ChatServer.Join | server/server.js:46-51 | the socket is bound to the user, the user is in the set, and the new set is broadcast to every socket |
| Server.ChatServer.PrivateMessage | server/server.js:54-81 | the message is created iff the store is up, both ids cast and the text is non-empty; then exactly one record with status sent, the derived key and the next createdAt is appended, earlier records are untouched, and the sender's room gets the record labelled sent and then the receiver's room gets it labelled delivered; otherwise nothing is stored or pushed |
| Server.ChatServer.SeenMessage | server/server.js:84-103 | with the store up and a castable receiver, the store becomes MarkSeen of the old store, the count is SeenCount, and `messageSeen` with the key goes to the sender's room only when the count is positive; otherwise nothing changes and nothing is pushed |
| Server.ChatServer.Disconnect | server/server.js:105-111 | a socket that joined as a non-empty id removes that id from the set, even if other sockets joined as it, and broadcasts the set; a socket with no id leaves the set and the pushes unchanged |
| ChatClient.AppendIncoming | client/src/pages/Chat.jsx:92-98 | the push is appended at the end of its conversation's entry, which is created if absent; every other entry is unchanged |
| ChatClient.OwnSeen | client/src/pages/Chat.jsx:114-118 | every message `me` sent becomes seen; every other message is unchanged |
| ChatClient.MarkOwnSeen | client/src/pages/Chat.jsx:111-120 | in that conversation, the messages `me` sent become seen and the others are unchanged; every other conversation is unchanged |
| ChatClient.MarkOwnSeenIdempotent | client/src/pages/Chat.jsx:111-120 | applying the `messageSeen` updater twice gives the same cache as applying it once |
| ChatClient.MarkOwnSeenMonotone | client/src/pages/Chat.jsx:114-118 | the `messageSeen` updater never moves a cached status backwards |
| ChatClient.CountUnread | client/src/pages/Chat.jsx:100-108 | when the sender is neither the open peer nor me, the sender's counter goes up by exactly one; otherwise the counters are unchanged; other counters never change |
| ChatClient.CountUnreadMonotone | client/src/pages/Chat.jsx:100-108 | no counter decreases on arrival, and only the sender's may change |
| ChatClient.ResetUnread | client/src/pages/Chat.jsx:161 | opening a conversation sets that peer's counter to 0 and leaves the others alone |
| ChatClient.HasUnseenIncoming | client/src/pages/Chat.jsx:146-151 | true iff some message has sender = peer, receiver = me and a status other than seen |
| ChatClient.SeenEffect | client/src/pages/Chat.jsx:164-183 | emits one `seenMessage {peer, me}` iff a peer is open and its cached conversation has an unseen message to me; otherwise emits nothing |
| ChatClient.IsConnected | client/src/pages/Chat.jsx:190-195 | true iff some connection has the id as sender or receiver and a status other than `disconnected` |
| ChatClient.IsRequested | client/src/pages/Chat.jsx:197-202 | true iff some sent request names the id, as a bare id or as a populated user |
| ChatClient.HasUserReceiver | client/src/pages/Chat.jsx:220 | true iff some sent request names the id in populated form |
| ChatClient.AddSentRequest | client/src/pages/Chat.jsx:219-223 | the list is unchanged if a populated entry for the id exists; otherwise exactly one entry for it is appended |
| ChatClient.AddSentRequestProperties | client/src/pages/Chat.jsx:219-223 | after a follow the id shows as requested, a second follow changes nothing, and no other id's requested state changes |
| ChatClient.DedupeMissesBareIdForm | client/src/pages/Chat.jsx:197-223 | a request listed by bare id already counts as requested, yet following again appends a second entry |
| ChatClient.TrimStart | client/src/pages/Chat.jsx:265 | the result is a suffix; everything removed is white space; the result does not start with white space |
| ChatClient.TrimEnd | client/src/pages/Chat.jsx:265 | the result is a prefix; everything removed is white space; the result does not end with white space |
| ChatClient.Trim | client/src/pages/Chat.jsx:265 | the trimmed text is a slice of the input with only white space before and after it, and it is empty or starts and ends with a character that is not white space |
| ChatClient.TrimEmptyIff | client/src/pages/Chat.jsx:265 | the trimmed text is empty iff every character is white space |
| ChatClient.CanSend | client/src/pages/Chat.jsx:264-266 | sending is allowed iff the input has a character that is not white space, a peer is selected, and the peer is connected |
| ChatClient.ChatView.constructor | client/src/pages/Chat.jsx:86-90 | the loaded page starts with nothing selected, empty caches and counters, and emits `join` with its own id |
| ChatClient.ChatView.OnNewMessage | client/src/pages/Chat.jsx:92-109 | the cache becomes AppendIncoming, the counters become CountUnread, and the seen effect runs again |
| ChatClient.ChatView.OnMessageSeen | client/src/pages/Chat.jsx:111-120 | the cache becomes MarkOwnSeen for the notified conversation, and the seen effect runs again |
| ChatClient.ChatView.OnOnlineUsers | client/src/pages/Chat.jsx:122 | the online list becomes the pushed list, or empty when the payload is missing |
| ChatClient.ChatView.Select | client/src/pages/Chat.jsx:87-183 | the peer is selected; if it was not already open, `join` is emitted again, the peer's counter becomes 0, and the seen effect runs over the cached conversation; clicking the open peer changes no counter and emits nothing |
| ChatClient.ChatView.OnConversationLoaded | client/src/pages/Chat.jsx:138-159 | the conversation's cache entry is replaced by the fetched list, or by an empty list for a missing payload; `seenMessage` is emitted twice iff the list has an unseen message from the peer, and nothing is emitted otherwise |
| ChatClient.ChatView.Type | client/src/pages/Chat.jsx:522 | the input becomes the typed text |
| ChatClient.ChatView.SendMessage | client/src/pages/Chat.jsx:264-275 | when CanSend holds, exactly one `privateMessage` carrying the untrimmed input is emitted and the input is cleared; otherwise nothing is emitted and the input is kept |
| ChatClient.ChatView.SendFollow | client/src/pages/Chat.jsx:212-230 | on success the sent requests become AddSentRequest and the notice says sent; on failure the list is kept and the notice says failed |
| ChatClient.ChatView.DisconnectPeer | client/src/pages/Chat.jsx:242-262 | when the disconnect request fails, only the failure notice changes; when it succeeds, the open conversation is closed, `join` is emitted again if a peer was open, and the connections become the reloaded list (empty for a missing payload) with the disconnected notice, or stay as they were with the failure notice when the reload fails |
| EndToEnd.FetchedIffStored | server/routes/messageRoutes.js:14 | a record is fetched iff it is stored under the conversation's key |
| EndToEnd.UnseenFetchedIsEligible | client/src/pages/Chat.jsx:146-158 | if the fetched list has an unseen message from the peer, the server's update has a record to modify |
| EndToEnd.EligibleIsUnseenFetched | server/server.js:88-99 | if the server's update has a record to modify, the fetched list shows an unseen message from the peer |
| EndToEnd.ClientSeenMatchesServer | client/src/pages/Chat.jsx:146-158 | the page emits `seenMessage` after a fetch iff the server's bulk update then modifies at least one record, which is exactly when the sender is notified |
| EndToEnd.SeenAcknowledgementSettles | server/server.js:88-99 | after the server's update, a new fetch gives the page nothing more to acknowledge |
| EndToEnd.LivePushExtendsFetch | server/server.js:68-77 | a page that caches the fetched conversation and receives a new record's push caches the old fetch plus the pushed copy; for the sender's `sent` copy this equals a fresh fetch |

## Left out

- Socket.io room fan-out and transport. A push is recorded with its target room, or as a broadcast. Which sockets receive it, `socket.join`'s room membership and lost pushes are not modelled.
- The order of the broadcast presence list. The server sends `Array.from(onlineUsers)`, whose order is insertion order; `OnlineUsers` carries a set because the page only tests membership.
- Mongoose and MongoDB. The store is an in-memory sequence, and `updateMany` is one atomic step. Concurrent handlers are not modelled: each handler runs to completion before the next one starts.
- Fields of the stored document not used by this core: `_id`, `__v` and `updatedAt` (which `timestamps` also sets, and which the bulk update changes).
- Clock ties. `createdAt` comes from a strictly increasing counter, but real timestamps can tie, and the database does not fix the order of records with equal timestamps.
- MessageSchema.Create: only 24 lower-case hexadecimal digits count as a castable ObjectId. Mongoose also accepts other spellings, such as upper-case digits, and normalises them. The model treats those as cast failures, in creation and in the `seenMessage` filter alike.
- Socket payload fields that are missing or not strings. The handlers take strings. The missing-field case is modelled only at `Message.create`.
- Addressing.ConversationId: string order compares characters by code point. JavaScript compares UTF-16 code units, which differs only for characters outside the Basic Multilingual Plane, and hexadecimal ids contain none.
- Console logging in the handlers and the catch blocks.
- The `protect` middleware and the authenticated user lookup. The route takes the caller's id as a parameter. Follow, accept, reject and disconnect endpoints, `/api/users/me` and the users list are external.
- Page UI: rendering, the search filter, `scrollIntoView`, `window.location`, `sessionStorage`, `logout`, and the timer that clears the notice after three seconds.
- Page HTTP: the `axios` requests themselves. Their answers are method parameters. A fetch that completes after the selection has changed is not modelled: `OnConversationLoaded` assumes the peer is still selected.
- React details: removing and re-registering the socket listeners (`socket.off()`), and state updates batched together.
- `acceptRequest` and `rejectRequest` on the page. They only call external endpoints and reload the page. The disconnect endpoint itself is external; the page's side of `disconnectUser` is `ChatView.DisconnectPeer`, which ignores the id because it only goes into the request URL.
- The `isOnline` helper on the page. It is a single list membership test.
- `client/src/pages/ForgotPassword.jsx` and `client/src/services/api.js`: a form and an HTTP wrapper, outside the delivery logic.
