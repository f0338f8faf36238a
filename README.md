# Chat client state: conversations, messages, presence

This project models the in-memory state of a React chat client and proves
properties of it. The state lives in three context providers:

- **ConversationContext** keeps the conversation list. REST hydration
  replaces it, a local create prepends to it, and a local delete filters it
  once the REST call has resolved. Mark-read zeroes an unread count. The push
  events `conversation:created` (insert if absent) and `conversation:deleted`
  (filter) change it too, as do `receiveMessage` and `messageSent`, which
  move the target conversation to the head with a new summary.
  `receiveMessage` also raises the unread count.
- **MessageContext** keeps one message list, the active conversation id and
  the per-user typing flags. A fetch replaces the list with one
  conversation's history; a pushed message of any conversation is appended
  to it unless its `_id` is already listed. It also does an optimistic send
  (append a temp message, then swap in the server copy), an optimistic edit
  (merge, then swap in the server copy), an optimistic delete, and typing
  flags with a scheduled expiry.
- **SocketContext** keeps the socket and connection flags and the presence
  list `onlineUsers`, and guards its emits with `socket && isConnected`.

Every `setX(prev => …)` updater is a Dafny function from the previous list
(or map) to the next one. Each provider is a class whose fields are its
`useState` variables. Each async operation is one method. The REST reply it
awaits is a parameter: `Rest<T>` = `Resolved(value)` | `Rejected(reason)`,
or `Outcome` for calls whose value is ignored. The handlers of
`receiveMessage` and `messageSent` copy the array and change it step by step
(`findIndex`, `splice`, `unshift`). They are written that way in `Promote`
and `FindIndex`, and proved equal to the specification function
`MoveToFront`. Events handed to a socket are returned as `Emission` values.
`SocketProvider` appends them to an `outbox` field instead. Wall-clock
timestamps (`new Date().toISOString()`) are a `now` parameter.

Files: `wrappers.dfy` (optional values, REST outcomes, JavaScript
truthiness of a string), `seqs.dfy` (filtering by key, key membership,
distinct keys, subsequences), `chat_types.dfy` (the records),
`conversations.dfy`, `messages.dfy`, `sockets.dfy`.

### Behaviour of the code worth knowing

- Nothing sorts: conversations are ordered only by the move-to-front of
  `receiveMessage` and `messageSent`, messages by arrival.
- A message carries no pending or failed status. A failed send keeps the
  temp message in the list (`SendNewMessage`); a failed edit keeps the
  merge and a failed delete keeps the removal (`UpdateMessage`,
  `DeleteMessage`).
- The message list is not tied to the active conversation. A pushed
  message of any conversation is appended (`ForeignMessageIsListed`), and a
  fetch joins the new room without leaving the old one (`FetchMessages`).
- The unread increment of `receiveMessage` does not look at which
  conversation is active or who sent the message (`OnReceiveMessage`).
- `latestMessage` is not recomputed after a message is deleted.
- The typing expiry is 3000 ms and its timers are never cancelled, neither
  by a later `typing = true` nor by `typing = false`. The first timer to fire
  clears the flag while the refresh's own timer is still pending
  (`EarlierTimerClearsRefresh`).
- Only `conversation:created` and `receiveMessage` check membership.
  `createNewConversation` prepends without a check, so a push that arrives
  before the REST reply leaves two entries with the same `_id`
  (`PushThenCreateDuplicates`). The reverse order keeps one entry
  (`CreateThenPushKeepsOneEntry`).
- The swap that confirms a send does not check membership either. If the
  pushed copy of the message arrives before the REST reply, the list holds
  it twice (`EchoBeforeConfirmDuplicates`). In the other order the echo adds
  nothing (`EchoAfterConfirmAddsNothing`).
- `fetchMessages` joins the room with `socket?.emit`. That checks for a
  socket but not for a connection, unlike the provider's guarded emits
  (`FetchMessages` against `CanEmit`).

## Model

| member | source | states |
|---|---|---|
| `Conversations.TargetId` | src/features/chat/context/ConversationContext.tsx:124-125 | the target id is the conversation reference when it is truthy and otherwise the chat reference; None, so no change, exactly when neither is a non-empty string |
| `Conversations.MarkRead` | src/features/chat/context/ConversationContext.tsx:90-96 | same length and ids at every position; every entry with the id reads 0 unread with all other fields kept; every other entry is identical |
| `Conversations.MarkReadIdempotent` | src/features/chat/context/ConversationContext.tsx:90-96 | marking read twice equals marking read once |
| `Conversations.InsertIfAbsent` | src/features/chat/context/ConversationContext.tsx:111-116 | unchanged if the `_id` is listed; otherwise the new conversation is at index 0 with the old list behind it in order; afterwards the id is listed, and distinct ids stay distinct |
| `Conversations.InsertIfAbsentIdempotent` | src/features/chat/context/ConversationContext.tsx:111-116 | a duplicate `conversation:created` changes nothing |
| `Conversations.CreateThenPushKeepsOneEntry` | src/features/chat/context/ConversationContext.tsx:111-116 | after a local create's prepend, the push for the same conversation is a no-op and ids stay distinct |
| `Conversations.PushThenCreateDuplicates` | src/features/chat/context/ConversationContext.tsx:62-73 | when the push is applied before the REST create's prepend, two entries share the `_id` |
| `Conversations.RemoveById` | src/features/chat/context/ConversationContext.tsx:118-120 | no entry with the id remains; every other entry remains, in order (a subsequence of the input), as many times as it occurred; the list is unchanged exactly when the id was absent |
| `Conversations.FirstIndex` | src/features/chat/context/ConversationContext.tsx:129 | -1 exactly when no entry has the id; otherwise an index holding the id with no match before it |
| `Conversations.FindIndex` | src/features/chat/context/ConversationContext.tsx:129 | the `findIndex` loop returns the first matching index, or -1 |
| `Conversations.Touched` | src/features/chat/context/ConversationContext.tsx:133-139 | the moved conversation keeps its id, participants and creation time, takes the message content as summary and the new time, and its unread count goes up by one when counted (a missing count becoming 1) or is kept when not |
| `Conversations.MoveToFront` | src/features/chat/context/ConversationContext.tsx:127-142 | length preserved; unchanged without a match; otherwise index 0 holds the first match with the new summary and time, its other fields kept, and unread raised by 1 (counted move) or kept (uncounted move), while the rest is the old list without that entry, in order |
| `Conversations.Promote` | src/features/chat/context/ConversationContext.tsx:127-142 | the copy/`findIndex`/`splice`/`unshift` steps, including `unreadCount ? unreadCount + 1 : 1`, compute `MoveToFront` |
| `Conversations.MoveToFrontKeepsOthers` | src/features/chat/context/ConversationContext.tsx:128-139 | the conversations with other ids appear in the same relative order before and after |
| `Conversations.MoveToFrontPermutes` | src/features/chat/context/ConversationContext.tsx:128-139 | the new list is the old one with the moved entry exchanged for its updated copy, as a multiset |
| `Conversations.MoveToFrontKeepsUnique` | src/features/chat/context/ConversationContext.tsx:128-139 | distinct ids stay distinct |
| `Conversations.ReceiveAllCounts` | src/features/chat/context/ConversationContext.tsx:123-143 | N `receiveMessage` events for a listed conversation leave it at the head with unread raised by exactly N and the last content as summary, length unchanged |
| `Conversations.ReadAfterReceives` | src/features/chat/context/ConversationContext.tsx:90-96 | mark-read after any number of receives resets the head's count to 0 |
| `Conversations.ConversationProvider.constructor` | src/features/chat/context/ConversationContext.tsx:29-31 | empty list, not loading, not fetched |
| `Conversations.ConversationProvider.RefreshConversations` | src/features/chat/context/ConversationContext.tsx:34-59 | no-op without a user; on success the list becomes `chats` or empty and `hasFetched` is set; on failure the list and `hasFetched` are kept; loading ends false |
| `Conversations.ConversationProvider.CreateNewConversation` | src/features/chat/context/ConversationContext.tsx:62-73 | on success the REST result is prepended without a membership check and `conversation:create` is emitted; on failure nothing changes, nothing is emitted, and the error is rethrown |
| `Conversations.ConversationProvider.RemoveConversation` | src/features/chat/context/ConversationContext.tsx:76-87 | the list is filtered and `conversation:delete` emitted only after the REST delete resolves; on failure the list is untouched and the error rethrown |
| `Conversations.ConversationProvider.MarkConversationAsRead` | src/features/chat/context/ConversationContext.tsx:90-96 | applies `MarkRead` to the list |
| `Conversations.ConversationProvider.OnConversationCreated` | src/features/chat/context/ConversationContext.tsx:111-116 | applies `InsertIfAbsent` |
| `Conversations.ConversationProvider.OnConversationDeleted` | src/features/chat/context/ConversationContext.tsx:118-120 | applies `RemoveById` |
| `Conversations.ConversationProvider.OnReceiveMessage` | src/features/chat/context/ConversationContext.tsx:123-143 | no change without a target id; otherwise the counted move-to-front with the message content |
| `Conversations.ConversationProvider.OnMessageSent` | src/features/chat/context/ConversationContext.tsx:146-164 | no change without a target id; otherwise the move-to-front with unread left as it was |
| `Messages.AsList` | src/features/chat/context/MessageContext.tsx:45 | an array body is the list as it is; a single object becomes the one-element list holding it |
| `Messages.Merged` | src/features/chat/context/MessageContext.tsx:91 | id, sender, conversation and creation time are kept; each field the patch carries replaces the message's, each absent one is kept; `updatedAt` is the edit time; an empty patch only restamps the time |
| `Messages.AppendIfAbsent` | src/features/chat/context/MessageContext.tsx:139-145 | the old list is a prefix of the new one; unchanged if the `_id` is listed, else the message is at the tail; afterwards the id is listed, and distinct ids stay distinct |
| `Messages.AppendIfAbsentIdempotent` | src/features/chat/context/MessageContext.tsx:139-145 | receiving the same message twice equals receiving it once |
| `Messages.ReplaceById` | src/features/chat/context/MessageContext.tsx:71-73 | same length; every entry with the id is the server message at the same index; all other entries unchanged |
| `Messages.MergeById` | src/features/chat/context/MessageContext.tsx:90-92 | same length, ids, senders, conversations and creation times; entries with the id take each present patch field, keep each absent one, and get the new `updatedAt`; other entries unchanged |
| `Messages.RemoveById` | src/features/chat/context/MessageContext.tsx:117 | no entry with the id remains; the others remain in order, as many times as they occurred; unchanged exactly when the id was absent; distinct ids stay distinct |
| `Messages.SetTyping` | src/features/chat/context/MessageContext.tsx:152-155 | the user's flag is set; the key set gains only that user; every other flag is kept |
| `Messages.ConfirmReplacesInPlace` | src/features/chat/context/MessageContext.tsx:65-73 | appending the temp message and then confirming it puts the server message at the tail, and wherever else the temp id occurs |
| `Messages.FreshTempConfirmIsAppend` | src/features/chat/context/MessageContext.tsx:65-73 | with a fresh temp id, send-then-confirm leaves the old list followed by the server message |
| `Messages.EchoAfterConfirmAddsNothing` | src/features/chat/context/MessageContext.tsx:139-145 | the pushed copy of an already confirmed message adds nothing |
| `Messages.EchoBeforeConfirmDuplicates` | src/features/chat/context/MessageContext.tsx:71-73 | a pushed copy applied before the REST reply leaves the server message listed twice |
| `Messages.ServerCopyOverridesMerge` | src/features/chat/context/MessageContext.tsx:90-100 | the server copy overwrites the optimistic merge completely: merge-then-replace equals replace alone |
| `Messages.RemoveByIdIdempotent` | src/features/chat/context/MessageContext.tsx:117 | deleting the same id again changes nothing |
| `Messages.TypingExpires` | src/features/chat/context/MessageContext.tsx:157-160 | typing followed by its expiry equals clearing the flag directly; other users are untouched |
| `Messages.EarlierTimerClearsRefresh` | src/features/chat/context/MessageContext.tsx:151-162 | after two `typing = true` events for a user, the first timer to fire leaves the user not typing while one timer for that user is still pending |
| `Messages.ForeignMessageIsListed` | src/features/chat/context/MessageContext.tsx:139-145 | a pushed message of a conversation other than the active one, with a new `_id`, is appended to the list; the active chat stays as it was |
| `Messages.MessageProvider.constructor` | src/features/chat/context/MessageContext.tsx:28-31 | empty list, not loading, no active chat, no typing flags, no pending timers |
| `Messages.MessageProvider.FetchMessages` | src/features/chat/context/MessageContext.tsx:38-57 | no-op for an empty id; on success the list is replaced (a single object wrapped), the chat becomes active and `joinChat` is emitted if a socket exists; on failure the list and active chat are kept; loading ends false |
| `Messages.MessageProvider.RefreshMessages` | src/features/chat/context/MessageContext.tsx:173-175 | with an active chat: loading ends false, a successful fetch replaces the list and emits `joinChat` for that chat when a socket exists, a failed one keeps the list and emits nothing; without one nothing changes; the active chat id is never changed |
| `Messages.MessageProvider.SetActiveChat` | src/features/chat/context/MessageContext.tsx:188 | sets the active chat id |
| `Messages.MessageProvider.SendNewMessage` | src/features/chat/context/MessageContext.tsx:62-82 | the temp message is appended; on success the server copy replaces the temp id in place, or is appended without a temp; on failure the temp stays and the error is rethrown |
| `Messages.MessageProvider.UpdateMessage` | src/features/chat/context/MessageContext.tsx:87-109 | optimistic merge; `updateMessage` is emitted only when connected; on success the server copy replaces the entries with its `_id`; on failure the merge stays and the error is rethrown |
| `Messages.MessageProvider.DeleteMessage` | src/features/chat/context/MessageContext.tsx:114-130 | filters before the REST call; emits only when connected; never rolls back; rethrows the REST error |
| `Messages.MessageProvider.HandleReceiveMessage` | src/features/chat/context/MessageContext.tsx:139-145 | applies `AppendIfAbsent` |
| `Messages.MessageProvider.HandleTyping` | src/features/chat/context/MessageContext.tsx:151-162 | sets the user's flag; a typing event adds one pending expiry timer for the user and no event removes one |
| `Messages.MessageProvider.ExpireTyping` | src/features/chat/context/MessageContext.tsx:158-160 | one pending timer of the user fires: only that user's flag is cleared and exactly that timer leaves the pending set |
| `Sockets.CanEmit` | src/features/chat/context/SocketContext.tsx:157-186 | an emit is allowed only with a socket and only while it is connected |
| `Sockets.AddUser` | src/features/chat/context/SocketContext.tsx:94-99 | the user is listed afterwards; unchanged if already listed, else appended; a duplicate-free list stays duplicate-free |
| `Sockets.AddUserIdempotent` | src/features/chat/context/SocketContext.tsx:94-99 | a repeated `userOnline` changes nothing |
| `Sockets.RemoveUser` | src/features/chat/context/SocketContext.tsx:101-104 | every occurrence is removed; every other id remains, in order, as many times as it occurred; a duplicate-free list stays duplicate-free |
| `Sockets.RemoveUserIdempotent` | src/features/chat/context/SocketContext.tsx:101-104 | a repeated `userOffline` changes nothing |
| `Sockets.RemoveAfterAdd` | src/features/chat/context/SocketContext.tsx:94-104 | `userOffline` after `userOnline` equals `userOffline` alone |
| `Sockets.ApplyPresence` | src/features/chat/context/SocketContext.tsx:94-104 | online/offline events applied in arrival order; no events leave the list as it was |
| `Sockets.LastPresenceEventWins` | src/features/chat/context/SocketContext.tsx:94-104 | after any sequence of online/offline events, the last event's user is listed exactly when that event was an online event |
| `Sockets.ListedUsersCameOnline` | src/features/chat/context/SocketContext.tsx:94-104 | every user listed after the events was listed before them or came online in one of them |
| `Sockets.PresenceStaysUnique` | src/features/chat/context/SocketContext.tsx:94-104 | any sequence of online and offline events keeps a duplicate-free list duplicate-free |
| `Sockets.SocketProvider.constructor` | src/features/chat/context/SocketContext.tsx:35-37 | no socket, not connected, nobody online, nothing emitted |
| `Sockets.SocketProvider.View` | src/features/chat/context/SocketContext.tsx:188-197 | consumers may emit exactly when a socket exists and is connected |
| `Sockets.SocketProvider.SyncSession` | src/features/chat/context/SocketContext.tsx:44-68 | a socket exists exactly when a user and token are present |
| `Sockets.SocketProvider.OnConnect` | src/features/chat/context/SocketContext.tsx:71-77 | connected, and `getOnlineUsers` is emitted |
| `Sockets.SocketProvider.OnDisconnect` | src/features/chat/context/SocketContext.tsx:79-82 | not connected |
| `Sockets.SocketProvider.OnConnectError` | src/features/chat/context/SocketContext.tsx:84-87 | not connected |
| `Sockets.SocketProvider.OnOnlineUsers` | src/features/chat/context/SocketContext.tsx:89-92 | the payload replaces the list |
| `Sockets.SocketProvider.OnUserOnline` | src/features/chat/context/SocketContext.tsx:94-99 | applies `AddUser` |
| `Sockets.SocketProvider.OnUserOffline` | src/features/chat/context/SocketContext.tsx:101-104 | applies `RemoveUser` |
| `Sockets.SocketProvider.GuardedEmit` | src/features/chat/context/SocketContext.tsx:157-186 | the event is emitted when a socket exists and is connected, and otherwise nothing is |
| `Sockets.SocketProvider.JoinChat` | src/features/chat/context/SocketContext.tsx:157-164 | `joinChat` is emitted exactly when connected |
| `Sockets.SocketProvider.LeaveChat` | src/features/chat/context/SocketContext.tsx:166-171 | `leaveChat` is emitted exactly when connected |
| `Sockets.SocketProvider.SendSocketMessage` | src/features/chat/context/SocketContext.tsx:173-180 | `sendMessage` is emitted exactly when connected |
| `Sockets.SocketProvider.EmitTyping` | src/features/chat/context/SocketContext.tsx:182-186 | `typing` is emitted exactly when connected |
| `Sockets.SocketProvider.SetupMessageHandlers` | src/features/chat/context/SocketContext.tsx:122-154 | without a socket nothing is registered; otherwise the six message events are |
| `Seqs.WithoutKey` | src/features/chat/context/SocketContext.tsx:103 | the filter keeps exactly the elements with another key, and no element with the key survives |
| `Seqs.WithoutKeyCounts` | src/features/chat/context/SocketContext.tsx:103 | an element with the key occurs 0 times after the filter; any other element occurs as often as before |
| `Seqs.WithoutKeyIsSubsequence` | src/features/chat/context/ConversationContext.tsx:119 | the filter's survivors keep their relative order |
| `Seqs.WithoutKeyUnchanged` | src/features/chat/context/ConversationContext.tsx:119 | the filter changes nothing exactly when no element has the key |

## Left out

- Socket transport: the socket.io connection options, reconnection, and the
  module-level socket of `src/lib/socket.ts` used by ConversationContext.
  Only the events' effect on state is modelled, and the provider's socket is
  a flag.
- Effect lifecycles: the registering and unregistering of listeners, the
  `user:connected`/`user:disconnected` emits, and `disconnectSocket` on
  cleanup. Also the effect that calls `refreshConversations` while
  `hasFetched` is false. These are scheduling, not state logic.
- REST and axios (`src/services/axiosInstance.ts`, the `api/*.ts`
  wrappers): I/O. Their results are parameters.
- Timers: the 3000 ms delay itself. A scheduled expiry is an entry in
  `pendingExpiries`, and its firing is the explicit `ExpireTyping` event,
  which may come at any later point.
- Interleaving between awaits: each async method runs to completion with
  its REST result. Every updater is a function of the previous list, so the
  updater lemmas hold whatever state an interleaved event produced.
- `loading`: only its value after a method is modelled, not the `true` while
  a call is pending.
- `handleExternalMessageUpdate` (called at MessageContext lines 75, 102 and
  147): ConversationContext does not define it, and its behaviour is not part
  of this model.
- SendNewMessage: `outcome` reports only the REST send. The call to the
  undefined `handleExternalMessageUpdate` that follows it would throw in
  JavaScript: `src/context/Providers.tsx` always mounts the message provider
  inside the conversation provider, so the conversation context is
  present and the real promise rejects after the list has been updated.
- UpdateMessage: the same as SendNewMessage, for the call after the server
  copy is swapped in.
- Record fields the updaters only copy: the sender object is reduced to its
  id, participants to ids, `readBy` is dropped, and `attachments` are
  strings. The `sendNewMessage` payload and the `conversationId` of a typing
  event reach no state and are not parameters.
- The composition of providers in `src/context/Providers.tsx`, auth, routing
  and all UI components.
