# Real-time chat: presence registry and client stores, modelled in Dafny

This project models the decision logic of a two-person chat application. It has a
Socket.IO backend fragment and a React/zustand frontend:

- **Presence registry** (`presence.dfy`, module `Presence`). This is the server's
  process-wide map from user id to socket id. The `connection` handler writes an
  entry only when the handshake's `userId` is truthy. The `disconnect` handler
  deletes by user id alone. `getReceiverSocketId` reads an entry. The registry is
  a class whose map field the handlers reassign. A ghost history of handler runs
  ties it to a reference definition of presence: the last event about a user
  decides.
- **Client socket** (`client_socket.dfy`, module `ClientSocket`). The part of a
  socket.io client socket the stores touch: `connected`, the handshake `userId`
  and the list of `newMessage` listeners.
- **Session store** (`auth_store.dfy`, module `Auth`). `authUser`, the busy flags
  and the session socket. Every HTTP call is a parameter that succeeds with a
  value or fails. The store keeps an invariant: every socket it created before
  the current one is disconnected.
- **Chat store** (`chat_store.dfy`, module `Chat`). The message list, the selected
  partner, the listener that filters, deduplicates and appends, and the
  subscribe/unsubscribe guards. `sendMessage` is split into `StartSend` (the
  snapshot read before the request) and `FinishSend` (the append after it), so
  that events arriving in between can be stated.
- **Message composer** (`message_input.dfy`, module `Composer`). The submit guard,
  `trim`, the payload, the reset after a send, the `image/` MIME check and
  `removeImage`.
- **Route table** (`app_routes.dfy`, module `Routes`). A pure function from path and
  session state to a screen: the spinner, a page, a redirect, or nothing.
- **Theme store** (`theme_store.dfy`, module `Theme`). The `chat-theme` key in local
  storage with the `coffee` default.

Two behaviours of the code are reproduced and exhibited, not corrected:

- A disconnect from a superseded socket erases the live entry of the user's newer
  socket. See `Presence.StaleDisconnectErasesLiveEntry` and
  `Presence.StaleDisconnectScenario`. A correct design would remove the entry only
  when the socket id also matches. The code keys the delete on the user alone, and
  the model follows the code.
- `sendMessage` appends the reply to the list it read before the request. A
  `newMessage` held in the meantime is therefore lost. See
  `Chat.LostUpdateScenario`.

In three places the model follows the code where a more careful implementation would not:

- Unregistering is keyed on the user only, not on the (user, socket) pair.
- Logout disconnects the socket but never clears the store's `socket` field.
- The store does not enforce a single listener. There is at most one only when every
  subscribe is paired with an unsubscribe, as the chat view's effect does (see
  `Chat.ChangeSelection`). Without that pairing, listeners accumulate and the
  `_id` check alone prevents duplicates (see `Chat.DoubleSubscriptionScenario`).

## Model

| member | source | states |
|---|---|---|
| Presence.Get | backend/src/lib/socket.js:33 | the lookup finds a socket id exactly when the user has an entry, and what it finds is one of the stored socket ids |
| Presence.Connected | backend/src/lib/socket.js:19-20 | a truthy user id adds (or overwrites) exactly its own key, mapped to the socket id; a falsy one leaves the keys as they were; every other entry keeps its socket id |
| Presence.Disconnected | backend/src/lib/socket.js:25-26 | a truthy user id removes exactly its own key, whatever socket id it held; a falsy one removes nothing; no remaining entry changes |
| Presence.LookupAfterConnect | backend/src/lib/socket.js:18-21 | after a connection with a non-empty user id, the lookup of that user returns the connection's socket id |
| Presence.AnonymousConnectionIsNoOp | backend/src/lib/socket.js:18-27 | a connection whose user id is missing or empty leaves the map unchanged, and so does its later disconnect |
| Presence.LastWriterWins | backend/src/lib/socket.js:20 | two connections of the same user: the lookup returns the second socket id |
| Presence.StaleDisconnectErasesLiveEntry | backend/src/lib/socket.js:24-27 | after connections A then B of one user, A's disconnect leaves the user absent although B was the live entry |
| Presence.DisconnectAbsentIsNoOp | backend/src/lib/socket.js:24-27 | disconnecting a user with no entry leaves the map unchanged |
| Presence.OtherUsersUnaffected | backend/src/lib/socket.js:17-29 | a connect or disconnect about one user never changes the lookup of any other user |
| Presence.ReplayFollowsLastWord | backend/src/lib/socket.js:15-34 | after any run of handler events, a user's lookup is the word of the last event about that user (a connection's socket id, absent after a disconnect), or the starting entry when no event mentions them |
| Presence.ReplayIsolation | backend/src/lib/socket.js:17-29 | a user's lookup after a run equals the lookup after only that user's own events |
| Presence.NeverRegisteredIsAbsent | backend/src/lib/socket.js:32-34 | in a registry that started empty, a user that no event mentions is absent |
| Presence.PresenceRegistry.constructor | backend/src/lib/socket.js:15 | the registry starts empty with an empty history |
| Presence.PresenceRegistry.OnConnection | backend/src/lib/socket.js:17-21 | writes the entry only for a truthy user id, records the event, and returns the connection with the captured user id |
| Presence.PresenceRegistry.OnDisconnect | backend/src/lib/socket.js:24-29 | deletes the entry of the captured user id whatever socket id it holds, and records the event |
| Presence.PresenceRegistry.GetReceiverSocketId | backend/src/lib/socket.js:32-34 | changes nothing; returns the stored socket id of the user, absent when there is no entry, and that result is the last word of the history about the user |
| Presence.StaleDisconnectScenario | backend/src/lib/socket.js:17-34 | in a fresh registry, a user who reconnected is found under the new socket, and the old socket's disconnect then makes the lookup absent |
| ClientSocket.Socket.constructor | frontend/src/store/useAuthStore.ts:120-125 | a new socket is connected, carries the user id in its handshake and has no listeners |
| ClientSocket.Socket.On | frontend/src/store/useChatStore.ts:95 | registering appends the listener, duplicates included |
| ClientSocket.Socket.Off | frontend/src/store/useChatStore.ts:117 | `off("newMessage")` leaves no listener |
| ClientSocket.Socket.Disconnect | frontend/src/store/useAuthStore.ts:132 | the socket is no longer connected and its listeners stay |
| Auth.AuthStore.constructor | frontend/src/store/useAuthStore.ts:37-42 | nobody logged in, the auth check pending, all other flags false, no socket |
| Auth.AuthStore.ConnectSocket | frontend/src/store/useAuthStore.ts:116-127 | no-op without a user or with a connected socket; otherwise stores a fresh connected socket whose handshake user id is the user's id; the invariant that older sockets are disconnected is kept |
| Auth.AuthStore.DisconnectSocket | frontend/src/store/useAuthStore.ts:130-133 | afterwards the socket, if any, is disconnected with its listeners intact; the field is not cleared |
| Auth.AuthStore.CheckAuth | frontend/src/store/useAuthStore.ts:45-55 | on success the user is the response and a socket is connected afterwards: the one already connected, whatever its handshake user id, otherwise a fresh one for the user; on failure the user is cleared; the check flag ends false |
| Auth.AuthStore.Signup | frontend/src/store/useAuthStore.ts:58-70 | on success the user is the response and a socket is connected afterwards: the one already connected, whatever its handshake user id, otherwise a fresh one for the user; on failure user and socket are unchanged; `isSigningUp` ends false |
| Auth.AuthStore.Login | frontend/src/store/useAuthStore.ts:73-85 | on success the user is the response and a socket is connected afterwards: the one already connected, whatever its handshake user id, otherwise a fresh one for the user; on failure user and socket are unchanged; `isLoggingIn` ends false |
| Auth.AuthStore.Logout | frontend/src/store/useAuthStore.ts:88-99 | on success the user is cleared and no socket is left connected; on failure user and connection state are unchanged; the socket field is kept; `isCheckingAuth` ends false |
| Auth.AuthStore.UpdateProfile | frontend/src/store/useAuthStore.ts:102-113 | the user is replaced only on success; the socket is untouched; `isUpdatingProfile` ends false |
| Auth.AuthStore.AtMostOneConnectedSocket | frontend/src/store/useAuthStore.ts:116-133 | under the store's invariant, the only connected socket the store ever created is the current one |
| Auth.RepeatedLoginScenario | frontend/src/store/useAuthStore.ts:73-127 | two successful logins yield one socket, still connected under the first user's id |
| Chat.IsRelevant | frontend/src/store/useChatStore.ts:98-100 | a message is relevant exactly when a partner is selected and its sender and receiver are, in either order, the partner and the subscribing user |
| Chat.HasId | frontend/src/store/useChatStore.ts:105 | the front-to-back scan succeeds exactly when some held message has the `_id` |
| Chat.OnNewMessage | frontend/src/store/useChatStore.ts:95-112 | one listener either leaves the list as it is or appends the message at the end; it changes the list exactly when the message is relevant and its `_id` is not yet held; afterwards the `_id` is held exactly when it was before or the message is relevant |
| Chat.Dispatch | frontend/src/store/useChatStore.ts:95-112 | all registered listeners, in registration order, handling one event append the message at most once, whatever the number of listeners, and append nothing when its `_id` is already held |
| Chat.IrrelevantMessageIgnored | frontend/src/store/useChatStore.ts:96-102 | a message that is neither partner-to-self nor self-to-partner leaves the list unchanged |
| Chat.NoSelectionIgnoresEvents | frontend/src/store/useChatStore.ts:96-102 | with no partner selected when the event arrives, the list is unchanged |
| Chat.DuplicateIgnored | frontend/src/store/useChatStore.ts:104-107 | a message whose `_id` is already held leaves the list unchanged |
| Chat.OnNewMessageAppends | frontend/src/store/useChatStore.ts:95-112 | the old list stays a prefix; the message is appended at the end exactly when it is relevant and its `_id` is new, and otherwise the list is unchanged |
| Chat.OnNewMessageKeepsIdsDistinct | frontend/src/store/useChatStore.ts:104-111 | the listener preserves "all `_id`s are distinct" |
| Chat.OnNewMessageIdempotent | frontend/src/store/useChatStore.ts:104-111 | handling the same event twice equals handling it once |
| Chat.RedeliveryKeepsOneCopy | frontend/src/store/useChatStore.ts:104-111 | a relevant message with a new `_id`, delivered twice, leaves exactly one entry with that `_id` |
| Chat.DispatchKeepsIdsDistinct | frontend/src/store/useChatStore.ts:95-112 | whatever listeners are registered, one of them registered several times included, distinct `_id`s stay distinct |
| Chat.DispatchDuplicatesActOnce | frontend/src/store/useChatStore.ts:95-112 | several listeners registered for the same user act as a single one |
| Chat.DispatchAppendsIff | frontend/src/store/useChatStore.ts:95-112 | all registered listeners together append the message exactly when its `_id` is not yet held and at least one listener, with the user it captured, finds it relevant |
| Chat.DispatchWithoutHandlers | frontend/src/store/useChatStore.ts:115-118 | after unsubscribing (no listeners), an event changes nothing |
| Chat.ChatStore.constructor | frontend/src/store/useChatStore.ts:38-43 | no messages, nobody selected, not loading |
| Chat.ChatStore.SetSelectedUser | frontend/src/store/useChatStore.ts:120 | sets the selected user and nothing else |
| Chat.ChatStore.GetMessages | frontend/src/store/useChatStore.ts:57-69 | with a non-empty user id and a successful fetch the list is replaced by the history; otherwise it is unchanged; loading ends false |
| Chat.ChatStore.StartSend | frontend/src/store/useChatStore.ts:70-71 | changes nothing; the snapshot holds the selected user and the list as they are before the request |
| Chat.ChatStore.FinishSend | frontend/src/store/useChatStore.ts:72-83 | with a selected user in the snapshot and a reply, the list becomes snapshot plus reply, without an `_id` check; otherwise it is unchanged; loading ends false |
| Chat.ChatStore.SendMessage | frontend/src/store/useChatStore.ts:70-84 | with no event in between: the reply is appended when a user is selected and the request succeeds; otherwise the list is unchanged; loading ends false |
| Chat.ChatStore.SubscribeToMessages | frontend/src/store/useChatStore.ts:86-113 | registers one listener for the logged-in user exactly when a partner is selected and a user is logged in; reports the throw of a missing socket; connection state untouched |
| Chat.ChatStore.UnsubscribeFromMessages | frontend/src/store/useChatStore.ts:115-118 | removes every `newMessage` listener; reports the throw of a missing socket |
| Chat.ChatStore.ReceiveNewMessage | frontend/src/store/useChatStore.ts:95-112 | a `newMessage` event leaves the list that every registered listener, in order, makes of it |
| Chat.ChangeSelection | frontend/src/components/ChatContainer.tsx:59-73 | re-selecting the partner already selected changes nothing (the effect's dependencies are unchanged); otherwise, with the cleanup-then-effect pairing, a socket with at most one listener keeps at most one, a deselection leaves none, a new selection leaves exactly the logged-in user's listener (none without a user), replaces the list by the fetched history when the id is truthy and the request succeeds, and ends with loading off; a deselection leaves list and loading flag alone |
| Chat.DoubleSubscriptionScenario | frontend/src/store/useChatStore.ts:86-113 | subscribing twice leaves two listeners, yet a partner's message is held exactly once |
| Chat.LostUpdateScenario | frontend/src/store/useChatStore.ts:70-84 | a partner's message received while a send is awaited is gone once the reply is appended to the snapshot |
| Composer.Trim | frontend/src/components/MessageInput.tsx:60 | the trimmed text is the infix of the text that starts after the leading whitespace, and it neither starts nor ends with whitespace |
| Composer.CanSend | frontend/src/components/MessageInput.tsx:56 | the submit proceeds exactly when the text has a non-whitespace character or the image preview is a non-empty string |
| Composer.SendDisabled | frontend/src/components/MessageInput.tsx:131 | the send button is disabled exactly when the text is whitespace only (or empty) and the preview is absent or empty |
| Composer.IsImageType | frontend/src/components/MessageInput.tsx:34 | the picker's check accepts a MIME type exactly when `image/` is a prefix of it |
| Composer.TrimIsInfix | frontend/src/components/MessageInput.tsx:60 | the trimmed text is an infix of the text; everything cut off is whitespace; it neither starts nor ends with whitespace |
| Composer.TrimEmptyIff | frontend/src/components/MessageInput.tsx:56 | the trimmed text is empty exactly when the text is whitespace only |
| Composer.TrimIdempotent | frontend/src/components/MessageInput.tsx:60 | trimming the payload again changes nothing |
| Composer.DisabledIffGuardFails | frontend/src/components/MessageInput.tsx:131 | the send button is disabled exactly when the submit guard returns early |
| Composer.WhitespaceOnlyCannotSend | frontend/src/components/MessageInput.tsx:56 | whitespace-only text without a truthy image preview sends nothing |
| Composer.ImageTypeIffPrefixed | frontend/src/components/MessageInput.tsx:33-37 | a MIME type passes the picker's check exactly when it is `image/` followed by anything |
| Composer.MessageInput.constructor | frontend/src/components/MessageInput.tsx:15-18 | the text starts empty and there is no preview |
| Composer.MessageInput.SetText | frontend/src/components/MessageInput.tsx:105 | the text becomes the field's value |
| Composer.MessageInput.HandleImageChange | frontend/src/components/MessageInput.tsx:29-45 | a file of type `image/...` makes its data URL the preview; no file or another type leaves the preview unchanged |
| Composer.MessageInput.RemoveImage | frontend/src/components/MessageInput.tsx:48-51 | the preview is cleared and the text is unchanged |
| Composer.MessageInput.HandleSendMessage | frontend/src/components/MessageInput.tsx:54-71 | sends nothing and changes nothing exactly when the button would be disabled; otherwise sends the trimmed text with the preview unmodified, clears both fields whatever the request's outcome, and the store appends the reply |
| Routes.ShowsLoader | frontend/src/App.tsx:49 | the spinner is never shown to a logged-in user, nor once the auth check is over |
| Routes.Route | frontend/src/App.tsx:49-85 | the spinner exactly when the loader condition holds; nothing exactly for a path outside the five routes; every redirect goes to `/` for a logged-in user and to `/login` otherwise; the home and profile pages only with a user, the sign-up and login pages only without one |
| Routes.LoadingIff | frontend/src/App.tsx:49-54 | the spinner is shown exactly when the auth check runs and nobody is logged in |
| Routes.RootRoute | frontend/src/App.tsx:65-68 | `/` renders the home page for a logged-in user and otherwise redirects to `/login` |
| Routes.GuestOnlyRoutes | frontend/src/App.tsx:70-78 | `/signup` and `/login` render exactly when nobody is logged in; a logged-in user is redirected to `/` |
| Routes.SettingsAlwaysRenders | frontend/src/App.tsx:80 | `/settings` renders whatever the session |
| Routes.ProfileRoute | frontend/src/App.tsx:82-85 | `/profile` renders for a logged-in user and otherwise redirects to `/login` |
| Routes.RedirectsLandOnPages | frontend/src/App.tsx:65-85 | for a fixed session state, every redirect target renders a page: no chains, no loops |
| Routes.PagesMatchSession | frontend/src/App.tsx:49-85 | the home and profile pages are shown only with a session, the sign-up and login pages only without one and after the check |
| Theme.InitialTheme | frontend/src/store/useThemeStore.ts:12 | the initial theme is never empty: the stored `chat-theme` value when it is non-empty, otherwise `coffee` |
| Theme.LocalStorage.SetItem | frontend/src/store/useThemeStore.ts:16 | the storage maps the key to the value, other keys unchanged |
| Theme.ThemeStore.constructor | frontend/src/store/useThemeStore.ts:12 | the store starts with the initial theme of the storage |
| Theme.ThemeStore.SetTheme | frontend/src/store/useThemeStore.ts:15-18 | the field becomes the theme and the storage maps `chat-theme` to it |
| Theme.RoundTrip | frontend/src/store/useThemeStore.ts:12-16 | after `setTheme(t)` a fresh store starts with `t`, or `coffee` when `t` is empty |
| Theme.OtherKeysUntouched | frontend/src/store/useThemeStore.ts:16 | `setTheme` changes no key but `chat-theme` |
| Theme.SetThemeIdempotent | frontend/src/store/useThemeStore.ts:15-17 | `setTheme(t)` twice leaves the same storage as once |
| Theme.ReloadScenario | frontend/src/store/useThemeStore.ts:12-17 | after setting a non-empty theme twice, the field, the storage and a reloaded store all hold it |

## Left out

- The Socket.IO server and client transport, the Express/HTTP server and the CORS list (backend/src/lib/socket.js:1-12, 36). They are library plumbing. A socket is modelled only as connected flag, handshake user id and listener list.
- ClientSocket.Socket.constructor: `connect()` is treated as completing at once, so `connected` is true when `connectSocket` returns. The handshake round trip, auto-reconnect and the window in which a second `connectSocket` could open another socket are not modelled.
- Pushing the `newMessage` event to a receiver's socket (the message controller that calls `getReceiverSocketId`) is not part of this model. Only the lookup it relies on is modelled.
- HTTP requests (axios) and their URLs and payloads. Each awaited request is a `Response` parameter, either a value or a failure.
- Real async interleaving. Each store action runs to completion, except `sendMessage`, whose before and after halves are separate methods. The busy flags' `true` value during an awaited request is therefore never observable.
- `getUsers`, `users` and `isUsersLoading` in the chat store. They are not among the modelled operations.
- Toasts, `console.error`, scroll-into-view, clearing the hidden file input, and reading the picked file with `FileReader`. These are UI side effects. The data URL the reader produces is an opaque string parameter, and the preview is set at once.
- JSX rendering of every component and page. ChatContainer, ChatHeader, Sidebar, Navbar and HomePage are not modelled. The effect in ChatContainer and the close button in ChatHeader are only driven as method calls.
- React Router's matching rules (case-insensitive paths, trailing slashes, nested routes). `Routes.Route` matches path strings exactly.
- `formatMessageTime` and `lib/axios` are not part of this model.
- Presence.PresenceRegistry.GetReceiverSocketId: user ids are assumed not to be names of `Object.prototype` properties. The registry is a plain `{}` object, so in the code a lookup of `"constructor"` returns an inherited, truthy value, and writing `"__proto__"` does not create an entry. The model's `map` has neither effect, and the same holds for `Presence.Connected`, `Presence.Get` and `Presence.NeverRegisteredIsAbsent`.
- Theme.ThemeStore.SetTheme: storage exceptions are not modelled. In the code `localStorage.setItem` can throw (storage full, or storage blocked) before the field is set, and the exception then reaches the caller with the theme unchanged. The model always succeeds. Likewise `Theme.ThemeStore.constructor` does not model a throwing `getItem`.
- Chat.ChangeSelection: the user that the effect depends on is compared by value, whereas React compares the object. Re-selecting the same entry of the users list passes the same object, and the two agree on that. A different object with equal fields would re-run the cleanup and the effect in the code, but not in the model.
- JavaScript query values that are arrays (`?userId=a&userId=b`). The handshake user id is an optional string.
