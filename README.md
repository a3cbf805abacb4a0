# LinkUp real-time chat: a verified model of its core

LinkUp is a chat web application. An Express and socket.io backend stores users and messages in MongoDB and keeps an in-memory presence registry, `userSocketMap`, which records the live socket of each online user. A React frontend holds its state in two zustand stores. This project models the parts of both sides that make decisions, and proves what they promise.

- **Presence registry** (`Socket`). Connect and disconnect are methods of a `SocketServer` class. The class holds the registry and a log of everything the server emits. The registry is an association list kept in `Object.keys` order; user ids are taken to be 24-hex-digit ObjectIds, which are neither array indices nor inherited property names. The model proves four things:
  - last connection wins;
  - a connection without a `userId` leaves the registry unchanged;
  - a disconnect removes only the entry holding that socket, so a late disconnect of an old socket cannot evict a newer session;
  - every broadcast lists the current keys.
- **Messages** (`MessageModel`, `MessageController`). Covered here:
  - the message schema's validation;
  - the history query (a symmetric filter, sorted by `createdAt`);
  - the sidebar query;
  - `sendMessage`, which uploads, saves, pushes to the receiver's socket only when it is registered, and answers 201.
- **Authentication on the server** (`AuthController`, `AuthMiddleware`). The guard chains of signup, login, logout, updateProfile, checkAuth and `protectRoute` are modelled, with their effects on the `users` collection. Their status codes and texts are kept exactly, including the misspelt "All feilds are required".
- **Client** (`AuthStore`, `ChatStore`, `SignupPage`, `LoginPage`, `EmailFormat`, `MessageInput`). Covered here:
  - how the error message is chosen;
  - the loading flags;
  - the socket guard;
  - how the message list is replaced or appended;
  - the two form validators, including the email regular expression;
  - the message form's send guard and its handlers.
- **Across both sides** (`EndToEnd`). Any form the signup page accepts passes the backend's field and length checks. Every error the backend sends for signup or login reaches the user as the server's own text.

External services are parameters:
- bcrypt hashing and compare are the functions `hasher` and `verify`;
- `jwt.verify` and the user lookup of `protectRoute` are oracles;
- a Cloudinary upload is a function `upload` that is absent when the upload throws;
- whether a database call succeeds is a boolean `...Ok`;
- new document ids and the clock are the values `newId` and `now`.

`JsText` gives JavaScript's `trim`, the `\s` character class, the truthiness of an optional string and the UTF-16 `.length` of a string. `Wrappers` holds `Option` and `Result`, `Http` the response shapes, and `Users` the user document with the queries on it.

The server broadcasts the online list after every connection and every disconnect, even when the registry did not change.

## Model

| member | source | states |
|---|---|---|
| Socket.Keys | backend/src/lib/socket.js:27 | `Object.keys(userSocketMap)` lists one key per entry, position by position. |
| Socket.Get | backend/src/lib/socket.js:15-18 | The read of `userSocketMap[id]` is absent exactly when the id is not a key, and a present value is the socket registered for that id. |
| Socket.Put | backend/src/lib/socket.js:25 | After the assignment the user reads back the new socket (last writer wins), every other user reads what it read before, and the only new entry is this one. |
| Socket.PutKeys | backend/src/lib/socket.js:25-27 | An overwrite keeps the `Object.keys` order; a new user is appended at the end. |
| Socket.PutKeepsKeysDistinct | backend/src/lib/socket.js:25 | No user appears twice as a key after an assignment. |
| Socket.PutKeepsInjective | backend/src/lib/socket.js:25 | Registering a socket no user holds keeps socket ids unique across users. |
| Socket.Delete | backend/src/lib/socket.js:34 | After `delete`, the user has no entry, every other user keeps its socket, and no entry is added. |
| Socket.DeleteKeys | backend/src/lib/socket.js:34-35 | The broadcast keys after a delete are the old keys in the old order, without that user. |
| Socket.DeleteKeepsKeysDistinct | backend/src/lib/socket.js:34 | A delete keeps the keys distinct. |
| Socket.DeleteKeepsInjective | backend/src/lib/socket.js:34 | A delete keeps socket ids unique across users. |
| Socket.FirstHolder | backend/src/lib/socket.js:33 | The key search finds nothing exactly when no user holds the socket; what it finds holds the socket. |
| Socket.Unregister | backend/src/lib/socket.js:33-34 | The disconnect update: delete the key that `find` returns, when it is truthy. It never adds an entry; the lemmas below say what it removes. |
| Socket.Register | backend/src/lib/socket.js:24-25 | An absent or empty `userId` leaves the registry as it was. A truthy one maps to the new socket, overwriting any earlier socket of that user, and leaves every other user untouched. |
| Socket.UnregisterUnheld | backend/src/lib/socket.js:33-34 | Disconnecting a socket that no user holds leaves the registry unchanged. |
| Socket.UnregisterKeepsOtherSockets | backend/src/lib/socket.js:33-34 | Removal matches on the socket id: a user registered on any other socket keeps it across the disconnect. |
| Socket.StaleDisconnectIsHarmless | backend/src/lib/socket.js:24-34 | Registering U on C1 and then on C2, then disconnecting C1, leaves U on C2. |
| Socket.UnregisterRemovesHolder | backend/src/lib/socket.js:33-35 | When socket ids are unique, after a disconnect no user is listed on that socket, and the broadcast keys lose exactly the holder. |
| Socket.RegisterKeepsInvariant | backend/src/lib/socket.js:21-25 | A connection keeps the registry's keys distinct and truthy and every socket a connected one, and keeps socket ids unique when the new socket is fresh. |
| Socket.UnregisterKeepsInvariant | backend/src/lib/socket.js:30-34 | A disconnect keeps the same registry invariant and, with unique socket ids, leaves nobody on the closed socket. |
| Socket.ConnectionKeepsInvariants | backend/src/lib/socket.js:21-25 | A connection keeps the registry invariant and the record of closed sockets inside the seen ones, and, for a fresh socket, keeps socket ids unique and every entry off the closed sockets. |
| Socket.RegisterAvoidsClosed | backend/src/lib/socket.js:24-25 | Registering a socket that has not disconnected puts no entry on a closed socket. |
| Socket.UnregisterAvoidsClosed | backend/src/lib/socket.js:30-34 | With unique socket ids, after a disconnect no entry holds that socket or any socket closed earlier. |
| Socket.SocketServer.constructor | backend/src/lib/socket.js:20 | The registry starts empty, nothing has been emitted, no socket has connected or closed, and the invariants hold. |
| Socket.SocketServer.GetReceiverSocketId | backend/src/lib/socket.js:15-18 | `getReceiverSocketId` is a read with no effect: absent for an unregistered user, otherwise the user's socket. |
| Socket.SocketServer.OnConnection | backend/src/lib/socket.js:21-27 | The connection handler applies `Register`, then broadcasts exactly the new key list. It keeps keys distinct and truthy. With a fresh socket id it keeps `Live`: socket ids unique and no entry on a disconnected socket. |
| Socket.SocketServer.FindUserBySocket | backend/src/lib/socket.js:33 | The `find` over `Object.keys` returns the first user whose entry is the socket, and that user reads back the socket. |
| Socket.SocketServer.OnDisconnect | backend/src/lib/socket.js:30-36 | The disconnect handler runs for a connected socket. It applies `Unregister`, records the socket as closed, then broadcasts exactly the new key list. It keeps `Live`, so over any run of connects with fresh ids and disconnects, no entry holds a socket that has disconnected. |
| Socket.SocketServer.EmitNewMessage | backend/src/controllers/message.controller.js:70 | `io.to(id).emit("newMessage", m)` appends exactly one push to that socket to the emission log. |
| MessageModel.Create | backend/src/models/message.model.js:6-28 | Of the schema's checks, the required references are modelled: validation fails exactly when `senderId` or `receiverId` is missing, and the error names exactly the missing paths. A failed ObjectId cast is left to the write outcome. On success the text and image are optional and kept as given, and both timestamps are the creation time. |
| MessageModel.EmptyMessageIsValid | backend/src/models/message.model.js:18-23 | A message with neither text nor image passes validation. |
| Users.UsersExcept | backend/src/controllers/message.controller.js:10 | The `$ne` query with the password left out returns every user except the caller, and only users from the collection. |
| Users.FindByEmail | backend/src/controllers/auth.controller.js:19 | `findOne({ email })` finds nothing exactly when no user has that email; what it finds has that email. |
| Users.FindById | backend/src/controllers/auth.controller.js:105-108 | `findById` finds nothing exactly when no user has that id; what it finds has that id. |
| MessageController.Conversation | backend/src/controllers/message.controller.js:24-28 | The `$or` filter keeps exactly the stored messages from one of the two users to the other, in either direction. |
| MessageController.ConversationCounts | backend/src/controllers/message.controller.js:24-28 | The filter keeps every stored copy of a message between the two users and no other message. |
| MessageController.Insert | backend/src/controllers/message.controller.js:29 | One step of the sort: put a message before the first element created no earlier than it. `InsertPermutes` and `InsertSorted` state what it does. |
| MessageController.InsertPermutes | backend/src/controllers/message.controller.js:29 | One insertion step of the sort adds exactly the inserted message. |
| MessageController.InsertSorted | backend/src/controllers/message.controller.js:29 | One insertion step of the sort keeps the list ordered by `createdAt`. |
| MessageController.SortByCreatedAt | backend/src/controllers/message.controller.js:29 | `sort({ createdAt: 1 })` returns a permutation of its input that is non-decreasing in `createdAt`. |
| MessageController.History | backend/src/controllers/message.controller.js:24-29 | The messages `getMessages` answers with: the conversation filter, then the sort. The lemmas below state its contents and order. |
| MessageController.HistoryIsTheConversation | backend/src/controllers/message.controller.js:24-29 | The history holds each message between the two users exactly as often as it is stored, and nothing else, non-decreasing in `createdAt`. |
| MessageController.ConversationSymmetric | backend/src/controllers/message.controller.js:24-28 | The filter does not depend on which of the two users asks. |
| MessageController.HistorySymmetric | backend/src/controllers/message.controller.js:24-29 | Both participants get the same history. |
| MessageController.HistoryOrdersByTime | backend/src/controllers/message.controller.js:29 | Of two messages in a history, the strictly older one comes first. |
| MessageController.GetMessages | backend/src/controllers/message.controller.js:18-36 | The answer is 200 with the history, or 500 "Internal server error" when the query throws. |
| MessageController.GetUsersForSidebar | backend/src/controllers/message.controller.js:6-16 | The answer is 200 with every user except the caller and nobody else, or 500 with an `error` body when the query throws. |
| MessageController.MessageCollection.constructor | backend/src/models/message.model.js:31 | The message collection starts with the given records. |
| MessageController.MessageCollection.Save | backend/src/controllers/message.controller.js:57-65 | `save` appends the validated record exactly when validation and the write succeed; otherwise the collection is unchanged. |
| MessageController.SendMessage | backend/src/controllers/message.controller.js:38-78 | Success (201) requires the write to succeed and, when an image is given, the upload too. Otherwise the answer is 500 with nothing saved and nothing pushed. On 201 the record has sender = caller, receiver = route id, the given text and the uploaded URL only when an image was given. It is saved first, then pushed to the receiver's socket if and only if the registry has one, and the body is that same record. |
| AuthController.SignupStep | backend/src/controllers/auth.controller.js:7-49 | The whole signup handler: answer and resulting user collection. What it promises is stated by the lemmas that follow and by `SignupGuard`. |
| AuthController.SignupGuard | backend/src/controllers/auth.controller.js:11-16 | Signup passes the early checks iff all three fields are truthy and the password has at least 6 UTF-16 units. A missing field gives "All feilds are required" before anything else, and any shorter password then gets "Password must be at least 6 characters". Every early rejection is a 400. |
| AuthController.PasswordLengthBoundary | backend/src/controllers/auth.controller.js:14-16 | A 6-unit password passes the length check; a 5-unit one gets "Password must be at least 6 characters". |
| AuthController.SignupChangesStoreOnlyOnSuccess | backend/src/controllers/auth.controller.js:7-49 | The user collection changes iff the answer is 201. |
| AuthController.SignupDuplicateEmail | backend/src/controllers/auth.controller.js:19-20 | A registered email gives 400 "Email already exists" and the collection is unchanged. |
| AuthController.SignupStoresHash | backend/src/controllers/auth.controller.js:23-41 | A 201 stores the hasher's output as the password. The answer carries exactly id, name, email and picture, with no password and no creation time, and issues the token. |
| AuthController.Login | backend/src/controllers/auth.controller.js:53-80 | 200 iff the lookup works, the email is known and `bcrypt.compare` accepts. A failed lookup gives 500 "Internal server error", an unknown email 400 "Invalid credentials", a known email with no password 500 (the compare throws), and a rejected password 400 "Wrong Password". The 200 body is the profile with `createdAt` and no password, and it issues the token. Every other answer is a `message` body without cookies. |
| AuthController.Logout | backend/src/controllers/auth.controller.js:84-92 | Always 200, clearing the `jwt` cookie with maxAge 0. |
| AuthController.CheckAuth | backend/src/controllers/auth.controller.js:128-139 | 401 iff the user id is falsy, and 200 otherwise. |
| AuthController.SetProfilePic | backend/src/controllers/auth.controller.js:105-106 | Only the `profilePic` of the users with that id changes, and it becomes the URL. |
| AuthController.UpdateProfileStep | backend/src/controllers/auth.controller.js:95-125 | The whole updateProfile handler: 400 without a picture, 500 when the upload or the write fails, 404 for an unknown user, otherwise 200 with the updated user. `UpdateProfileOnlySetsPicture` states its effect. |
| AuthController.UpdateProfileOnlySetsPicture | backend/src/controllers/auth.controller.js:95-125 | A missing picture gives 400 "Profile picture is required" and no change. Any non-200 changes nothing. A 200 sets exactly the caller's `profilePic` to the uploaded URL and keeps every other field of every user. |
| AuthController.Signup | backend/src/controllers/auth.controller.js:7-49 | The signup method's answer and the resulting collection are those of `SignupStep`, about which the lemmas above are proved. |
| AuthController.UpdateProfile | backend/src/controllers/auth.controller.js:95-125 | The updateProfile method's answer and the resulting collection are those of `UpdateProfileStep`. |
| AuthMiddleware.CatchAsWritten | backend/src/middlewares/auth.middleware.js:35-41 | The catch block answers 401 exactly for an error named `JsonWebTokenError`, and 500 "Internal server error" for anything else. |
| AuthMiddleware.CatchIntended | backend/src/middlewares/auth.middleware.js:35-41 | The corrected catch block answers 401 "Unauthorized - Invalid token" to each of the verifier's token errors and 500 to anything else. |
| AuthMiddleware.Catch | backend/src/middlewares/auth.middleware.js:35-41 | The catch block as written, or the corrected one, chosen by a flag. |
| AuthMiddleware.DecideWith | backend/src/middlewares/auth.middleware.js:4-42 | The guard chain: no token, verification, payload, lookup, with the chosen catch block. The lemmas below state its answers. |
| AuthMiddleware.Decide | backend/src/middlewares/auth.middleware.js:4-42 | protectRoute as written (`DecideWith` with the written catch). |
| AuthMiddleware.DecideIntended | backend/src/middlewares/auth.middleware.js:4-42 | protectRoute with the corrected catch. |
| AuthMiddleware.NoTokenIsDecidedFirst | backend/src/middlewares/auth.middleware.js:8-12 | Without a `jwt` cookie the answer is 401 "No Token Provided", whatever the verifier and the lookup would do. |
| AuthMiddleware.NextOnlyOnSuccess | backend/src/middlewares/auth.middleware.js:8-34 | The request goes on iff a token is present, verifies to a truthy `userId`, and that id names a user. The user attached is the one found. |
| AuthMiddleware.RejectionsAreUnauthorizedOrServerError | backend/src/middlewares/auth.middleware.js:19-30 | A payload without `userId` and an unknown user each give 401 with an `error` body. Every rejection is a 401 or a 500 without cookies. |
| AuthMiddleware.ThrownErrorsAsWritten | backend/src/middlewares/auth.middleware.js:37-40 | As written, a thrown verifier error is a 401 iff it is named `JsonWebTokenError`; any other is a 500. |
| AuthMiddleware.ExpiredTokenIsServerErrorAsWritten | backend/src/middlewares/auth.middleware.js:37-40 | As written, an expired token gets 500 "Internal server error". |
| AuthMiddleware.IntendedDiffersOnlyOnTokenErrors | backend/src/middlewares/auth.middleware.js:4-42 | The corrected middleware answers 401 to every token error. Wherever it differs from the written one, the written one answered 500. |
| AuthMiddleware.Exchange.constructor | backend/src/middlewares/auth.middleware.js:4 | A request arrives with no `req.user`, no response and no call of `next`. |
| AuthMiddleware.Exchange.ProtectRoute | backend/src/middlewares/auth.middleware.js:4-42 | On a fresh request, either `req.user` is set to the found user and `next` is called exactly once, or a response is sent, `req.user` stays unset and `next` is never called. The outcome is `Decide` for the written catch block and `DecideIntended` for the corrected one. |
| AuthMiddleware.CookieAndTokenLifetimesAgree | backend/src/middlewares/auth.middleware.js:63-68 | The cookie's maxAge of 15*24*60*60*1000 ms is 1,296,000,000 ms, which equals the token's "15d". |
| AuthStore.ErrorMessage | frontend/src/store/useAuthStore.js:40-63 | The server's `message` wins over the status text, the status text over the default, no response gives the network text, and otherwise `error.message` or the fixed fallback is used. The result is never empty. |
| AuthStore.SignupErrorMessage | frontend/src/store/useAuthStore.js:40-63 | The server message wins. 400, 409 and 500 get their fixed texts, and any other status keeps "Error creating account". |
| AuthStore.LoginErrorMessage | frontend/src/store/useAuthStore.js:83-106 | The server message wins. 400, 401 and 500 get their fixed texts, and any other status keeps "Error logging in". |
| AuthStore.AuthStore.constructor | frontend/src/store/useAuthStore.js:9-15 | Nobody is signed in, no flag is up except `isCheckingAuth`, and there is no socket. |
| AuthStore.AuthStore.ConnectSocket | frontend/src/store/useAuthStore.js:144-160 | Nothing happens without `authUser` or with a connected socket. Otherwise a socket is opened with the user's id as `userId`. |
| AuthStore.AuthStore.DisconnectSocket | frontend/src/store/useAuthStore.js:161-163 | Only a connected socket is disconnected. |
| AuthStore.AuthStore.OnGetOnlineUsers | frontend/src/store/useAuthStore.js:156-158 | `onlineUsers` is replaced wholesale by the received list. |
| AuthStore.AuthStore.CheckAuth | frontend/src/store/useAuthStore.js:17-28 | `isCheckingAuth` ends false. On failure `authUser` is absent. On success `authUser` is the body's `user` field and the socket guard runs. |
| AuthStore.AuthStore.StartSignup | frontend/src/store/useAuthStore.js:31 | `isSigningUp` is up while the request runs. |
| AuthStore.AuthStore.FinishSignup | frontend/src/store/useAuthStore.js:32-69 | `isSigningUp` ends false whatever the outcome. Success signs in and connects. Failure shows `SignupErrorMessage` and keeps the session. |
| AuthStore.AuthStore.StartLogin | frontend/src/store/useAuthStore.js:74 | `isLoggingIn` is up while the request runs. |
| AuthStore.AuthStore.FinishLogin | frontend/src/store/useAuthStore.js:75-112 | `isLoggingIn` ends false whatever the outcome. Success signs in and connects. Failure shows `LoginErrorMessage`. |
| AuthStore.AuthStore.Logout | frontend/src/store/useAuthStore.js:116-127 | On success the user is signed out and the socket disconnected. On failure only "Error logging out" is shown. |
| AuthStore.AuthStore.StartUpdateProfile | frontend/src/store/useAuthStore.js:130 | `isUpdatingProfile` is up while the request runs. |
| AuthStore.AuthStore.FinishUpdateProfile | frontend/src/store/useAuthStore.js:131-141 | `isUpdatingProfile` ends false whatever the outcome. Success stores the returned profile. Failure shows "Error updating profile". |
| ChatStore.Copies | frontend/src/store/useChatStore.js:55-58 | As many copies of the pushed message as there are listeners. |
| ChatStore.ChatStore.constructor | frontend/src/store/useChatStore.js:9-13 | Empty lists, no selection, no flag up. |
| ChatStore.ChatStore.StartGetUsers | frontend/src/store/useChatStore.js:16 | `isUserLoading` is up while the request runs. |
| ChatStore.ChatStore.FinishGetUsers | frontend/src/store/useChatStore.js:17-24 | On success the user list is replaced. `isUserLoading` ends false whatever the outcome. |
| ChatStore.ChatStore.StartGetMessages | frontend/src/store/useChatStore.js:28 | `isMessagesLoading` is up while the request runs. |
| ChatStore.ChatStore.FinishGetMessages | frontend/src/store/useChatStore.js:29-36 | On success the message list is replaced wholesale by the fetched history, and kept on failure. `isMessagesLoading` ends false whatever the outcome. |
| ChatStore.ChatStore.SendMessage | frontend/src/store/useChatStore.js:39-47 | A successful send appends the server record to the list taken before the request. A failure, or no selected user, leaves the list unchanged. |
| ChatStore.ChatStore.SubscribeToMessages | frontend/src/store/useChatStore.js:49-60 | With no selected user nothing happens. Otherwise one `newMessage` listener is added. |
| ChatStore.ChatStore.UnsubscribeFromMessages | frontend/src/store/useChatStore.js:62-69 | With no selected user nothing happens. Otherwise all listeners are removed. |
| ChatStore.ChatStore.OnNewMessage | frontend/src/store/useChatStore.js:55-58 | Each pushed message is appended at the end without filtering by sender, once per listener. |
| ChatStore.ChatStore.SetSelectedUser | frontend/src/store/useChatStore.js:71 | Only `selectedUser` changes. |
| JsText.Trim | frontend/src/pages/SignupPage.jsx:17 | `String.prototype.trim`: both ends stripped. `TrimEndsAreNotSpace` and `TrimEmptyIffBlank` state what it gives. |
| JsText.TrimStart | frontend/src/pages/SignupPage.jsx:17 | Leading whitespace is removed: what is dropped is all whitespace, and the rest starts with a non-space. |
| JsText.TrimEnd | frontend/src/pages/SignupPage.jsx:17 | Trailing whitespace is removed: what is dropped is all whitespace, and the rest ends with a non-space. |
| JsText.TrimEndsAreNotSpace | frontend/src/pages/SignupPage.jsx:17 | What `trim()` returns neither starts nor ends with white space. |
| JsText.TrimEmptyIffBlank | frontend/src/pages/SignupPage.jsx:17 | `!s.trim()` holds exactly when `s` is all whitespace. |
| JsText.JsLength | frontend/src/pages/SignupPage.jsx:21 | `.length` counts UTF-16 units: between one and two per character, and zero only for the empty string. |
| EmailFormat.MatchesPattern | frontend/src/pages/SignupPage.jsx:19 | The language of `/^[^\s@]+@[^\s@]+\.[^\s@]+$/`: a split into three runs without white space or '@', joined by '@' and '.'. |
| EmailFormat.EmailFormatIsPattern | frontend/src/pages/SignupPage.jsx:19 | A string with no whitespace, exactly one '@', a non-empty local part and a '.' inside the domain matches the regular expression. |
| EmailFormat.PatternIsEmailFormat | frontend/src/pages/SignupPage.jsx:19 | Every match of the regular expression has no whitespace, exactly one '@', a non-empty local part and a '.' inside the domain. |
| EmailFormat.EmailFormatMatchesPattern | frontend/src/pages/LoginPage.jsx:16 | The plain-terms email rule and the regular expression accept exactly the same strings. |
| SignupPage.ValidateForm | frontend/src/pages/SignupPage.jsx:16-24 | Accepted iff the name, email and password are non-blank, the raw email matches the pattern and the raw password has at least 8 units. Each failure reports the first failing check in the source's order. |
| SignupPage.PatternEmailIsNotBlank | frontend/src/pages/SignupPage.jsx:18-19 | An email that matches the pattern is never blank. |
| SignupPage.PaddedPasswordIsLongEnough | frontend/src/pages/SignupPage.jsx:21 | The length rule counts the untrimmed password: "a" padded to 8 units passes, and padded to 7 it fails. |
| LoginPage.ValidateForm | frontend/src/pages/LoginPage.jsx:14-20 | Accepted iff the email is non-blank and matches the pattern and the password is non-blank, with no length rule. The first failing check is reported. |
| LoginPage.EmailCheckedBeforePassword | frontend/src/pages/LoginPage.jsx:14-20 | A verdict about the email does not depend on the password. |
| MessageInput.Refuses | frontend/src/components/MessageInput.jsx:69 | The send guard: trimmed text empty and no truthy preview. |
| MessageInput.RefusesMeans | frontend/src/components/MessageInput.jsx:69 | Sending is refused exactly when the text is all whitespace and there is no preview. |
| MessageInput.PayloadFor | frontend/src/components/MessageInput.jsx:71-74 | The payload's text is the trimmed text, and its image is the preview, or null when there is none. |
| MessageInput.SentPayloadIsNeverEmpty | frontend/src/components/MessageInput.jsx:69-74 | A sent payload carries non-empty text or an image. |
| MessageInput.MessageForm.constructor | frontend/src/components/MessageInput.jsx:8-9 | The form starts with empty text and no preview. |
| MessageInput.MessageForm.SendDisabled | frontend/src/components/MessageInput.jsx:209 | The button is disabled exactly when the text is blank and there is no preview. |
| MessageInput.MessageForm.HandleSendMessage | frontend/src/components/MessageInput.jsx:67-83 | Nothing is sent exactly when the button is disabled. Otherwise the trimmed payload is sent, and the form is cleared only once the send resolves. |
| MessageInput.MessageForm.HandleEmojiClick | frontend/src/components/MessageInput.jsx:60-61 | The emoji is appended at the end of the text. |
| MessageInput.MessageForm.RemoveImage | frontend/src/components/MessageInput.jsx:55-56 | The preview becomes null. |
| MessageInput.MessageForm.HandleImageChange | frontend/src/components/MessageInput.jsx:41-53 | A file whose MIME type does not start with "image/" leaves the preview unchanged. Otherwise the preview becomes the file's data URL. |
| EndToEnd.SignupFormPassesBackendGuard | frontend/src/pages/SignupPage.jsx:16-24 | Any form the signup page accepts passes the backend's field and length-6 checks. |
| EndToEnd.SignupIsLoginPlusLength | frontend/src/pages/LoginPage.jsx:14-20 | With a name given, the signup verdict equals the login verdict except for the extra 8-unit rule. |
| EndToEnd.SignupErrorsShowServerText | frontend/src/store/useAuthStore.js:47-48 | Every backend signup error has a `message` body, so the client shows the server's own text. |
| EndToEnd.LoginErrorsShowServerText | frontend/src/store/useAuthStore.js:90-91 | Every backend login error has a `message` body, so the client shows the server's own text. |
| EndToEnd.StatusTextsAreUnreachable | frontend/src/store/useAuthStore.js:51-95 | The client's bare-401 login text is never shown for a backend login answer, nor its bare-409 signup text for a backend signup answer. |

`MessageController.GetUsersForSidebar` also models `getUsers` in backend/src/middlewares/auth.middleware.js:90-103. That function has the same query and the same answers.

## Left out

- Transport and server plumbing are not modelled: socket.io server creation, CORS, Express wiring and logging (`console.*`).
- Connections are method calls on `SocketServer`. `io.emit` and `io.to(...).emit` are entries appended to its emission log.
- Foreign services are parameters: bcrypt, `jsonwebtoken`, Cloudinary and Mongoose. No hashing, signature or upload mathematics is modelled.
  - `jwt.verify` returns the payload's `userId` or the name of the error it throws.
  - The lookup in `protectRoute` returns the user without the password, nothing, or a thrown error.
  - `generateToken` lives in lib/utilis.js, which is not part of this model. It appears only as an `IssueToken` cookie write.
- backend/src/models/user.model.js is not part of this model. Only the fields the controllers touch are kept. The default picture is the constant `Users.DefaultProfilePic`, and `createdAt` is the clock parameter.
- AuthController.Login: takes the email as a string. What a query with an absent email matches depends on the driver.
- AuthController.SignupGuard: takes the fields as optional strings. A JSON field of another type, such as a number or an array, is not modelled.
- The `else` branch answering "Invalid user data" in signup is not modelled. A freshly constructed document is always truthy, so that branch cannot run. The 500 branches of logout and checkAuth are unreachable for the same kind of reason.
- Only the lifetime constants of the `login` handler in auth.middleware.js are modelled. It calls `bcrypt` without importing it, so every call reaches the 500 branch. `fetchWithAuth`, `testAuth` and `fetchUsers` in that file are unused browser code.
- The socket handshake takes `userId` from the query without checking the token. The model copies this trust: `OnConnection` registers whatever truthy id it is given.
- Concurrency is not modelled. Every handler is one atomic step, and a request with `await` is split into `Start` and `Finish` steps. So the model does not show a `newMessage` push that arrives while `sendMessage` awaits and is then overwritten by the snapshot.
- AuthStore.AuthStore.CheckAuth: takes the body's `user` field as given. The backend's checkAuth answers only `{ message }`, so with the backend as written that field is absent and `authUser` ends absent.
- AuthStore.AuthStore.ConnectSocket: treats the new socket as connected at once. The socket.io handshake is asynchronous.
- The listener that `connectSocket` registers is modelled as the `OnGetOnlineUsers` method.
- The chat store's toasts are not modelled. When there is no response, `error.response.data.message` throws a TypeError. The state after the `finally` is the same either way.
- These browser features that MessageInput uses are not modelled: `FileReader`, `localStorage`, focus, DOM listeners, the emoji picker state and the recent-emoji list. `saveRecentEmoji` is not defined in the component and throws after the text has already been updated. `toast` is used there without an import.
- How each form's verdict gates submission depends on the return value of `toast.error`, which comes from a library. The model states only the verdict.
- UI rendering is not modelled: SettingsPage, ProfilePage, ChatContainer, ChatHeader, App.jsx and the theme store.
- Socket.PutKeys: user ids are taken to be 24-hex-digit ObjectIds, as the client sends. JavaScript lists integer-like keys first in ascending order, an assignment to `__proto__` stores nothing, and a read of an inherited name such as `toString` finds a function; the model appends every new id, stores every id and reads only its own entries.
- MessageModel.Create: a present `senderId` or `receiverId` that fails Mongoose's ObjectId cast also fails validation (`POST /messages/send/abc` answers 500). The model does not check the id's shape: that failure is folded into `writeOk` in `sendMessage`, and into `queryOk` in `getMessages`, where the same cast makes the query throw.
- ChatStore.ChatStore.OnNewMessage: `newMessageHandlers` counts the `newMessage` listeners on the current socket. In the source they belong to the socket object, which `connectSocket` replaces on a later login, so the old listeners go with the old socket. The model does not reset the count when the socket is replaced, so after subscribe, logout, login and a push it appends a copy where the source appends none.
- MessageController.SortByCreatedAt: does not state an order between messages with equal `createdAt`, because MongoDB's sort does not fix one.

## Findings

| source | as written | input that shows it | evidently intended | confidence | as-written member | corrected member |
|---|---|---|---|---|---|---|
| backend/src/middlewares/auth.middleware.js:37-40 | The catch block answers 401 only when `error.name` is exactly `JsonWebTokenError`. `jwt.verify` names its other token errors `TokenExpiredError` and `NotBeforeError`. | A `jwt` cookie holding a well-signed token whose `exp` has passed. `jwt.verify` throws `TokenExpiredError`, and the answer is 500 "Internal server error". | Every rejected token answers 401 "Unauthorized - Invalid token". `Exchange.ProtectRoute` with its `intended` flag set follows this corrected decision. | medium, not executed | AuthMiddleware.ExpiredTokenIsServerErrorAsWritten | AuthMiddleware.CatchIntended |
