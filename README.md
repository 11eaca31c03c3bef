# Direct-messaging client: session, roster and conversation logic

A Dafny model of the logic layer of a React Native chat client built on Firebase.
Users log in with a phone number and a verification code, see a roster of the
other users, and exchange text messages in two-party conversations. The model
covers five parts of the client:

- **Conversation screen** (`Chat`). Each snapshot of the `chats` collection is
  filtered to the records between the signed-in user and the peer, in snapshot
  order, and replaces the message list. A press of Send appends a record,
  unless the input is blank after JavaScript's `trim`. The `trim` itself is
  modelled in `JsText`.
- **Authentication context** (`Auth`). A reducer with the actions `SET_USER`
  and `REMOVE_USER` over `{isLoggedIn, user}`. Three operations keep the cached
  `"user"` entry in step with that state.
- **Login screen** (`Login`). Send Code checks its guards in order: the phone
  must start with `+`, then the name must be non-empty. Verify Code rejects an
  empty code. A successful sign-in writes the profile under `users/<uid>`, and
  only after that caches the marker `{uid}` under `"user"`.
- **App root** (`Navigation`). The startup flag is whether the cache holds
  `"user"`. Logout removes that key and clears the flag. The screens offered
  are Home and Chat when logged in, and Login alone otherwise.
- **Roster screen** (`Roster`). The list holds every profile except the current
  user's, in store order. On an error it is left as it was. Pressing a user
  opens the chat with that user's uid and name.

Firebase Auth, Firestore and AsyncStorage are collaborators:

- AsyncStorage is a class over a `map` (`Storage.KeyValueCache`).
- The `users` and `chats` collections are classes over a `map` and an
  append-only `seq` (`Profiles.ProfileCollection`, `Chat.ChatCollection`).
- Each awaited remote call is an outcome parameter: the value it resolves to,
  or the message of the error it throws.
- JSON.stringify and JSON.parse are an opaque injective serialisation
  (`Storage.Stringify`, `Storage.Parse`).

The model follows the code where a design for such a client might promise more:

- The message list is not sorted by time. It keeps the snapshot's order.
- The phone number is checked only for a leading `+`, not for digits.
- The verification code is checked only for being non-empty, not for being numeric.
- Names and stored texts are not trimmed. Only the send guard trims.
- Every successful verification overwrites the profile. It is not written only once.
- The app root's logout does not sign out of Firebase.

## Model

| member | source | states |
|---|---|---|
| `Chat.InThread` | src/screens/ChatScreen.js:43-47 | A record passing the pair filter has sender and receiver both among the two ids, and distinct ones unless the two ids are the same |
| `Chat.Thread` | src/screens/ChatScreen.js:40-50 | The materialised list is no longer than the snapshot and every record in it passes the pair filter |
| `Chat.ThreadIsOrderedSelection` | src/screens/ChatScreen.js:40-51 | The materialised list is the snapshot with exactly the non-matching records removed: its k-th record is the snapshot record at the k-th kept position, kept positions strictly increase (no reordering), a position is kept iff its record passes the pair filter, and the list is no longer than the snapshot |
| `Chat.ThreadMembership` | src/screens/ChatScreen.js:43-48 | A record is in the list iff it is in the snapshot and (sender, receiver) is (self, peer) or (peer, self) |
| `Chat.ThreadIdempotent` | src/screens/ChatScreen.js:43-48 | Filtering the materialised list again returns the same list |
| `Chat.ThreadSymmetric` | src/screens/ChatScreen.js:43-47 | The pair filter depends only on the unordered pair: self's list for peer equals peer's list for self over the same snapshot |
| `Chat.Materialise` | src/screens/ChatScreen.js:40-50 | The forEach/push loop builds exactly the thread of the snapshot |
| `Chat.ChatScreen.OnSnapshot` | src/screens/ChatScreen.js:32-52 | After a delivery the message list is the thread of that snapshot alone, whatever it held before; with no signed-in user the effect throws before subscribing and the list stays as it was |
| `JsText.Trim` | src/screens/ChatScreen.js:58 | `trim` returns the piece of the string between a prefix and a suffix that are all JavaScript whitespace, and neither end of a non-empty result is whitespace |
| `JsText.TrimStart` | src/screens/ChatScreen.js:58 | The left half of trim: a suffix of the input, preceded only by whitespace, whose first character (if any) is not whitespace |
| `JsText.TrimEnd` | src/screens/ChatScreen.js:58 | The right half of trim: a prefix of the input, followed only by whitespace, whose last character (if any) is not whitespace |
| `JsText.TrimEmptyIffBlank` | src/screens/ChatScreen.js:58 | `message.trim()` is the empty (falsy) string iff every character of the message is whitespace or a line terminator |
| `Chat.ComposeMessage` | src/screens/ChatScreen.js:58-65 | No record for a blank input; otherwise a record with senderId = self, receiverId = peer, the untrimmed text, the send time and users = [self, peer] |
| `Chat.ArrayContains` | src/screens/ChatScreen.js:34-37 | The array-contains query delivers no more records than are stored, each with the uid in its users list |
| `Chat.ArrayContainsMembership` | src/screens/ChatScreen.js:33-37 | The array-contains query delivers exactly the stored records whose users list contains the uid |
| `Chat.SentRecordReachesBothViews` | src/screens/ChatScreen.js:33-65 | A sent record, once stored, is delivered by both participants' array-contains queries and kept by both the sender's view of the peer and the peer's view of the sender |
| `Chat.ChatCollection.AddDoc` | src/screens/ChatScreen.js:67 | addDoc appends one record and changes nothing already stored |
| `Chat.ChatScreen.constructor` | src/screens/ChatScreen.js:27-30 | The input starts empty and the message list starts as [] |
| `Chat.ChatScreen.SetMessage` | src/screens/ChatScreen.js:139 | Typing sets the input text |
| `Chat.ChatScreen.SendMessage` | src/screens/ChatScreen.js:57-71 | A blank input, no signed-in user (building the record throws) or a rejected addDoc leaves store and input unchanged; otherwise exactly the composed record is appended and then the input becomes "" |
| `Storage.Stringify` | src/AuthContext.js:49-55 | Parsing a serialised value gives back that value |
| `Storage.Parse` | src/AuthContext.js:49 | JSON.parse of a stored text gives the one value whose serialisation that text is |
| `Storage.KeyValueCache.GetItem` | src/AuthContext.js:47 | getItem returns the stored text when the key is present, null otherwise |
| `Storage.KeyValueCache.SetItem` | src/AuthContext.js:55 | setItem overwrites one key and leaves every other key unchanged |
| `Storage.KeyValueCache.RemoveItem` | src/AuthContext.js:61 | removeItem drops one key and leaves every other key unchanged |
| `Auth.Reduce` | src/AuthContext.js:16-33 | SET_USER gives isLoggedIn = true and user = payload; REMOVE_USER gives isLoggedIn = false and user = null; any other action returns the state unchanged |
| `Auth.InitialStateConsistent` | src/AuthContext.js:10-13 | Initially isLoggedIn holds iff user is not null |
| `Auth.ReducePreservesConsistent` | src/AuthContext.js:16-33 | Every action whose payload is not null preserves isLoggedIn ⇔ user ≠ null |
| `Auth.SetUserNullBreaksConsistency` | src/AuthContext.js:18-23 | SET_USER with a null payload yields a logged-in state with no user |
| `Auth.ReduceIdempotent` | src/AuthContext.js:16-33 | Applying any action twice equals applying it once |
| `Auth.AuthProvider.constructor` | src/AuthContext.js:43 | The provider starts in the initial state |
| `Auth.AuthProvider.Dispatch` | src/AuthContext.js:43 | dispatch replaces the state by the reducer's result |
| `Auth.AuthProvider.CheckUserLogin` | src/AuthContext.js:46-51 | No cached "user": state unchanged; otherwise SET_USER with the parsed cached value, after which state and cache agree |
| `Auth.AuthProvider.LoginUser` | src/AuthContext.js:54-57 | "user" ↦ serialise(u) is cached (no other key changes), then the state is logged in with user u and agrees with the cache |
| `Auth.AuthProvider.LogoutUser` | src/AuthContext.js:60-63 | "user" is removed (no other key changes), then the state is logged out, consistent, and agrees with the cache |
| `Profiles.ProfileCollection.SetDoc` | src/screens/LoginScreen.js:74-80 | setDoc overwrites the whole document under the uid and no other document |
| `Login.SendCodeGuard` | src/screens/LoginScreen.js:30-42 | Passes iff the phone starts with "+" and the name is non-empty; a bad phone is reported first, and a missing name only once the phone passes |
| `JsText.StartsWith` | src/screens/LoginScreen.js:30 | `startsWith` holds iff the prefix fits and agrees with the string character by character |
| `Login.LoginScreen.constructor` | src/screens/LoginScreen.js:21-24 | All inputs start empty and verificationId starts null |
| `Login.LoginScreen.SetPhoneNumber` | src/screens/LoginScreen.js:107 | Typing sets the phone number |
| `Login.LoginScreen.SetName` | src/screens/LoginScreen.js:116 | Typing sets the name |
| `Login.LoginScreen.SetVerificationCode` | src/screens/LoginScreen.js:134 | Typing sets the verification code |
| `Login.LoginScreen.SendVerificationCode` | src/screens/LoginScreen.js:29-56 | A failed guard or a failed request leaves verificationId unchanged and reports why; a successful request sets it to the returned id |
| `Login.ProfileOf` | src/screens/LoginScreen.js:75-80 | The profile carries the user's uid and phone, the entered name, and the photo URL or "" when there is none |
| `Login.SessionMarker` | src/screens/LoginScreen.js:83 | The cached marker is an object with the single field uid |
| `Login.RepeatedProfileWrite` | src/screens/LoginScreen.js:74-80 | Repeating the profile write with the same inputs leaves the same single record |
| `Login.LoginScreen.VerifyCode` | src/screens/LoginScreen.js:59-91 | An empty code is rejected before any exchange; a failed sign-in or profile write changes neither profiles nor cache; success writes users/uid = ProfileOf(user, name) and then "user" ↦ {uid}; the cache changes only on success |
| `Login.MarkerStartsSession` | src/screens/LoginScreen.js:83 | The cached marker makes the startup check find a session, and checkUserLogin then yields a consistent logged-in state with user {uid} that agrees with the cache |
| `Navigation.Screens` | src/App.js:51-83 | Home and Chat are offered iff logged in, Login iff not; the initial route is Home or Login accordingly |
| `Navigation.App.constructor` | src/App.js:16 | isLoggedIn starts false |
| `Navigation.App.CheckLoginStatus` | src/App.js:20-29 | isLoggedIn becomes whether the cache holds "user" |
| `Navigation.App.HandleLogout` | src/App.js:34-38 | "user" is removed (no other key changes) and isLoggedIn becomes false, agreeing with what a later startup check reads |
| `Roster.OthersMembership` | src/screens/ChatListScreen.js:20-30 | The roster holds no profile with the current uid and every other stored profile unmodified, and is no longer than the store |
| `Roster.Others` | src/screens/ChatListScreen.js:21-29 | The `where("uid", "!=", uid)` query returns no more profiles than are stored, none with the current uid |
| `Roster.OthersAppend` | src/screens/ChatListScreen.js:21-30 | The roster keeps store order: the roster of two runs of profiles is the roster of the first followed by that of the second |
| `Roster.HandleUserPress` | src/screens/ChatListScreen.js:39-42 | Selecting a user navigates with userId = user.uid and userName = user.name |
| `Roster.SelectedPeerIsOther` | src/screens/ChatListScreen.js:21-41 | A chat opened from the roster is never with the current user |
| `Roster.ChatListScreen.constructor` | src/screens/ChatListScreen.js:14 | The list starts as [] |
| `Roster.ChatListScreen.FetchUsers` | src/screens/ChatListScreen.js:18-34 | A successful fetch replaces the list wholesale by the query's roster; no signed-in user or a fetch error leaves the list unchanged |

## Left out

- `formatTime` (src/screens/ChatScreen.js:73-83): date conversion and locale formatting. The `Chat.Timestamp` union records the two shapes a time can take but is not formatted.
- The store's conversion of a sent JavaScript Date into a store Timestamp is not modelled. `Chat.SentRecordReachesBothViews` takes the stored record to be the sent one.
- The order in which the store delivers snapshot and query results is an input: the model takes the sequence as delivered and does not model Firestore's ordering rules.
- The subscription lifecycle (unsubscribe on unmount, src/screens/ChatScreen.js:54-55) and the interleaving of awaits are not modelled; each handler runs to completion.
- The Firebase Auth, Firestore and reCAPTCHA calls are outcome parameters, and their internals are not modelled. A failed write is taken to write nothing. The credential built from a null verificationId is covered by the sign-in outcome.
- The cache's `setItem` and `removeItem` are taken to succeed.
- Alerts are returned as values. `navigation.replace`, `Keyboard.dismiss`, JSX and styles are presentation and are not modelled.
- JSON numbers are integers. `undefined` payloads are not modelled: an action without a payload carries `null`.
- A cached text is always a serialisation, which is never the empty string. So the code's truthiness test on the stored user is modelled as presence of the key, and `JSON.parse` cannot fail.
- `Login.AuthUser.phoneNumber` is a string: a phone-authenticated user always has one, so the null case of `user.phoneNumber` is not modelled.
- The authentication context's operations are modelled as written, but this app never reaches them: src/App.js imports `AuthProvider` without rendering it, and no screen calls `useAuth`. So `checkUserLogin`, `loginUser` and `logoutUser` are never called, and the app root's flag and the login screen's cache write are the session state that matters.
- A missing signed-in user on the conversation screen is modelled as the handler throwing with no effect. The crash of the subscription effect itself is not modelled.
- ChatListScreen's `handleLogout` (src/screens/ChatListScreen.js:44-51) only calls Firebase `signOut` and replaces the route. It does not touch the cache, and signing out of Firebase is outside the model.
- src/firebase.js is SDK initialisation and configuration only.
