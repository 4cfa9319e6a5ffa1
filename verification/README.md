# BitCraft Companion client data layer in Dafny

This project models the client-side data layer of the BitCraft Companion app.
That layer sits between the screens and a remote game API reached through a
proxy, and it has three parts:

- **The API façade** (`BitCraftAPI`). Every getter returns the live `data`
  payload of the server's `{success, data}` envelope when it is truthy, and a
  fixed mock value otherwise. A response interceptor turns every rejected
  request into a resolved `{success: true, data: null}`.
- **The game-data store** (`BitCraftProvider`). It holds a world map, a chat
  list, one loading flag and one error. A world-map fetch replaces the map. A
  chat fetch replaces the list. A send appends one message.
- **The session store** (`AuthProvider`). It builds a user from the username
  at login or registration, persists it under the key `user`, restores it at
  start-up, and clears it at logout.

The model also covers the two input guards that feed these stores: the chat
screen's trim guard and channel selection, and the login screen's blank-field
guard.

The model is functional. Each state record is an immutable datatype, and each
store operation is a pure transition from the state before the call to the
state after it has settled. Everything outside the model is a parameter:

- A request's outcome is an `Exchange`, which is either `Answered(body)` or
  `Rejected(reason)`. A body is either an envelope or nothing.
- A storage call either completes or throws.
- A clock reading is a number.

The façade's `catch` branches can be reached only through an answer whose
`response.data` is null or undefined (for example, the JSON text `null`),
because reading `.data` of it throws. The interceptor routes a
rejected request to the `||` fallback instead.

Modules, one per source file or concern:

| module | file | models |
|---|---|---|
| `Wrappers` | wrappers.dfy | `T \| null` as `Option<T>` |
| `Text` | text.dfy | JavaScript `String.prototype.trim` and a reference definition of its result |
| `GameTypes` | game_types.dfy | the map and chat records of `BitCraftContext.tsx` |
| `AccountTypes` | account_types.dfy | the user, claim and empire records of `AuthContext.tsx` |
| `Gateway` | gateway.dfy | requests, envelopes, the response interceptor, and the shared `data \|\| mock` selection |
| `BitCraftApi` | bitcraft_api.dfy | the mock constants, the request each getter issues, and every getter |
| `GameStore` | game_store.dfy | the game-data store |
| `SessionStore` | session_store.dfy | the session store and its storage slot |
| `ChatScreen` | chat_screen.dfy | the send guard, the channel selection and its refetch |
| `LoginScreen` | login_screen.dfy | the sign-in guard and the mode toggle |

Some behaviours of the code are easy to miss:

- The store has no per-domain status, no in-flight guard, and no state that is
  both failed and populated.
- The store does not reject blank text. Only the chat screen does.
- `fetchChatMessages` installs one 'global' message for any channel and never
  consults the façade.
- No reachable path ever sets the store's `error`.
- `getChatMessages` shows all three mock messages when the server's data is
  null, 'empire' included. It filters by channel only on its `catch` path.

## Model

| member | source | states |
|---|---|---|
| Gateway.Intercept | src/services/BitCraftAPI.ts:105-111 | a resolved response passes through unchanged; every rejection becomes `{success: true, data: null}` |
| Gateway.Resolve | src/services/BitCraftAPI.ts:116-124 | the shared getter shape, stated on the raw exchange: the live payload whenever one is delivered (whatever `success` says), the `catch` value only for an answer whose `response.data` is null or undefined, the `\|\|` fallback in every other case, rejections included |
| Gateway.RejectionReachesFallback | src/services/BitCraftAPI.ts:105-111 | a rejected request reads as a null payload and so reaches the `\|\|` fallback, never the `catch` |
| BitCraftApi.MockWorldMap | src/services/BitCraftAPI.ts:8-41 | the fallback map is 1000 by 1000, with exactly two claims (both active) and four loose resources, every one with 0 <= quantity <= maxQuantity |
| BitCraftApi.MockChatMessages | src/services/BitCraftAPI.ts:43-65 | three mock messages with distinct ids on channels global, global and empire, timestamped oldest first and before the module loaded |
| BitCraftApi.MockUserClaims | src/services/BitCraftAPI.ts:67-78 | one active mock claim whose stocks all satisfy 0 <= quantity <= maxQuantity |
| BitCraftApi.MockUserEmpires | src/services/BitCraftAPI.ts:80-92 | one mock empire with two members, holding the mock claim |
| BitCraftApi.MockServerStatus | src/services/BitCraftAPI.ts:184-189 | the fallback status reports the server online with 1250 players |
| BitCraftApi.MockPlayers | src/services/BitCraftAPI.ts:220-224 | the fallback search result is three players, the first and third online |
| BitCraftApi.WorldMapRequest | src/services/BitCraftAPI.ts:115-119 | the map request goes to the world-map path and carries `bounds` only when the caller gives it |
| BitCraftApi.UserClaimsRequest | src/services/BitCraftAPI.ts:128-132 | the claims request carries the user id as `user_id` |
| BitCraftApi.UserEmpiresRequest | src/services/BitCraftAPI.ts:141-145 | the empires request carries the user id as `user_id` |
| BitCraftApi.ChatMessagesRequest | src/services/BitCraftAPI.ts:154-158 | the chat request carries the channel as given |
| BitCraftApi.SendChatMessageRequest | src/services/BitCraftAPI.ts:167-172 | the chat post carries the message and channel exactly as given |
| BitCraftApi.ServerStatusRequest | src/services/BitCraftAPI.ts:181-183 | the status request carries no parameters |
| BitCraftApi.ResourcesInAreaRequest | src/services/BitCraftAPI.ts:202-206 | the area request carries x and y, and a radius of 100 when the caller omits it |
| BitCraftApi.SearchPlayersRequest | src/services/BitCraftAPI.ts:215-219 | the search request carries the query, and a limit of 10 when the caller omits it |
| BitCraftApi.GetWorldMap | src/services/BitCraftAPI.ts:115-125 | issues exactly the request `WorldMapRequest` describes for its arguments and returns the delivered map when there is one, the mock map on both failure paths |
| BitCraftApi.GetUserClaims | src/services/BitCraftAPI.ts:128-138 | issues exactly the request `UserClaimsRequest` describes for its arguments and returns the delivered claims, even an empty list, when there are any; otherwise the mock claims |
| BitCraftApi.GetUserEmpires | src/services/BitCraftAPI.ts:141-151 | issues exactly the request `UserEmpiresRequest` describes for its arguments and returns the delivered empires when there are any; otherwise the mock empires |
| BitCraftApi.OnChannel | src/services/BitCraftAPI.ts:162 | the filter keeps exactly the messages on the channel, and no more of them than the input has |
| BitCraftApi.OnChannelAppend | src/services/BitCraftAPI.ts:162 | filtering distributes over concatenation, so kept messages stay in their original order |
| BitCraftApi.GetChatMessages | src/services/BitCraftAPI.ts:154-164 | issues exactly the request `ChatMessagesRequest` describes for its arguments and returns the delivered list as is; on the `catch` path the mocks filtered to the channel; otherwise, rejections included, all three mocks unfiltered |
| BitCraftApi.MockChatByChannel | src/services/BitCraftAPI.ts:162 | filtering the mocks gives the two global messages in order for 'global', the empire message for 'empire', and nothing for any other channel |
| BitCraftApi.ChatFailurePathsDiffer | src/services/BitCraftAPI.ts:159-162 | a rejected 'global' request shows the 'empire' mock message; a bodiless answer shows only global messages |
| BitCraftApi.SendChatMessage | src/services/BitCraftAPI.ts:167-173 | issues exactly the request `SendChatMessageRequest` describes for its arguments; the result is the body received, and for a rejected post `{success: true, data: null}`, not the echo |
| BitCraftApi.MockSendReceipt | src/services/BitCraftAPI.ts:174-177 | the `catch` receipt reports success and echoes the message and channel unchanged |
| BitCraftApi.GetServerStatus | src/services/BitCraftAPI.ts:181-199 | issues exactly the request `ServerStatusRequest` describes for its arguments and returns the delivered status when there is one, otherwise the fixed online status |
| BitCraftApi.GetResourcesInArea | src/services/BitCraftAPI.ts:202-212 | issues exactly the request `ResourcesInAreaRequest` describes for its arguments and returns the delivered resources when there are any; otherwise the mock map's resources, whatever x, y and radius are |
| BitCraftApi.SearchPlayers | src/services/BitCraftAPI.ts:215-233 | issues exactly the request `SearchPlayersRequest` describes for its arguments and returns the delivered players when there are any; otherwise the three mock players, whatever the query and limit |
| BitCraftApi.SuccessFlagIgnored | src/services/BitCraftAPI.ts:120 | a payload in an envelope with `success: false` is still returned |
| BitCraftApi.LiveDataNotClamped | src/services/BitCraftAPI.ts:207 | live resources reach the caller exactly as sent, with no clamping to the resource invariant |
| BitCraftApi.FallbackMapWellStocked | src/services/BitCraftAPI.ts:120-123 | a map that was not delivered live is 1000 by 1000 and satisfies the resource invariant |
| GameStore.Initial | src/context/BitCraftContext.tsx:72-75 | the store starts with no map, no messages, not loading, no error |
| GameStore.Loading | src/context/BitCraftContext.tsx:79-80 | while a fetch awaits, the store shows loading with the error cleared and its data untouched |
| GameStore.FetchWorldMap | src/context/BitCraftContext.tsx:77-90 | after a map fetch the store holds a map (the live one if delivered, else the mock), is not loading, has no error, and keeps its messages |
| GameStore.Greeting | src/context/BitCraftContext.tsx:99-107 | the installed message carries the fetch's clock, is on the 'global' channel and is not from 'You' |
| GameStore.GreetingIsNoMock | src/context/BitCraftContext.tsx:98-107 | the greeting is none of the façade's mock messages: the chat fetch does not go through the façade |
| GameStore.FetchChatMessages | src/context/BitCraftContext.tsx:92-116 | a chat fetch replaces the list with one 'global' message from Player1 whatever channel is asked for, keeps the map, and ends not loading with no error |
| GameStore.SendChatMessage | src/context/BitCraftContext.tsx:118-140 | a send grows the list by exactly one and leaves the earlier messages unchanged in place; the new last message is from 'You' with the text and channel exactly as given; the error is cleared; the map and loading flag are unchanged |
| GameStore.FetchClaimStatus | src/context/BitCraftContext.tsx:142-151 | every claim id yields no claim |
| GameStore.FetchResourceData | src/context/BitCraftContext.tsx:153-162 | every resource id yields no resource |
| GameStore.FetchesReplace | src/context/BitCraftContext.tsx:77-116 | what a fetch leaves behind does not depend on the previous map or messages |
| GameStore.SendThenFetchDropsMessage | src/context/BitCraftContext.tsx:92-140 | after a send followed by a chat fetch, no message from 'You' remains |
| GameStore.SendsAccumulate | src/context/BitCraftContext.tsx:135 | two sends keep the old list as a prefix and add the two texts in sending order |
| GameStore.RunStaysSettled | src/context/BitCraftContext.tsx:77-140 | after any sequence of completed operations, a settled store is settled again, and a store that holds a map keeps one |
| GameStore.ErrorNeverSet | src/context/BitCraftContext.tsx:84-86 | from the initial state, no sequence of operations ever sets the error |
| SessionStore.Initial | src/context/AuthContext.tsx:61-62 | the session starts with no user and loading |
| SessionStore.LoadStoredUser | src/context/AuthContext.tsx:68-79 | a stored user is restored; a missing key, a corrupt value or a failing read leaves the user as it was; loading ends in every case |
| SessionStore.SignedInUser | src/context/AuthContext.tsx:86-92 | a login user has id '1', the username, the address username@example.com, and no claims or empires |
| SessionStore.RegisteredUser | src/context/AuthContext.tsx:123-129 | a registered user has the same shape as a login user, with the supplied email |
| SessionStore.Establish | src/context/AuthContext.tsx:94-102 | the user is set before the write; the result is true exactly when the write completes; the slot changes only then |
| SessionStore.Login | src/context/AuthContext.tsx:81-103 | login signs in the derived user, ignores the password, ends not loading, and returns true exactly when the write completes; the slot then holds that user, and a throwing write leaves storage as it was |
| SessionStore.Register | src/context/AuthContext.tsx:114-140 | register signs in the user with the supplied email, ends not loading, and returns true exactly when the write completes; the slot then holds that user, and a throwing write leaves storage as it was |
| SessionStore.Logout | src/context/AuthContext.tsx:105-112 | logout always clears the user; when the removal completes the keys are exactly the old keys minus the user slot, with their values kept; when it throws, storage is unchanged |
| SessionStore.RefreshUserData | src/context/AuthContext.tsx:142-152 | a refresh changes neither the user nor the loading flag |
| SessionStore.LoginRoundTrip | src/context/AuthContext.tsx:68-96 | a persisted login is restored at the next start as an equal user |
| SessionStore.RegisterRoundTrip | src/context/AuthContext.tsx:68-133 | a persisted registration is restored at the next start as an equal user |
| SessionStore.LoginWriteFailure | src/context/AuthContext.tsx:68-99 | when the write throws, login returns false while the user is signed in for this run, and the next start restores exactly what the slot held before the login (an earlier user stays) |
| SessionStore.StartupAuthenticated | src/context/AuthContext.tsx:68-156 | at start-up `isAuthenticated` becomes true exactly when the read completes and the slot holds a parseable user |
| SessionStore.LogoutThenRestart | src/context/AuthContext.tsx:105-112 | after a completed logout nothing is restored at the next start, whatever storage held; after a failed removal a stored user comes back |
| SessionStore.OtherKeysUntouched | src/context/AuthContext.tsx:95-108 | login and logout neither add, remove nor change any storage key other than `user` |
| Text.Trim | src/screens/ChatScreen.tsx:24-25 | the trimmed text is a slice of the input with only whitespace around it and no whitespace at its ends; it is empty exactly when the input is blank |
| Text.LeadingSpace | src/screens/ChatScreen.tsx:24 | counts exactly the whitespace before the first other character |
| Text.TrailingSpace | src/screens/ChatScreen.tsx:24 | counts exactly the whitespace after the last other character |
| Text.TrimmedOfUnique | src/screens/ChatScreen.tsx:24-25 | the reference definition of a trimmed string admits at most one result |
| Text.TrimMatchesReference | src/screens/ChatScreen.tsx:24-25 | a string is the trim of the input exactly when it meets the reference definition |
| Text.TrimIdempotent | src/screens/ChatScreen.tsx:24-25 | trimming the trimmed text changes nothing, so the guard's trim and the sent trim agree |
| Text.TrimTruthy | src/screens/ChatScreen.tsx:24 | the trimmed text is truthy exactly when some character is not whitespace |
| ChatScreen.ButtonChannel | src/screens/ChatScreen.tsx:68-85 | each channel button selects one of 'global', 'empire' and 'claim' |
| ChatScreen.Mount | src/screens/ChatScreen.tsx:16-21 | the screen starts with an empty draft on 'global' and fetches that channel |
| ChatScreen.TypeText | src/screens/ChatScreen.tsx:101 | typing replaces the draft and changes nothing else |
| ChatScreen.HandleSendMessage | src/screens/ChatScreen.tsx:23-28 | a blank draft changes nothing; otherwise the trimmed draft is sent on the selected channel and the draft is cleared |
| ChatScreen.SendDisabled | src/screens/ChatScreen.tsx:107-109 | the send button is disabled exactly when the draft is blank |
| ChatScreen.PressSend | src/screens/ChatScreen.tsx:106-109 | pressing the disabled button does nothing; pressing it enabled runs the send handler |
| ChatScreen.SendGuardsAgree | src/screens/ChatScreen.tsx:107-109 | the button is disabled exactly when the handler's guard would refuse, and a press changes the screen exactly when enabled |
| ChatScreen.SentTextIsTrimmed | src/screens/ChatScreen.tsx:25 | the appended message is the trimmed draft, non-empty with no whitespace at either end, on the selected channel |
| ChatScreen.ChooseChannel | src/screens/ChatScreen.tsx:19-21 | choosing a different channel selects it and refetches for it; choosing the selected channel again changes nothing |
| ChatScreen.ReplayKeepsChannelKnown | src/screens/ChatScreen.tsx:17-85 | under any sequence of user actions the selected channel stays one of the three |
| ChatScreen.ReplaySendsOnKnownChannels | src/screens/ChatScreen.tsx:25 | under any sequence of user actions every message shown stays on one of the three channels |
| ChatScreen.MountedScreenStaysOnKnownChannels | src/screens/ChatScreen.tsx:17-25 | from a fresh mount, the selection and every message shown stay on the three known channels |
| LoginScreen.HandleLogin | src/screens/LoginScreen.tsx:23-35 | a blank field gives the alert and no call; otherwise login gets the trimmed username and the untrimmed password, and the screen goes to 'Main' on success or shows the failure alert |
| LoginScreen.PressSignIn | src/screens/LoginScreen.tsx:82-85 | pressing sign-in submits nothing exactly while the session store is loading, and otherwise runs the login handler |
| LoginScreen.SignInWaitsForStartup | src/screens/LoginScreen.tsx:17-85 | before the stored user has been read a press submits nothing; after the read, whatever its outcome, a press with both fields filled calls `login` |
| LoginScreen.HandleRegister | src/screens/LoginScreen.tsx:37-39 | the register button flips the mode flag and nothing else |
| LoginScreen.RegisterToggleInvolution | src/screens/LoginScreen.tsx:37-39 | toggling the mode twice restores the view |
| LoginScreen.SubmissionIgnoresMode | src/screens/LoginScreen.tsx:29 | a submission behaves the same in either mode, and a signed-in user always gets the derived address |
| LoginScreen.SuccessfulSubmissionPersists | src/screens/LoginScreen.tsx:29-31 | a successful submission goes to 'Main' with a session that the next start restores |

## Left out

- Rendering, styles and navigation wiring are not modelled. Neither are the display-only screens (claims, dashboard, world map, profile, splash). These are presentation only.
- The proxy backend (`backend/src`) is not part of this model. It is an HTTP pass-through with middleware.
- The axios client's configuration is not modelled: the base URL, the key from the environment, and the headers. It is transport only.
- Serialisation is abstracted. JSON encoding and parsing of the stored user are reduced to a slot that holds either the user or an unparseable value.
- A stored value that parses to something other than a user record is not modelled. Examples are the text `null`, a number, or an empty string (which the code treats as missing).
- The server's payload is typed. A falsy payload value (`null`, `false`, `0`, `""`) is `None`. A payload of the wrong shape is outside the model.
- Clock values are parameters, not modelled. These are `Date.now()` ids, `new Date()` timestamps and the load time of the mock messages.
- Console logging is not modelled.
- Interleaving of overlapping asynchronous calls on the shared loading flag and error is not modelled. Each operation is one atomic transition. This includes the session store's loading flag being set while a login awaits.
- Unreachable `catch` branches are not modelled as transitions: in `fetchWorldMap`, `fetchChatMessages`, `sendChatMessage` of the store, `fetchClaimStatus`, `fetchResourceData` and `refreshUserData`. Nothing in their `try` blocks can throw. The façade's `sendChatMessage` receipt is modelled as `MockSendReceipt`, but no exchange reaches it.
- ChatScreen.ChooseChannel: refetches only when the selected channel changes. In the source, the effect also depends on `fetchChatMessages`, which the store recreates on every render, so React re-runs the effect after every store update. That re-rendering schedule is outside this model.
- ChatScreen.HandleSendMessage: the model shows a sent message staying on screen until the next chat fetch. In the source that fetch comes at once: `fetchChatMessages` installs a fresh array and the provider recreates the function on every render, so the effect that refetches the chat re-runs after every store update. While the chat screen is mounted it refetches without end, and a sent message is replaced by the 'global' greeting straight away (what that refetch does is stated by `GameStore.SendThenFetchDropsMessage`). The render loop itself is outside this model.
- Strings: a Dafny string is a sequence of Unicode scalar values, while a JavaScript string is a sequence of UTF-16 code units. `trim` agrees on well-formed text, because every code point it strips is one code unit, but a lone surrogate has no counterpart in the model.
- JavaScript numbers are modelled as unbounded whole numbers. Coordinates, radius, limit, quantities, sizes, player counts and clock values cannot be fractions, `NaN` or infinities in the model, so a call such as `getResourcesInArea(1.5, 2.5)` has no counterpart. The only arithmetic the source does on them is a constant offset or a string conversion of a clock reading (`Date.now() - 3600000`, `Date.now().toString()`), and clock readings are parameters here.
- The `useBitCraft` and `useAuth` hooks throw when used outside their provider. That is a wiring error, not data-layer behaviour.
