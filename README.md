# Authentication store of the Chatrix chat client

This project models `frontend/src/store/useAuthStore.js`, the zustand store that
holds the chat client's single user session. The store keeps:

- the signed-in user's profile (`authUser`);
- one in-flight flag per request flow (`isSigningUp`, `isLoggingIn`, `isUpdatingProfile`);
- `isCheckingAuth`;
- the ids of the online peers (`onlineUsers`);
- the presence socket (`socket`).

It has five request flows: `checkAuth`, `signup`, `login`, `logout` and
`updateProfile`. It also has the socket actions `connectSocket` and `disconnectSocket`,
plus the `getOnlineUsers` handler that `connectSocket` registers on the socket.

The model has four modules:

- `Values` (values.dfy). A profile is a `map<string, Value>`. The outcome of one HTTP request is
  `Ok(data) | Err(serverMsg)`. A toast is `Success(text) | Error(text)`. This module also has the
  two pure pieces of the store: the choice of an error toast's text (`ErrorText`) and the
  profile merge `{ ...authUser, ...data }` (`Merge`).
- `Session` (session.dfy). The whole store as a value `State`, and every action as a function
  from the state before to the state after. Each flow is one atomic step, given its request's
  outcome. What the store does outside itself goes in an ordered log `effects`: toasts shown,
  sockets opened, sockets disconnected. The log's `OpenedIds` is the list of sockets created,
  so its length counts them. `Run` applies a sequence of events. `Inv` is the invariant between
  flows: no flow in flight, at most one live socket, and the stored socket is the one created last.
- `SessionProperties` (properties.dfy). The lemmas that state what the store promises. These are
  flag hygiene, the outcome of each flow, connect gating and idempotence, disconnect, presence
  replacement, one toast per flow, and the invariant over every reachable state.
- `Store` (store.dfy). The class `AuthStore`, with the store's fields and one method per action.
  Each method assigns the fields the way the source's `set(...)` calls do: a flow's flag is set
  true before the request and cleared at the end, and `get().connectSocket()` is a call of
  `ConnectSocket`. Each method is proved to leave the object in exactly the state its `Session`
  function describes, and to keep `Valid()`. The log is a ghost field.

Behaviour of the store worth noting:

- `checkAuth` never sets `isCheckingAuth` to true. The flag is true only because it starts true,
  and the first `checkAuth` to finish clears it for good (`CheckingAuthUntilFirstCheck`).
- `checkAuth` shows no toast, while every other flow shows exactly one (`OneToastPerFlow`).
- `disconnectSocket` keeps the disconnected socket in `socket` and does not clear `onlineUsers`.
- A failed `checkAuth` clears the session without disconnecting the socket. So a connected socket
  can exist while no user is signed in (`FailedCheckKeepsSocket`). A failed `logout` likewise
  keeps both the session and the connected socket. A socket is only ever created while a user
  is signed in (`ConnectGated`).

## Model

| member | source | states |
|---|---|---|
| Values.ErrorText | frontend/src/store/useAuthStore.js:41-45 | the error text is the server's message when it is present and non-empty, the operation's fallback otherwise; it is never empty when the fallback is not |
| Values.Merge | frontend/src/store/useAuthStore.js:93-95 | the merged profile has the keys of both records; the response's fields win; fields the response lacks keep their old values; with no old profile the result is the response |
| Values.IdOf | frontend/src/store/useAuthStore.js:116 | the `_id` field of a profile, or `None` (JavaScript's `undefined`) when the profile has none |
| Session.Init | frontend/src/store/useAuthStore.js:10-16 | the initial state: no user, isCheckingAuth true, the other flags false, no online users, no socket, an empty log |
| Session.CheckAuth | frontend/src/store/useAuthStore.js:18-30 | checkAuth given its request's outcome: on success the user is the response and connectSocket runs; on failure the user is cleared; isCheckingAuth ends false |
| Session.Authenticate | frontend/src/store/useAuthStore.js:34-45 | the try/catch body shared by signup and login: on success the user is the response, a success toast is logged and connectSocket runs; on failure an error toast with `ErrorText` is logged |
| Session.Signup | frontend/src/store/useAuthStore.js:32-49 | signup: isSigningUp is raised, `Authenticate` runs with signup's texts, and isSigningUp is cleared |
| Session.Login | frontend/src/store/useAuthStore.js:52-69 | login: isLoggingIn is raised, `Authenticate` runs with login's texts, and isLoggingIn is cleared |
| Session.Logout | frontend/src/store/useAuthStore.js:71-85 | logout: on success the user is cleared, a success toast is logged and disconnectSocket runs; on failure only an error toast is logged |
| Session.UpdateProfile | frontend/src/store/useAuthStore.js:87-108 | updateProfile: isUpdatingProfile is raised; on success the user becomes `Merge` of the old user and the response and a success toast is logged; on failure an error toast is logged; the flag is cleared |
| Session.Connect | frontend/src/store/useAuthStore.js:110-121 | connectSocket: without a user or with a connected socket nothing changes; otherwise a connected socket for the user's `_id` is stored and its creation logged |
| Session.ReceiveOnlineUsers | frontend/src/store/useAuthStore.js:123-125 | the `getOnlineUsers` handler: the online users become the delivered list |
| Session.Disconnect | frontend/src/store/useAuthStore.js:127-129 | disconnectSocket: a connected socket is marked disconnected and the disconnection logged; otherwise nothing changes |
| SessionProperties.FlagHygiene | frontend/src/store/useAuthStore.js:18-107 | after any flow returns, on success or failure, its own flag is false and every other flag is unchanged; only checkAuth clears isCheckingAuth |
| SessionProperties.CheckingAuthUntilFirstCheck | frontend/src/store/useAuthStore.js:14-28 | after any sequence of events, isCheckingAuth is true exactly when it started true and no checkAuth has finished |
| SessionProperties.CheckAuthOutcome | frontend/src/store/useAuthStore.js:18-29 | a failed checkAuth clears the session, keeps the socket and shows nothing; a successful one stores the response and then opens a socket for its `_id` unless one is connected |
| SessionProperties.FailedCheckKeepsSocket | frontend/src/store/useAuthStore.js:22-26 | a successful checkAuth followed by a failed one leaves no session but a connected socket |
| SessionProperties.EstablishSession | frontend/src/store/useAuthStore.js:32-69 | a successful signup or login stores the response, appends exactly one success toast with the operation's text, and then opens a socket for the new user's `_id` unless one is connected, in that order |
| SessionProperties.FailureNotifies | frontend/src/store/useAuthStore.js:39-104 | a failed signup, login, logout or updateProfile keeps the session, the socket and the online users, and appends one error toast: the server's non-empty message, or else the operation's fallback |
| SessionProperties.LogoutOutcome | frontend/src/store/useAuthStore.js:71-85 | a successful logout clears the session, shows one success toast and then disconnects, keeping the stored socket and the online users; a failed logout keeps the session and the socket's connection |
| SessionProperties.ProfileMerged | frontend/src/store/useAuthStore.js:87-108 | a successful updateProfile leaves a profile holding every response field, every old field the response lacks, and nothing else; it is exactly the response when there was no profile; the socket is untouched and one success toast is shown |
| SessionProperties.MergeExample | frontend/src/store/useAuthStore.js:93-95 | `{_id: "1", name: "Ann", bio: "x"}` updated with `{bio: "y"}` is `{_id: "1", name: "Ann", bio: "y"}` |
| SessionProperties.ConnectGated | frontend/src/store/useAuthStore.js:110-121 | connectSocket changes nothing without a user or while the socket is connected; otherwise it creates exactly one socket, for the user's `_id`, stores it connected, appends exactly that creation to the log, and changes nothing else |
| SessionProperties.ConnectTwice | frontend/src/store/useAuthStore.js:110-121 | a second connectSocket right after the first does nothing, so two calls create at most one socket |
| SessionProperties.DisconnectSpec | frontend/src/store/useAuthStore.js:127-129 | disconnectSocket does nothing unless the socket is connected; afterwards no socket is connected; it never clears the stored socket or the online users; a second call does nothing |
| SessionProperties.PresenceReplaced | frontend/src/store/useAuthStore.js:123-125 | receiving `[A, B]` and then `[C]` leaves the online users `[C]` |
| SessionProperties.OnlineUsersAreLatest | frontend/src/store/useAuthStore.js:123-125 | after any events the online users are the most recent peer list the socket delivered (the initial value when none was); no flow writes them |
| SessionProperties.OneToastPerFlow | frontend/src/store/useAuthStore.js:18-108 | signup, login, logout and updateProfile each show exactly one toast; checkAuth and the socket actions show none |
| SessionProperties.InitInv | frontend/src/store/useAuthStore.js:10-16 | the initial state satisfies the invariant |
| SessionProperties.CheckAuthKeepsInv | frontend/src/store/useAuthStore.js:18-30 | checkAuth keeps the invariant |
| SessionProperties.SignupKeepsInv | frontend/src/store/useAuthStore.js:32-49 | signup keeps the invariant |
| SessionProperties.LoginKeepsInv | frontend/src/store/useAuthStore.js:52-69 | login keeps the invariant |
| SessionProperties.LogoutKeepsSockets | frontend/src/store/useAuthStore.js:71-85 | logout keeps the socket invariant |
| SessionProperties.UpdateProfileKeepsSockets | frontend/src/store/useAuthStore.js:87-108 | updateProfile keeps the socket invariant |
| SessionProperties.ConnectKeepsSockets | frontend/src/store/useAuthStore.js:110-126 | connectSocket keeps the socket invariant: it creates a socket only when none is connected |
| SessionProperties.DisconnectKeepsSockets | frontend/src/store/useAuthStore.js:127-129 | disconnectSocket keeps the socket invariant |
| SessionProperties.StepPreservesInv | frontend/src/store/useAuthStore.js:18-129 | every action keeps the invariant |
| SessionProperties.RunPreservesInv | frontend/src/store/useAuthStore.js:18-129 | any sequence of actions keeps the invariant |
| SessionProperties.Reachable | frontend/src/store/useAuthStore.js:9-129 | in every reachable state no flow is in flight; the sockets created outnumber the disconnections by one exactly when the socket is connected, and by none otherwise; there is a stored socket exactly when one was created, and it is the last one created |
| Store.AuthStore.constructor | frontend/src/store/useAuthStore.js:10-16 | the store starts with no user, isCheckingAuth true, the other flags false, no online users, no socket and nothing shown |
| Store.AuthStore.CheckAuth | frontend/src/store/useAuthStore.js:18-30 | the new state is `Session.CheckAuth` of the old one, and the invariant is kept |
| Store.AuthStore.Signup | frontend/src/store/useAuthStore.js:32-49 | the new state is `Session.Signup` of the old one, and the invariant is kept |
| Store.AuthStore.Login | frontend/src/store/useAuthStore.js:52-69 | the new state is `Session.Login` of the old one, and the invariant is kept |
| Store.AuthStore.Logout | frontend/src/store/useAuthStore.js:71-85 | the new state is `Session.Logout` of the old one, and the invariant is kept |
| Store.AuthStore.UpdateProfile | frontend/src/store/useAuthStore.js:87-108 | the new state is `Session.UpdateProfile` of the old one, and the invariant is kept |
| Store.AuthStore.ConnectSocket | frontend/src/store/useAuthStore.js:110-126 | the new state is `Session.Connect` of the old one, and the socket invariant is kept |
| Store.AuthStore.DisconnectSocket | frontend/src/store/useAuthStore.js:127-129 | the new state is `Session.Disconnect` of the old one, and the socket invariant is kept |
| Store.AuthStore.OnGetOnlineUsers | frontend/src/store/useAuthStore.js:123-125 | the online users are replaced by the delivered list and nothing else changes |
| Store.LoginThenPresence | frontend/src/store/useAuthStore.js:52-125 | on a new store, a successful login leaves the socket connected, and the peer lists `[A, B]` then `[C]` leave `[C]` |

## Left out

- HTTP transport: `axiosInstance` is not modelled. Each flow takes its request's outcome as a parameter.
- socket.io: `io(...)`, the wire protocol, and reconnection or server-initiated disconnects are
  not modelled. `socket.connect()` is taken to complete at once, so a new socket is connected as
  soon as it is stored. The handshake window, in which `socket.connected` is still false, is not modelled.
- The `getOnlineUsers` handler that each `connectSocket` registers on its own socket is not modelled
  as a registration. `OnGetOnlineUsers` stands for an event delivered on the current, connected socket.
- The `BASE_URL` choice from the build environment is not modelled; it is deployment configuration.
- Toast rendering and `console.log`/`console.error` are not modelled. Toasts are kept only as
  entries of the ghost log `effects`.
- zustand's `create`/`set`/`get` are not modelled. `set` is field assignment on the object.
- Overlapping flows are not modelled: each flow is atomic, given its outcome. So the moment while a
  request is pending, when the flow's own flag is true, cannot be observed. The flag is set true before
  the request only inside the method bodies.
- Exceptions thrown after a request succeeded are not modelled, for example by `toast.success` or
  inside `connectSocket`. In the source these would land in the same `catch`. Only the request
  itself is taken to fail.
- Profile values are JSON scalars with integer numbers. Nested objects and arrays in a profile,
  non-object response bodies, and a `message` that is not a string are not modelled.
