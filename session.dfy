/**
  The state of the authentication store as a value, and each of its
  operations as a function from the state before to the state after. Each
  asynchronous flow is taken as one atomic step, given the outcome of its
  HTTP request. These functions are the specification that the methods of
  `Store.AuthStore` are proved against.
 */
module Session {
  import opened Values

  /**
    The presence socket: the user id it was opened with (its handshake
    query) and whether it is connected. Opening is taken to complete at once.
   */
  datatype Socket = Socket(userId: Option<Value>, connected: bool)

  /** What the store did that is visible outside it, in order. */
  datatype Effect =
    | Notify(toast: Toast)            // a toast was shown
    | Opened(userId: Option<Value>)   // a new socket was created and connected
    | Closed                          // the current socket was disconnected

  datatype State = State(
    authUser: Option<Profile>,
    isSigningUp: bool,
    isLoggingIn: bool,
    isUpdatingProfile: bool,
    isCheckingAuth: bool,
    onlineUsers: seq<string>,
    socket: Option<Socket>,
    effects: seq<Effect>)

  const SignupSuccess := "Account created successfully!"
  const SignupFallback := "Something went wrong. Please try again."
  const LoginSuccess := "Login successful!"
  const LoginFallback := "Failed to login. Please check your credentials and try again."
  const LogoutSuccess := "Logged out successfully!"
  const LogoutFallback := "Failed to logout. Please try again."
  const UpdateSuccess := "Profile updated successfully!"
  const UpdateFallback := "Failed to update profile. Please try again."

  /** The state the store is created in. */
  function Init(): State
  {
    State(None, false, false, false, true, [], None, [])
  }

  /** `socket?.connected` */
  predicate Live(s: State)
  {
    s.socket.Some? && s.socket.value.connected
  }

  function Notified(s: State, t: Toast): State
  {
    s.(effects := s.effects + [Notify(t)])
  }

  /** connectSocket */
  function Connect(s: State): State
  {
    if s.authUser.None? || Live(s) then s
    else
      var id := IdOf(s.authUser.value);
      s.(socket := Some(Socket(id, true)), effects := s.effects + [Opened(id)])
  }

  /** disconnectSocket */
  function Disconnect(s: State): State
  {
    if Live(s) then s.(socket := Some(s.socket.value.(connected := false)), effects := s.effects + [Closed])
    else s
  }

  /** checkAuth */
  function CheckAuth(s: State, o: Outcome): State
  {
    match o
    case Ok(d) => Connect(s.(authUser := Some(d))).(isCheckingAuth := false)
    case Err(_) => s.(authUser := None, isCheckingAuth := false)
  }

  /** The try/catch body that signup and login share. */
  function Authenticate(s: State, o: Outcome, successText: string, fallback: string): State
  {
    match o
    case Ok(d) => Connect(Notified(s.(authUser := Some(d)), Success(successText)))
    case Err(m) => Notified(s, Error(ErrorText(m, fallback)))
  }

  /** signup */
  function Signup(s: State, o: Outcome): State
  {
    Authenticate(s.(isSigningUp := true), o, SignupSuccess, SignupFallback).(isSigningUp := false)
  }

  /** login */
  function Login(s: State, o: Outcome): State
  {
    Authenticate(s.(isLoggingIn := true), o, LoginSuccess, LoginFallback).(isLoggingIn := false)
  }

  /** logout (the response body is not used) */
  function Logout(s: State, o: Outcome): State
  {
    match o
    case Ok(_) => Disconnect(Notified(s.(authUser := None), Success(LogoutSuccess)))
    case Err(m) => Notified(s, Error(ErrorText(m, LogoutFallback)))
  }

  /** updateProfile */
  function UpdateProfile(s: State, o: Outcome): State
  {
    var busy := s.(isUpdatingProfile := true);
    var done :=
      match o
      case Ok(d) => Notified(busy.(authUser := Some(Merge(busy.authUser, d))), Success(UpdateSuccess))
      case Err(m) => Notified(busy, Error(ErrorText(m, UpdateFallback)));
    done.(isUpdatingProfile := false)
  }

  /** The `getOnlineUsers` handler that connectSocket registers on the socket. */
  function ReceiveOnlineUsers(s: State, ids: seq<string>): State
  {
    s.(onlineUsers := ids)
  }

  /** One thing that can happen to the store. */
  datatype Event =
    | CheckAuthDone(o: Outcome)
    | SignupDone(o: Outcome)
    | LoginDone(o: Outcome)
    | LogoutDone(o: Outcome)
    | UpdateProfileDone(o: Outcome)
    | ConnectCalled
    | DisconnectCalled
    | OnlineUsersReceived(ids: seq<string>)

  function Step(s: State, e: Event): State
  {
    match e
    case CheckAuthDone(o) => CheckAuth(s, o)
    case SignupDone(o) => Signup(s, o)
    case LoginDone(o) => Login(s, o)
    case LogoutDone(o) => Logout(s, o)
    case UpdateProfileDone(o) => UpdateProfile(s, o)
    case ConnectCalled => Connect(s)
    case DisconnectCalled => Disconnect(s)
    case OnlineUsersReceived(ids) => ReceiveOnlineUsers(s, ids)
  }

  /** The state after the events of `t`, in order, starting from `s`. */
  function Run(s: State, t: seq<Event>): State
    decreases |t|
  {
    if t == [] then s else Step(Run(s, t[..|t| - 1]), t[|t| - 1])
  }

  /** The user ids of the sockets created, in order of creation. */
  function OpenedIds(log: seq<Effect>): seq<Option<Value>>
    decreases |log|
  {
    if log == [] then []
    else
      var last := log[|log| - 1];
      OpenedIds(log[..|log| - 1]) + (if last.Opened? then [last.userId] else [])
  }

  /** The number of disconnections. */
  function CloseCount(log: seq<Effect>): nat
    decreases |log|
  {
    if log == [] then 0
    else CloseCount(log[..|log| - 1]) + (if log[|log| - 1].Closed? then 1 else 0)
  }

  /** The toasts shown, in order. */
  function Toasts(log: seq<Effect>): seq<Toast>
    decreases |log|
  {
    if log == [] then []
    else
      var last := log[|log| - 1];
      Toasts(log[..|log| - 1]) + (if last.Notify? then [last.toast] else [])
  }

  /**
    The invariant of the store between flows: no flow is in flight, at most
    one socket is live (every socket created but the current one has been
    disconnected), and the stored socket is the one created last.
   */
  ghost predicate Inv(s: State)
  {
    && !s.isSigningUp && !s.isLoggingIn && !s.isUpdatingProfile
    && SocketsInv(s)
  }

  ghost predicate SocketsInv(s: State)
  {
    var ids := OpenedIds(s.effects);
    && |ids| == CloseCount(s.effects) + (if Live(s) then 1 else 0)
    && (s.socket.None? <==> ids == [])
    && (s.socket.Some? ==> ids[|ids| - 1] == s.socket.value.userId)
  }
}
