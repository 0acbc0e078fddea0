/**
  What the store promises, proved about the step functions of `Session`.
 */
module SessionProperties {
  import opened Values
  import opened Session

  // ---------------------------------------------------------------------
  // The effect log

  lemma {:induction false} OpenedIdsAppend(a: seq<Effect>, b: seq<Effect>)
    ensures OpenedIds(a + b) == OpenedIds(a) + OpenedIds(b)
    decreases |b|
  {
    if b == [] {
      assert a + b == a;
    } else {
      var b' := b[..|b| - 1];
      assert (a + b)[..|a + b| - 1] == a + b';
      assert (a + b)[|a + b| - 1] == b[|b| - 1];
      OpenedIdsAppend(a, b');
    }
  }

  lemma {:induction false} CloseCountAppend(a: seq<Effect>, b: seq<Effect>)
    ensures CloseCount(a + b) == CloseCount(a) + CloseCount(b)
    decreases |b|
  {
    if b == [] {
      assert a + b == a;
    } else {
      var b' := b[..|b| - 1];
      assert (a + b)[..|a + b| - 1] == a + b';
      assert (a + b)[|a + b| - 1] == b[|b| - 1];
      CloseCountAppend(a, b');
    }
  }

  lemma {:induction false} ToastsAppend(a: seq<Effect>, b: seq<Effect>)
    ensures Toasts(a + b) == Toasts(a) + Toasts(b)
    decreases |b|
  {
    if b == [] {
      assert a + b == a;
    } else {
      var b' := b[..|b| - 1];
      assert (a + b)[..|a + b| - 1] == a + b';
      assert (a + b)[|a + b| - 1] == b[|b| - 1];
      ToastsAppend(a, b');
    }
  }

  /** Appending one effect to the log, as each step does. */
  lemma AppendOne(log: seq<Effect>, x: Effect)
    ensures OpenedIds(log + [x]) == OpenedIds(log) + (if x.Opened? then [x.userId] else [])
    ensures CloseCount(log + [x]) == CloseCount(log) + (if x.Closed? then 1 else 0)
    ensures Toasts(log + [x]) == Toasts(log) + (if x.Notify? then [x.toast] else [])
  {
    OpenedIdsAppend(log, [x]);
    CloseCountAppend(log, [x]);
    ToastsAppend(log, [x]);
    assert [x][..0] == [];
  }

  // ---------------------------------------------------------------------
  // Flag hygiene

  /** connectSocket and disconnectSocket change only the socket and the log. */
  lemma SocketActionsFrame(s: State)
    ensures Connect(s).(socket := s.socket, effects := s.effects) == s
    ensures Disconnect(s).(socket := s.socket, effects := s.effects) == s
  {
  }

  /** The body shared by signup and login changes only the session, the socket and the log. */
  lemma AuthenticateFrame(s: State, o: Outcome, successText: string, fallback: string)
    ensures Authenticate(s, o, successText, fallback).(authUser := s.authUser, socket := s.socket, effects := s.effects) == s
  {
    if o.Ok? {
      SocketActionsFrame(Notified(s.(authUser := Some(o.data)), Success(successText)));
    }
  }

  /**
    When a flow returns, on success or failure, its own flag is false and
    every other flag is as it was; checkAuth clears isCheckingAuth and no
    other flow touches it. Only the `getOnlineUsers` handler writes the
    online users.
   */
  lemma FlagHygiene(s: State, e: Event)
    ensures var r := Step(s, e);
      && r.isSigningUp == (if e.SignupDone? then false else s.isSigningUp)
      && r.isLoggingIn == (if e.LoginDone? then false else s.isLoggingIn)
      && r.isUpdatingProfile == (if e.UpdateProfileDone? then false else s.isUpdatingProfile)
      && r.isCheckingAuth == (if e.CheckAuthDone? then false else s.isCheckingAuth)
      && r.onlineUsers == (if e.OnlineUsersReceived? then e.ids else s.onlineUsers)
  {
    match e
    case CheckAuthDone(o) => CheckAuthFrame(s, o);
    case SignupDone(o) => SignupFrame(s, o);
    case LoginDone(o) => LoginFrame(s, o);
    case LogoutDone(o) => LogoutFrame(s, o);
    case UpdateProfileDone(o) =>
    case ConnectCalled => SocketActionsFrame(s);
    case DisconnectCalled => SocketActionsFrame(s);
    case OnlineUsersReceived(_) =>
  }

  lemma CheckAuthFrame(s: State, o: Outcome)
    ensures CheckAuth(s, o).(authUser := s.authUser, socket := s.socket, effects := s.effects) == s.(isCheckingAuth := false)
  {
    if o.Ok? { SocketActionsFrame(s.(authUser := Some(o.data))); }
  }

  lemma SignupFrame(s: State, o: Outcome)
    ensures Signup(s, o).(authUser := s.authUser, socket := s.socket, effects := s.effects) == s.(isSigningUp := false)
  {
    AuthenticateFrame(s.(isSigningUp := true), o, SignupSuccess, SignupFallback);
  }

  lemma LoginFrame(s: State, o: Outcome)
    ensures Login(s, o).(authUser := s.authUser, socket := s.socket, effects := s.effects) == s.(isLoggingIn := false)
  {
    AuthenticateFrame(s.(isLoggingIn := true), o, LoginSuccess, LoginFallback);
  }

  lemma LogoutFrame(s: State, o: Outcome)
    ensures Logout(s, o).(authUser := s.authUser, socket := s.socket, effects := s.effects) == s
  {
    if o.Ok? { SocketActionsFrame(Notified(s.(authUser := None), Success(LogoutSuccess))); }
  }

  /** The initial value `isCheckingAuth = true` survives until the first checkAuth completes, and nothing sets it again. */
  lemma {:induction false} CheckingAuthUntilFirstCheck(s: State, t: seq<Event>)
    ensures Run(s, t).isCheckingAuth <==> s.isCheckingAuth && forall i :: 0 <= i < |t| ==> !t[i].CheckAuthDone?
    decreases |t|
  {
    if t != [] {
      var t' := t[..|t| - 1];
      CheckingAuthUntilFirstCheck(s, t');
      FlagHygiene(Run(s, t'), t[|t| - 1]);
      assert forall i :: 0 <= i < |t'| ==> t'[i] == t[i];
    }
  }

  // ---------------------------------------------------------------------
  // The socket manager

  /**
    connectSocket does nothing without a signed-in user or while the current
    socket is connected; otherwise it creates exactly one socket, opened with
    the user's `_id`, stores it as connected, and changes nothing else.
   */
  lemma ConnectGated(s: State)
    ensures s.authUser.None? || Live(s) ==> Connect(s) == s
    ensures s.authUser.Some? && !Live(s) ==>
      && Connect(s).socket == Some(Socket(IdOf(s.authUser.value), true))
      && OpenedIds(Connect(s).effects) == OpenedIds(s.effects) + [IdOf(s.authUser.value)]
      && Connect(s).effects == s.effects + [Opened(IdOf(s.authUser.value))]
    ensures Live(Connect(s)) <==> Live(s) || s.authUser.Some?
    ensures Connect(s).(socket := s.socket, effects := s.effects) == s
  {
    if s.authUser.Some? && !Live(s) {
      AppendOne(s.effects, Opened(IdOf(s.authUser.value)));
    }
  }

  /** Calling connectSocket twice in a row creates at most one socket. */
  lemma ConnectTwice(s: State)
    ensures Connect(Connect(s)) == Connect(s)
    ensures |OpenedIds(Connect(Connect(s)).effects)| <= |OpenedIds(s.effects)| + 1
  {
    ConnectGated(s);
  }

  /**
    disconnectSocket does nothing unless the current socket is connected;
    afterwards no socket is connected. It never clears the stored socket, the
    online users or anything else, and calling it again does nothing.
   */
  lemma DisconnectSpec(s: State)
    ensures !Live(s) ==> Disconnect(s) == s
    ensures !Live(Disconnect(s))
    ensures Disconnect(s).socket.Some? == s.socket.Some?
    ensures Live(s) ==> Disconnect(s).socket.value.userId == s.socket.value.userId
    ensures Disconnect(s).(socket := s.socket, effects := s.effects) == s
    ensures Disconnect(Disconnect(s)) == Disconnect(s)
  {
  }

  /** The `getOnlineUsers` handler replaces the list of online users instead of adding to it. */
  lemma PresenceReplaced(s: State)
    ensures Run(s, [OnlineUsersReceived(["A", "B"]), OnlineUsersReceived(["C"])]).onlineUsers == ["C"]
  {
    var t := [OnlineUsersReceived(["A", "B"]), OnlineUsersReceived(["C"])];
    assert t[..1] == [OnlineUsersReceived(["A", "B"])];
    assert t[..1][..0] == [];
  }

  /** Reference definition: the most recent peer list of `t`, or `initial` when none arrived. */
  function LatestOnlineUsers(t: seq<Event>, initial: seq<string>): seq<string>
    decreases |t|
  {
    if t == [] then initial
    else if t[|t| - 1].OnlineUsersReceived? then t[|t| - 1].ids
    else LatestOnlineUsers(t[..|t| - 1], initial)
  }

  /** After any events, the online users are the latest list the socket delivered; no flow writes them. */
  lemma {:induction false} OnlineUsersAreLatest(s: State, t: seq<Event>)
    ensures Run(s, t).onlineUsers == LatestOnlineUsers(t, s.onlineUsers)
    decreases |t|
  {
    if t != [] {
      OnlineUsersAreLatest(s, t[..|t| - 1]);
      FlagHygiene(Run(s, t[..|t| - 1]), t[|t| - 1]);
    }
  }

  // ---------------------------------------------------------------------
  // The flows

  /** The log after `log` when connectSocket ran in `s`: a new socket for `id` unless `s` had a connected one. */
  ghost predicate ConnectedAfter(s: State, log: seq<Effect>, r: State, id: Option<Value>)
  {
    if Live(s) then r.socket == s.socket && r.effects == log
    else r.socket == Some(Socket(id, true)) && r.effects == log + [Opened(id)]
  }

  /**
    checkAuth: on failure the session is cleared, no socket is created and
    nothing is shown; on success the session is the response, and
    connectSocket runs afterwards, with the new user's `_id`.
   */
  lemma CheckAuthOutcome(s: State, o: Outcome)
    ensures var r := CheckAuth(s, o);
      && r.onlineUsers == s.onlineUsers
      && (o.Err? ==> r.authUser.None? && r.socket == s.socket && r.effects == s.effects)
      && (o.Ok? ==> r.authUser == Some(o.data) && ConnectedAfter(s, s.effects, r, IdOf(o.data)))
  {
  }

  /**
    A failed checkAuth after a successful one leaves the socket connected
    although there is no longer a signed-in user.
   */
  lemma FailedCheckKeepsSocket(u: Profile)
    ensures var r := Run(Init(), [CheckAuthDone(Ok(u)), CheckAuthDone(Err(None))]);
      r.authUser.None? && Live(r)
  {
    var t := [CheckAuthDone(Ok(u)), CheckAuthDone(Err(None))];
    assert t[..1] == [CheckAuthDone(Ok(u))];
    assert t[..1][..0] == [];
  }

  /**
    signup and login on success: the session is the response, exactly one
    success toast is shown, and then connectSocket runs with the new user's
    `_id`, in that order.
   */
  lemma EstablishSession(s: State, e: Event)
    requires e.SignupDone? || e.LoginDone?
    requires e.o.Ok?
    ensures var r := Step(s, e);
      var text := if e.SignupDone? then SignupSuccess else LoginSuccess;
      && r.authUser == Some(e.o.data)
      && r.onlineUsers == s.onlineUsers
      && ConnectedAfter(s, s.effects + [Notify(Success(text))], r, IdOf(e.o.data))
  {
  }

  /** The fixed text a failing flow falls back to. */
  function Fallback(e: Event): string
  {
    match e
    case SignupDone(_) => SignupFallback
    case LoginDone(_) => LoginFallback
    case LogoutDone(_) => LogoutFallback
    case UpdateProfileDone(_) => UpdateFallback
    case _ => ""
  }

  /**
    A failing signup, login, logout or updateProfile leaves the session and
    the socket as they were and shows exactly one error toast: the server's
    message when it is non-empty, the operation's fallback otherwise.
   */
  lemma FailureNotifies(s: State, e: Event)
    requires e.SignupDone? || e.LoginDone? || e.LogoutDone? || e.UpdateProfileDone?
    requires e.o.Err?
    ensures var r := Step(s, e);
      var m := e.o.serverMsg;
      && r.authUser == s.authUser
      && r.socket == s.socket
      && r.onlineUsers == s.onlineUsers
      && (m.Some? && m.value != "" ==> r.effects == s.effects + [Notify(Error(m.value))])
      && (m.None? || m.value == "" ==> r.effects == s.effects + [Notify(Error(Fallback(e)))])
  {
  }

  /**
    logout on success clears the session, shows one success toast and then
    disconnects; the stored socket and the online users are kept. On failure
    the session stays and the socket is not disconnected.
   */
  lemma LogoutOutcome(s: State, o: Outcome)
    ensures var r := Logout(s, o);
      && r.onlineUsers == s.onlineUsers
      && r.socket.Some? == s.socket.Some?
      && (o.Ok? ==> r.authUser.None? && !Live(r)
                    && r.effects == s.effects + [Notify(Success(LogoutSuccess))] + (if Live(s) then [Closed] else []))
      && (o.Err? ==> r.authUser == s.authUser && Live(r) == Live(s))
  {
  }

  /**
    updateProfile on success: the profile is the old fields overridden by the
    response's fields; fields absent from the response keep their old values;
    with no profile the result is exactly the response. The socket is not
    touched and one success toast is shown.
   */
  lemma ProfileMerged(s: State, d: Profile)
    ensures var r := UpdateProfile(s, Ok(d));
      && r.authUser.Some?
      && (forall k :: k in d ==> k in r.authUser.value && r.authUser.value[k] == d[k])
      && (s.authUser.Some? ==> forall k :: k in s.authUser.value && k !in d ==>
                                 k in r.authUser.value && r.authUser.value[k] == s.authUser.value[k])
      && (forall k :: k in r.authUser.value ==> k in d || (s.authUser.Some? && k in s.authUser.value))
      && (s.authUser.None? ==> r.authUser == Some(d))
      && r.socket == s.socket
      && r.onlineUsers == s.onlineUsers
      && r.effects == s.effects + [Notify(Success(UpdateSuccess))]
  {
  }

  /** The example of a profile merge: `{_id: "1", name: "Ann", bio: "x"}` updated with `{bio: "y"}`. */
  lemma MergeExample()
    ensures Merge(Some(map["_id" := Str("1"), "name" := Str("Ann"), "bio" := Str("x")]), map["bio" := Str("y")])
         == map["_id" := Str("1"), "name" := Str("Ann"), "bio" := Str("y")]
  {
  }

  /**
    Every flow but checkAuth shows exactly one toast; checkAuth and the
    socket operations show none.
   */
  lemma OneToastPerFlow(s: State, e: Event)
    ensures e.SignupDone? || e.LoginDone? || e.LogoutDone? || e.UpdateProfileDone? ==>
      |Toasts(Step(s, e).effects)| == |Toasts(s.effects)| + 1
    ensures e.CheckAuthDone? || e.ConnectCalled? || e.DisconnectCalled? || e.OnlineUsersReceived? ==>
      Toasts(Step(s, e).effects) == Toasts(s.effects)
  {
    match e
    case CheckAuthDone(o) => if o.Ok? { ConnectToasts(s.(authUser := Some(o.data))); }
    case SignupDone(o) => AuthenticateToasts(s.(isSigningUp := true), o, SignupSuccess, SignupFallback);
    case LoginDone(o) => AuthenticateToasts(s.(isLoggingIn := true), o, LoginSuccess, LoginFallback);
    case LogoutDone(o) => LogoutToasts(s, o);
    case UpdateProfileDone(o) => UpdateProfileToasts(s, o);
    case ConnectCalled => ConnectToasts(s);
    case DisconnectCalled => DisconnectToasts(s);
    case OnlineUsersReceived(_) =>
  }

  lemma ConnectToasts(s: State)
    ensures Toasts(Connect(s).effects) == Toasts(s.effects)
  {
    if s.authUser.Some? && !Live(s) { AppendOne(s.effects, Opened(IdOf(s.authUser.value))); }
  }

  lemma DisconnectToasts(s: State)
    ensures Toasts(Disconnect(s).effects) == Toasts(s.effects)
  {
    if Live(s) { AppendOne(s.effects, Closed); }
  }

  lemma LogoutToasts(s: State, o: Outcome)
    ensures |Toasts(Logout(s, o).effects)| == |Toasts(s.effects)| + 1
  {
    match o
    case Ok(_) =>
      var n := Notified(s.(authUser := None), Success(LogoutSuccess));
      AppendOne(s.effects, Notify(Success(LogoutSuccess)));
      DisconnectToasts(n);
    case Err(m) => AppendOne(s.effects, Notify(Error(ErrorText(m, LogoutFallback))));
  }

  lemma UpdateProfileToasts(s: State, o: Outcome)
    ensures |Toasts(UpdateProfile(s, o).effects)| == |Toasts(s.effects)| + 1
  {
    match o
    case Ok(_) => AppendOne(s.effects, Notify(Success(UpdateSuccess)));
    case Err(m) => AppendOne(s.effects, Notify(Error(ErrorText(m, UpdateFallback))));
  }

  lemma AuthenticateToasts(s: State, o: Outcome, successText: string, fallback: string)
    ensures |Toasts(Authenticate(s, o, successText, fallback).effects)| == |Toasts(s.effects)| + 1
  {
    match o
    case Ok(d) =>
      var n := Notified(s.(authUser := Some(d)), Success(successText));
      AppendOne(s.effects, Notify(Success(successText)));
      ConnectToasts(n);
    case Err(m) => AppendOne(s.effects, Notify(Error(ErrorText(m, fallback))));
  }

  // ---------------------------------------------------------------------
  // The invariant

  lemma InitInv()
    ensures Inv(Init())
  {
  }

  /** The socket invariant depends on the socket and the log only. */
  lemma SocketsInvFrame(a: State, b: State)
    requires SocketsInv(a)
    requires a.socket == b.socket && a.effects == b.effects
    ensures SocketsInv(b)
  {
  }

  lemma ConnectKeepsSockets(s: State)
    requires SocketsInv(s)
    ensures SocketsInv(Connect(s))
  {
    if s.authUser.Some? && !Live(s) {
      AppendOne(s.effects, Opened(IdOf(s.authUser.value)));
    }
  }

  lemma DisconnectKeepsSockets(s: State)
    requires SocketsInv(s)
    ensures SocketsInv(Disconnect(s))
  {
    if Live(s) {
      AppendOne(s.effects, Closed);
    }
  }

  lemma NotifiedKeepsSockets(s: State, t: Toast)
    requires SocketsInv(s)
    ensures SocketsInv(Notified(s, t))
  {
    AppendOne(s.effects, Notify(t));
  }

  /** Every step keeps the invariant. */
  lemma StepPreservesInv(s: State, e: Event)
    requires Inv(s)
    ensures Inv(Step(s, e))
  {
    FlagHygiene(s, e);
    match e
    case CheckAuthDone(o) => CheckAuthKeepsInv(s, o);
    case SignupDone(o) => SignupKeepsInv(s, o);
    case LoginDone(o) => LoginKeepsInv(s, o);
    case LogoutDone(o) => LogoutKeepsSockets(s, o);
    case UpdateProfileDone(o) => UpdateProfileKeepsSockets(s, o);
    case ConnectCalled => ConnectKeepsSockets(s);
    case DisconnectCalled => DisconnectKeepsSockets(s);
    case OnlineUsersReceived(ids) => SocketsInvFrame(s, Step(s, e));
  }

  lemma CheckAuthKeepsInv(s: State, o: Outcome)
    requires Inv(s)
    ensures Inv(CheckAuth(s, o))
  {
    if o.Ok? { ConnectKeepsSockets(s.(authUser := Some(o.data))); }
  }

  lemma SignupKeepsInv(s: State, o: Outcome)
    requires Inv(s)
    ensures Inv(Signup(s, o))
  {
    AuthenticateKeepsSockets(s.(isSigningUp := true), o, SignupSuccess, SignupFallback);
  }

  lemma LoginKeepsInv(s: State, o: Outcome)
    requires Inv(s)
    ensures Inv(Login(s, o))
  {
    AuthenticateKeepsSockets(s.(isLoggingIn := true), o, LoginSuccess, LoginFallback);
  }

  lemma LogoutKeepsSockets(s: State, o: Outcome)
    requires SocketsInv(s)
    ensures SocketsInv(Logout(s, o))
  {
    match o
    case Ok(_) =>
      NotifiedKeepsSockets(s.(authUser := None), Success(LogoutSuccess));
      DisconnectKeepsSockets(Notified(s.(authUser := None), Success(LogoutSuccess)));
    case Err(m) => NotifiedKeepsSockets(s, Error(ErrorText(m, LogoutFallback)));
  }

  lemma UpdateProfileKeepsSockets(s: State, o: Outcome)
    requires SocketsInv(s)
    ensures SocketsInv(UpdateProfile(s, o))
  {
    var busy := s.(isUpdatingProfile := true);
    var t := if o.Ok? then Success(UpdateSuccess) else Error(ErrorText(o.serverMsg, UpdateFallback));
    var before := if o.Ok? then busy.(authUser := Some(Merge(busy.authUser, o.data))) else busy;
    SocketsInvFrame(s, before);
    NotifiedKeepsSockets(before, t);
    SocketsInvFrame(Notified(before, t), UpdateProfile(s, o));
  }

  lemma AuthenticateKeepsSockets(s: State, o: Outcome, successText: string, fallback: string)
    requires SocketsInv(s)
    ensures SocketsInv(Authenticate(s, o, successText, fallback))
  {
    match o
    case Ok(d) =>
      NotifiedKeepsSockets(s.(authUser := Some(d)), Success(successText));
      ConnectKeepsSockets(Notified(s.(authUser := Some(d)), Success(successText)));
    case Err(m) =>
      NotifiedKeepsSockets(s, Error(ErrorText(m, fallback)));
  }

  lemma {:induction false} RunPreservesInv(s: State, t: seq<Event>)
    requires Inv(s)
    ensures Inv(Run(s, t))
    decreases |t|
  {
    if t != [] {
      RunPreservesInv(s, t[..|t| - 1]);
      StepPreservesInv(Run(s, t[..|t| - 1]), t[|t| - 1]);
    }
  }

  /**
    In every state the store can reach: no flow is in flight, at most one of
    the sockets created is still connected (all others have been disconnected),
    and the stored socket is the one created last.
   */
  lemma Reachable(t: seq<Event>)
    ensures var r := Run(Init(), t);
      var ids := OpenedIds(r.effects);
      && !r.isSigningUp && !r.isLoggingIn && !r.isUpdatingProfile
      && |ids| == CloseCount(r.effects) + (if Live(r) then 1 else 0)
      && (r.socket.None? <==> ids == [])
      && (r.socket.Some? ==> ids[|ids| - 1] == r.socket.value.userId)
  {
    InitInv();
    RunPreservesInv(Init(), t);
  }
}
