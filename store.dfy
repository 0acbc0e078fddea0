/**
  The authentication store as an object: the fields of the zustand store and
  its actions as methods that assign them. Each method is proved to leave the
  store in the state its step function in `Session` describes, and to keep
  the store's invariant.
 */
module Store {
  import opened Values
  import Session
  import SessionProperties

  class AuthStore {
    var authUser: Option<Profile>
    var isSigningUp: bool
    var isLoggingIn: bool
    var isUpdatingProfile: bool
    var isCheckingAuth: bool
    var onlineUsers: seq<string>
    var socket: Option<Session.Socket>
    /** The toasts shown and the sockets opened and disconnected, in order. */
    ghost var effects: seq<Session.Effect>

    ghost function Snapshot(): Session.State
      reads this
    {
      Session.State(authUser, isSigningUp, isLoggingIn, isUpdatingProfile, isCheckingAuth,
                    onlineUsers, socket, effects)
    }

    ghost predicate Valid()
      reads this
    {
      Session.Inv(Snapshot())
    }

    ghost predicate SocketsValid()
      reads this
    {
      Session.SocketsInv(Snapshot())
    }

    constructor ()
      ensures Valid()
      ensures authUser.None? && isCheckingAuth
      ensures !isSigningUp && !isLoggingIn && !isUpdatingProfile
      ensures onlineUsers == [] && socket.None? && effects == []
      ensures Snapshot() == Session.Init()
    {
      authUser := None;
      isSigningUp := false;
      isLoggingIn := false;
      isUpdatingProfile := false;
      isCheckingAuth := true;
      onlineUsers := [];
      socket := None;
      effects := [];
    }

    method CheckAuth(o: Outcome)
      requires Valid()
      modifies this
      ensures Valid()
      ensures Snapshot() == Session.CheckAuth(old(Snapshot()), o)
    {
      ghost var s0 := Snapshot();
      match o {
        case Ok(data) =>
          authUser := Some(data);
          assert Snapshot() == s0.(authUser := Some(data));
          ConnectSocket();
        case Err(_) =>
          authUser := None;
      }
      isCheckingAuth := false;
      assert Snapshot() == Session.CheckAuth(s0, o);
      SessionProperties.CheckAuthKeepsInv(s0, o);
    }

    method Signup(o: Outcome)
      requires Valid()
      modifies this
      ensures Valid()
      ensures Snapshot() == Session.Signup(old(Snapshot()), o)
    {
      ghost var s0 := Snapshot();
      isSigningUp := true;
      ghost var busy := Snapshot();
      match o {
        case Ok(data) =>
          authUser := Some(data);
          effects := effects + [Session.Notify(Success(Session.SignupSuccess))];
          assert Snapshot() == Session.Notified(busy.(authUser := Some(data)), Success(Session.SignupSuccess));
          SessionProperties.NotifiedKeepsSockets(busy.(authUser := Some(data)), Success(Session.SignupSuccess));
          ConnectSocket();
        case Err(m) =>
          effects := effects + [Session.Notify(Error(ErrorText(m, Session.SignupFallback)))];
      }
      assert Snapshot() == Session.Authenticate(busy, o, Session.SignupSuccess, Session.SignupFallback);
      isSigningUp := false;
      assert Snapshot() == Session.Signup(s0, o);
      SessionProperties.SignupKeepsInv(s0, o);
    }

    method Login(o: Outcome)
      requires Valid()
      modifies this
      ensures Valid()
      ensures Snapshot() == Session.Login(old(Snapshot()), o)
    {
      ghost var s0 := Snapshot();
      isLoggingIn := true;
      ghost var busy := Snapshot();
      match o {
        case Ok(data) =>
          authUser := Some(data);
          effects := effects + [Session.Notify(Success(Session.LoginSuccess))];
          assert Snapshot() == Session.Notified(busy.(authUser := Some(data)), Success(Session.LoginSuccess));
          SessionProperties.NotifiedKeepsSockets(busy.(authUser := Some(data)), Success(Session.LoginSuccess));
          ConnectSocket();
        case Err(m) =>
          effects := effects + [Session.Notify(Error(ErrorText(m, Session.LoginFallback)))];
      }
      assert Snapshot() == Session.Authenticate(busy, o, Session.LoginSuccess, Session.LoginFallback);
      isLoggingIn := false;
      assert Snapshot() == Session.Login(s0, o);
      SessionProperties.LoginKeepsInv(s0, o);
    }

    method Logout(o: Outcome)
      requires Valid()
      modifies this
      ensures Valid()
      ensures Snapshot() == Session.Logout(old(Snapshot()), o)
    {
      ghost var s0 := Snapshot();
      match o {
        case Ok(_) =>
          authUser := None;
          effects := effects + [Session.Notify(Success(Session.LogoutSuccess))];
          assert Snapshot() == Session.Notified(s0.(authUser := None), Success(Session.LogoutSuccess));
          SessionProperties.NotifiedKeepsSockets(s0.(authUser := None), Success(Session.LogoutSuccess));
          DisconnectSocket();
        case Err(m) =>
          effects := effects + [Session.Notify(Error(ErrorText(m, Session.LogoutFallback)))];
      }
      assert Snapshot() == Session.Logout(s0, o);
      SessionProperties.LogoutKeepsSockets(s0, o);
    }

    method UpdateProfile(o: Outcome)
      requires Valid()
      modifies this
      ensures Valid()
      ensures Snapshot() == Session.UpdateProfile(old(Snapshot()), o)
    {
      ghost var s0 := Snapshot();
      isUpdatingProfile := true;
      match o {
        case Ok(data) =>
          authUser := Some(Merge(authUser, data));
          effects := effects + [Session.Notify(Success(Session.UpdateSuccess))];
        case Err(m) =>
          effects := effects + [Session.Notify(Error(ErrorText(m, Session.UpdateFallback)))];
      }
      isUpdatingProfile := false;
      assert Snapshot() == Session.UpdateProfile(s0, o);
      SessionProperties.UpdateProfileKeepsSockets(s0, o);
    }

    /** Opening is taken to complete at once, so the new socket is connected when it is stored. */
    method ConnectSocket()
      requires SocketsValid()
      modifies this
      ensures SocketsValid()
      ensures Snapshot() == Session.Connect(old(Snapshot()))
    {
      if authUser.None? || (socket.Some? && socket.value.connected) {
        return;
      }
      var userId := IdOf(authUser.value);
      socket := Some(Session.Socket(userId, true));
      effects := effects + [Session.Opened(userId)];
      SessionProperties.ConnectKeepsSockets(old(Snapshot()));
    }

    method DisconnectSocket()
      requires SocketsValid()
      modifies this
      ensures SocketsValid()
      ensures Snapshot() == Session.Disconnect(old(Snapshot()))
    {
      if socket.Some? && socket.value.connected {
        socket := Some(socket.value.(connected := false));
        effects := effects + [Session.Closed];
      }
      SessionProperties.DisconnectKeepsSockets(old(Snapshot()));
    }

    /** The `getOnlineUsers` handler; the socket delivers events only while it is connected. */
    method OnGetOnlineUsers(ids: seq<string>)
      requires Valid()
      requires socket.Some? && socket.value.connected
      modifies this
      ensures Valid()
      ensures Snapshot() == Session.ReceiveOnlineUsers(old(Snapshot()), ids)
    {
      onlineUsers := ids;
    }
  }

  /**
    A client of the store: after a successful login the socket is connected,
    and of the peer lists `[A, B]` and then `[C]` only the last remains.
   */
  method LoginThenPresence(user: Profile) returns (users: seq<string>, connected: bool)
    ensures connected
    ensures users == ["C"]
  {
    var store := new AuthStore();
    store.Login(Ok(user));
    connected := store.socket.Some? && store.socket.value.connected;
    store.OnGetOnlineUsers(["A", "B"]);
    store.OnGetOnlineUsers(["C"]);
    users := store.onlineUsers;
  }
}
