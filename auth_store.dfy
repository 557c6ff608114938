// The client's session store: the logged-in user, the busy flags the pages
// show, and the one socket.io connection of the session.
module Auth {
  import opened Common
  import opened ClientSocket

  class AuthStore {
    var authUser: Option<User>
    var isSigningUp: bool
    var isLoggingIn: bool
    var isUpdatingProfile: bool
    var isCheckingAuth: bool
    var socket: Socket?
    /** Every socket this store has created, oldest first. */
    ghost var sockets: seq<Socket>

    /**
     * The store's invariant: `socket` is the newest socket it created, and
     * every older one is disconnected, so at most one of them is connected.
     */
    ghost predicate Valid()
      reads this, sockets
    {
      && (socket == null <==> sockets == [])
      && (socket != null ==> socket == sockets[|sockets| - 1])
      && (forall i :: 0 <= i < |sockets| - 1 ==> !sockets[i].connected)
    }

    /** `socket?.connected`. */
    predicate SocketConnected()
      reads this, socket
    {
      socket != null && socket.connected
    }

    /** What `connectSocket` leaves behind for user `u`: the old socket if it was connected, else a new one for `u`. */
    twostate predicate SocketFor(u: User)
      reads this, socket
    {
      if old(SocketConnected()) then
        socket == old(socket) && sockets == old(sockets)
      else
        && socket != null && fresh(socket)
        && socket.connected && socket.handshakeUserId == u.id && socket.handlers == []
        && sockets == old(sockets) + [socket]
    }

    /** The store's initial state: nobody logged in, the auth check pending, no socket. */
    constructor ()
      ensures Valid()
      ensures authUser == None && socket == null
      ensures !isSigningUp && !isLoggingIn && !isUpdatingProfile && isCheckingAuth
    {
      authUser := None;
      isSigningUp, isLoggingIn, isUpdatingProfile := false, false, false;
      isCheckingAuth := true;
      socket := null;
      sockets := [];
    }

    /** `connectSocket`: open a socket for the logged-in user unless there is none or one is already connected. */
    method ConnectSocket()
      requires Valid()
      modifies this
      ensures Valid()
      ensures authUser == old(authUser)
      ensures isSigningUp == old(isSigningUp) && isLoggingIn == old(isLoggingIn)
      ensures isUpdatingProfile == old(isUpdatingProfile) && isCheckingAuth == old(isCheckingAuth)
      ensures old(authUser).None? ==> socket == old(socket) && sockets == old(sockets)
      ensures old(authUser).Some? ==> SocketFor(old(authUser).value)
    {
      if authUser.None? || (socket != null && socket.connected) {
        return;
      }
      var newSocket := new Socket(authUser.value.id);
      socket := newSocket;
      sockets := sockets + [newSocket];
    }

    /** `disconnectSocket`: disconnect the socket if it is connected; the `socket` field is never cleared. */
    method DisconnectSocket()
      requires Valid()
      modifies socket
      ensures Valid()
      ensures socket != null ==> socket.handlers == old(socket.handlers)
      ensures socket != null ==> !socket.connected
    {
      if socket != null && socket.connected {
        socket.Disconnect();
      }
    }

    /** `checkAuth`: adopt the session's user or clear it; the check is over either way. */
    method CheckAuth(res: Response<User>)
      requires Valid()
      modifies this
      ensures Valid() && !isCheckingAuth
      ensures isSigningUp == old(isSigningUp) && isLoggingIn == old(isLoggingIn)
      ensures isUpdatingProfile == old(isUpdatingProfile)
      ensures res.Ok? ==> authUser == Some(res.data) && SocketFor(res.data)
      ensures res.Failed? ==> authUser == None && socket == old(socket) && sockets == old(sockets)
    {
      match res {
        case Ok(user) =>
          authUser := Some(user);
          ConnectSocket();
        case Failed =>
          authUser := None;
      }
      isCheckingAuth := false;
    }

    /** `signup`: on success log the new user in and connect; `isSigningUp` is reset in any case. */
    method Signup(res: Response<User>)
      requires Valid()
      modifies this
      ensures Valid() && !isSigningUp
      ensures isLoggingIn == old(isLoggingIn) && isUpdatingProfile == old(isUpdatingProfile)
      ensures isCheckingAuth == old(isCheckingAuth)
      ensures res.Ok? ==> authUser == Some(res.data) && SocketFor(res.data)
      ensures res.Failed? ==> authUser == old(authUser) && socket == old(socket) && sockets == old(sockets)
    {
      isSigningUp := true;
      if res.Ok? {
        authUser := Some(res.data);
        ConnectSocket();
      }
      isSigningUp := false;
    }

    /** `login`: on success adopt the user and connect; `isLoggingIn` is reset in any case. */
    method Login(res: Response<User>)
      requires Valid()
      modifies this
      ensures Valid() && !isLoggingIn
      ensures isSigningUp == old(isSigningUp) && isUpdatingProfile == old(isUpdatingProfile)
      ensures isCheckingAuth == old(isCheckingAuth)
      ensures res.Ok? ==> authUser == Some(res.data) && SocketFor(res.data)
      ensures res.Failed? ==> authUser == old(authUser) && socket == old(socket) && sockets == old(sockets)
    {
      isLoggingIn := true;
      if res.Ok? {
        authUser := Some(res.data);
        ConnectSocket();
      }
      isLoggingIn := false;
    }

    /** `logout`: on success forget the user and disconnect; `isCheckingAuth` ends false either way. */
    method Logout(res: Response<()>)
      requires Valid()
      modifies this, socket
      ensures Valid() && !isCheckingAuth
      ensures socket == old(socket) && sockets == old(sockets)
      ensures isSigningUp == old(isSigningUp) && isLoggingIn == old(isLoggingIn)
      ensures isUpdatingProfile == old(isUpdatingProfile)
      ensures res.Ok? ==> authUser == None && !SocketConnected()
      ensures res.Failed? ==> authUser == old(authUser) && SocketConnected() == old(SocketConnected())
      ensures socket != null ==> socket.handlers == old(socket.handlers)
    {
      if res.Ok? {
        authUser := None;
        DisconnectSocket();
      }
      isCheckingAuth := false;
    }

    /** `updateProfile`: replace the user only on success; the socket is not touched. */
    method UpdateProfile(res: Response<User>)
      requires Valid()
      modifies this
      ensures Valid() && !isUpdatingProfile
      ensures socket == old(socket) && sockets == old(sockets)
      ensures isSigningUp == old(isSigningUp) && isLoggingIn == old(isLoggingIn)
      ensures isCheckingAuth == old(isCheckingAuth)
      ensures authUser == if res.Ok? then Some(res.data) else old(authUser)
    {
      isUpdatingProfile := true;
      if res.Ok? {
        authUser := Some(res.data);
      }
      isUpdatingProfile := false;
    }

    /** Under the invariant, the current socket is the only connected one the store ever created. */
    lemma AtMostOneConnectedSocket()
      requires Valid()
      ensures forall i :: 0 <= i < |sockets| && sockets[i].connected ==> sockets[i] == socket
    {
    }
  }

  /** Logging in twice creates one socket: the second login finds it connected. */
  method RepeatedLoginScenario(u: User, v: User) returns (first: Socket, second: Socket)
    ensures first == second && first.connected && first.handshakeUserId == u.id
  {
    var store := new AuthStore();
    store.Login(Ok(u));
    first := store.socket;
    store.Login(Ok(v));
    second := store.socket;
  }
}
