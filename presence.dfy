// The server's presence registry: the process-wide map from user id to the id
// of that user's socket.io connection, written by the `connection` handler,
// erased by the `disconnect` handler and read by `getReceiverSocketId`.
module Presence {
  import opened Common

  /** The registry's contents: user id to socket id. */
  type SocketMap = map<string, string>

  /**
   * What the server keeps about one connection: its socket id and the
   * `userId` query parameter of its handshake, which the disconnect handler
   * captures.
   */
  datatype Connection = Connection(socketId: string, userId: Option<string>)

  /** One handler run: a connection or the disconnect of a connection. */
  datatype PresenceEvent =
    | Connect(userId: Option<string>, socketId: string)
    | Disconnect(userId: Option<string>)

  /** `userSocketMap[userId]`: the socket id held for a user, if any. */
  function Get(m: SocketMap, userId: string): (r: Option<string>)
    ensures r.Some? <==> userId in m
    ensures r.Some? ==> r.value in m.Values
  {
    if userId in m then Some(m[userId]) else None
  }

  /** The `connection` handler's effect: write the entry only for a truthy user id. */
  function Connected(m: SocketMap, userId: Option<string>, socketId: string): (r: SocketMap)
    ensures r.Keys == if Truthy(userId) then m.Keys + {userId.value} else m.Keys
    ensures Truthy(userId) ==> r[userId.value] == socketId
    ensures forall u :: u in m && !(Truthy(userId) && u == userId.value) ==> r[u] == m[u]
  {
    if Truthy(userId) then m[userId.value := socketId] else m
  }

  /** The `disconnect` handler's effect: delete by user id alone, whatever socket id is held. */
  function Disconnected(m: SocketMap, userId: Option<string>): (r: SocketMap)
    ensures r.Keys == if Truthy(userId) then m.Keys - {userId.value} else m.Keys
    ensures forall u :: u in r ==> r[u] == m[u]
  {
    if Truthy(userId) then m - {userId.value} else m
  }

  function Apply(m: SocketMap, e: PresenceEvent): SocketMap
  {
    match e
    case Connect(u, sid) => Connected(m, u, sid)
    case Disconnect(u) => Disconnected(m, u)
  }

  /** The registry after a run of handler events, in order. */
  function Replay(m: SocketMap, events: seq<PresenceEvent>): SocketMap
  {
    if events == [] then m
    else Apply(Replay(m, events[..|events| - 1]), events[|events| - 1])
  }

  /** Whether an event writes or erases the entry of `userId`. */
  predicate About(e: PresenceEvent, userId: string)
  {
    Truthy(e.userId) && e.userId.value == userId
  }

  /**
   * Reference definition of presence: the word of the most recent event about
   * `userId` — `Some(Some(sid))` for a connection, `Some(None)` for a
   * disconnect, `None` when no event mentions the user.
   */
  function LastWord(events: seq<PresenceEvent>, userId: string): Option<Option<string>>
  {
    if events == [] then None
    else
      var e := events[|events| - 1];
      if About(e, userId) then
        Some(if e.Connect? then Some(e.socketId) else None)
      else LastWord(events[..|events| - 1], userId)
  }

  /** The events of a run that mention `userId`, in order. */
  function EventsAbout(events: seq<PresenceEvent>, userId: string): seq<PresenceEvent>
  {
    if events == [] then []
    else
      var rest := EventsAbout(events[..|events| - 1], userId);
      if About(events[|events| - 1], userId) then rest + [events[|events| - 1]] else rest
  }

  /** Presence after a run: the last event about the user decides, otherwise the starting map. */
  function Resolve(start: SocketMap, word: Option<Option<string>>, userId: string): Option<string>
  {
    match word
    case None => Get(start, userId)
    case Some(w) => w
  }

  // ---------------------------------------------------------------------------
  // One handler at a time.

  /** A connection with a truthy `userId` makes the lookup return its socket id. */
  lemma LookupAfterConnect(m: SocketMap, userId: string, socketId: string)
    requires userId != ""
    ensures Get(Connected(m, Some(userId), socketId), userId) == Some(socketId)
  {
  }

  /** A connection without a usable `userId`, and its later disconnect, leave the map alone. */
  lemma AnonymousConnectionIsNoOp(m: SocketMap, userId: Option<string>, socketId: string)
    requires !Truthy(userId)
    ensures Connected(m, userId, socketId) == m
    ensures Disconnected(Connected(m, userId, socketId), userId) == m
  {
  }

  /** Two connections of one user: the second socket id wins. */
  lemma LastWriterWins(m: SocketMap, userId: string, first: string, second: string)
    requires userId != ""
    ensures Get(Connected(Connected(m, Some(userId), first), Some(userId), second), userId) == Some(second)
  {
  }

  /**
   * The disconnect of a superseded socket erases the live entry of the newer
   * one: after connections A then B for one user, A's disconnect leaves the
   * user absent although B is still connected.
   */
  lemma StaleDisconnectErasesLiveEntry(m: SocketMap, userId: string, socketA: string, socketB: string)
    requires userId != ""
    ensures var live := Connected(Connected(m, Some(userId), socketA), Some(userId), socketB);
            Get(live, userId) == Some(socketB) && Get(Disconnected(live, Some(userId)), userId) == None
  {
  }

  /** Disconnecting a user with no entry changes nothing. */
  lemma DisconnectAbsentIsNoOp(m: SocketMap, userId: Option<string>)
    requires Truthy(userId) ==> userId.value !in m
    ensures Disconnected(m, userId) == m
  {
  }

  /** Connect and disconnect of one user never change the lookup of another. */
  lemma OtherUsersUnaffected(m: SocketMap, e: PresenceEvent, other: string)
    requires !About(e, other)
    ensures Get(Apply(m, e), other) == Get(m, other)
  {
  }

  // ---------------------------------------------------------------------------
  // Whole runs of handler events.

  /** After any run, the lookup of a user is decided by the last event about that user. */
  lemma {:induction false} ReplayFollowsLastWord(m: SocketMap, events: seq<PresenceEvent>, userId: string)
    ensures Get(Replay(m, events), userId) == Resolve(m, LastWord(events, userId), userId)
  {
    if events != [] {
      var init, e := events[..|events| - 1], events[|events| - 1];
      ReplayFollowsLastWord(m, init, userId);
      if !About(e, userId) {
        OtherUsersUnaffected(Replay(m, init), e, userId);
      }
    }
  }

  lemma {:induction false} LastWordOfEventsAbout(events: seq<PresenceEvent>, userId: string)
    ensures LastWord(EventsAbout(events, userId), userId) == LastWord(events, userId)
  {
    if events != [] {
      var init, e := events[..|events| - 1], events[|events| - 1];
      LastWordOfEventsAbout(init, userId);
      if About(e, userId) {
        var rest := EventsAbout(init, userId);
        assert (rest + [e])[..|rest + [e]| - 1] == rest;
      }
    }
  }

  /**
   * Isolation: the lookup of a user after a run is the same as after the run
   * restricted to that user's own events.
   */
  lemma {:induction false} ReplayIsolation(m: SocketMap, events: seq<PresenceEvent>, userId: string)
    ensures Get(Replay(m, events), userId) == Get(Replay(m, EventsAbout(events, userId)), userId)
  {
    ReplayFollowsLastWord(m, events, userId);
    ReplayFollowsLastWord(m, EventsAbout(events, userId), userId);
    LastWordOfEventsAbout(events, userId);
  }

  /** A user no event mentions is absent from a registry that started empty. */
  lemma {:induction false} NeverRegisteredIsAbsent(events: seq<PresenceEvent>, userId: string)
    requires forall i :: 0 <= i < |events| ==> !About(events[i], userId)
    ensures Get(Replay(map[], events), userId) == None
  {
    if events != [] {
      var init := events[..|events| - 1];
      assert forall i :: 0 <= i < |init| ==> init[i] == events[i];
      NeverRegisteredIsAbsent(init, userId);
      OtherUsersUnaffected(Replay(map[], init), events[|events| - 1], userId);
    }
  }

  // ---------------------------------------------------------------------------
  // The registry as the server holds it.

  class PresenceRegistry {
    var userSocketMap: SocketMap
    /** Every handler run so far, in order. */
    ghost var history: seq<PresenceEvent>

    ghost predicate Valid()
      reads this
    {
      userSocketMap == Replay(map[], history)
    }

    constructor ()
      ensures Valid() && history == [] && userSocketMap == map[]
    {
      userSocketMap := map[];
      history := [];
    }

    /** The `connection` handler: register the handshake's user id when it is truthy. */
    method OnConnection(queryUserId: Option<string>, socketId: string) returns (c: Connection)
      requires Valid()
      modifies this
      ensures Valid() && history == old(history) + [Connect(queryUserId, socketId)]
      ensures userSocketMap == Connected(old(userSocketMap), queryUserId, socketId)
      ensures c == Connection(socketId, queryUserId)
    {
      if queryUserId.Some? && queryUserId.value != "" {
        userSocketMap := userSocketMap[queryUserId.value := socketId];
      }
      c := Connection(socketId, queryUserId);
      history := history + [Connect(queryUserId, socketId)];
      assert history[..|history| - 1] == old(history);
    }

    /** The `disconnect` handler of connection `c`: delete the entry of its user id, ignoring its socket id. */
    method OnDisconnect(c: Connection)
      requires Valid()
      modifies this
      ensures Valid() && history == old(history) + [Disconnect(c.userId)]
      ensures userSocketMap == Disconnected(old(userSocketMap), c.userId)
    {
      if c.userId.Some? && c.userId.value != "" {
        userSocketMap := userSocketMap - {c.userId.value};
      }
      history := history + [Disconnect(c.userId)];
      assert history[..|history| - 1] == old(history);
    }

    /** `getReceiverSocketId`: the socket id of the most recent event about the receiver, if it was a connection. */
    method GetReceiverSocketId(receiverId: string) returns (r: Option<string>)
      requires Valid()
      ensures r.Some? <==> receiverId in userSocketMap
      ensures r == Get(userSocketMap, receiverId)
      ensures r == Resolve(map[], LastWord(history, receiverId), receiverId)
    {
      r := if receiverId in userSocketMap then Some(userSocketMap[receiverId]) else None;
      ReplayFollowsLastWord(map[], history, receiverId);
    }
  }

  /**
   * User reconnects (socket B) before the disconnect of its old socket A
   * arrives: the registry then has no entry for the user, so the next
   * `newMessage` for them is not pushed.
   */
  method StaleDisconnectScenario(userId: string, socketA: string, socketB: string) returns (before: Option<string>, after: Option<string>)
    requires userId != "" && socketA != socketB
    ensures before == Some(socketB)
    ensures after == None
  {
    var registry := new PresenceRegistry();
    var a := registry.OnConnection(Some(userId), socketA);
    var b := registry.OnConnection(Some(userId), socketB);
    before := registry.GetReceiverSocketId(userId);
    registry.OnDisconnect(a);
    after := registry.GetReceiverSocketId(userId);
  }
}
