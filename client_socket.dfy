// The part of a socket.io client socket that the stores use: whether it is
// connected, the `userId` sent in its handshake query, and its list of
// `newMessage` listeners.
module ClientSocket {
  import opened Common

  /**
   * A `newMessage` listener as `subscribeToMessages` registers it. It closes
   * over the `authUser` read at subscription time; the selected user and the
   * message list it reads from the chat store when an event arrives.
   */
  datatype Handler = NewMessageHandler(authUser: User)

  class Socket {
    var connected: bool
    var handlers: seq<Handler>
    const handshakeUserId: string

    /** `io(BASE_URL, { query: { userId } })` followed by `connect()`. */
    constructor (userId: string)
      ensures connected && handlers == [] && handshakeUserId == userId
    {
      connected := true;
      handlers := [];
      handshakeUserId := userId;
    }

    /** `socket.on("newMessage", h)`: listeners accumulate, duplicates included. */
    method On(h: Handler)
      modifies this`handlers
      ensures handlers == old(handlers) + [h]
    {
      handlers := handlers + [h];
    }

    /** `socket.off("newMessage")` without a listener argument removes every `newMessage` listener. */
    method Off()
      modifies this`handlers
      ensures handlers == []
    {
      handlers := [];
    }

    /** `socket.disconnect()`; the listeners stay attached to the object. */
    method Disconnect()
      modifies this`connected
      ensures !connected
    {
      connected := false;
    }
  }
}
