// The client's chat store: the open conversation's message list, the selected
// partner, the `newMessage` listener it attaches to the session socket, and
// the send that appends the server's reply to a snapshot of the list.
module Chat {
  import opened Common
  import opened ClientSocket
  import opened Auth

  /** The argument of `sendMessage`: trimmed text and an optional image data URL. */
  datatype MessageData = MessageData(text: string, image: Option<string>)

  /** What `sendMessage` reads from the store before its request is awaited. */
  datatype SendSnapshot = SendSnapshot(selected: Option<User>, messages: seq<Message>)

  /**
   * The listener's relevance test: the message goes from the partner selected
   * when the event arrives to the subscribing user, or the other way round.
   * With no partner selected, `currentSelectedUser?._id` is `undefined` and no
   * message id matches it.
   */
  predicate IsRelevant(m: Message, selected: Option<User>, self: User): (r: bool)
    ensures r ==> selected.Some?
    ensures r ==> m.senderId == self.id || m.receiverId == self.id
    ensures r <==> selected.Some? && multiset{m.senderId, m.receiverId} == multiset{selected.value.id, self.id}
  {
    && selected.Some?
    && ((m.senderId == selected.value.id && m.receiverId == self.id)
        || (m.senderId == self.id && m.receiverId == selected.value.id))
  }

  /** `messages.some(msg => msg._id === id)`: scan from the front until an `_id` matches. */
  predicate HasId(messages: seq<Message>, id: string): (r: bool)
    ensures r <==> exists i :: 0 <= i < |messages| && messages[i].id == id
  {
    messages != [] && (messages[0].id == id || HasId(messages[1..], id))
  }

  /** The invariant the listener keeps: no two held messages share an `_id`. */
  predicate DistinctIds(messages: seq<Message>)
  {
    forall i, j :: 0 <= i < j < |messages| ==> messages[i].id != messages[j].id
  }

  /** The number of held messages with a given `_id`. */
  function CountId(messages: seq<Message>, id: string): nat
  {
    if messages == [] then 0
    else CountId(messages[..|messages| - 1], id) + (if messages[|messages| - 1].id == id then 1 else 0)
  }

  /** The message list after one listener (subscribed as `self`) handles `m`. */
  function OnNewMessage(messages: seq<Message>, selected: Option<User>, self: User, m: Message): (r: seq<Message>)
    ensures r == messages || r == messages + [m]
    ensures r != messages <==> IsRelevant(m, selected, self) && !HasId(messages, m.id)
    ensures HasId(r, m.id) <==> HasId(messages, m.id) || IsRelevant(m, selected, self)
  {
    if !IsRelevant(m, selected, self) then messages
    else if HasId(messages, m.id) then messages
    else
      assert (messages + [m])[|messages|] == m;
      messages + [m]
  }

  /** The message list after every listener, in registration order, handles `m`. */
  function Dispatch(messages: seq<Message>, selected: Option<User>, handlers: seq<Handler>, m: Message): (r: seq<Message>)
    ensures r == messages || r == messages + [m]
    ensures HasId(messages, m.id) ==> r == messages
    decreases handlers
  {
    if handlers == [] then messages
    else Dispatch(OnNewMessage(messages, selected, handlers[0].authUser, m), selected, handlers[1..], m)
  }

  // ---------------------------------------------------------------------------
  // One listener handling one event.

  /** A message the selected conversation does not involve leaves the list unchanged. */
  lemma IrrelevantMessageIgnored(messages: seq<Message>, selected: Option<User>, self: User, m: Message)
    requires !IsRelevant(m, selected, self)
    ensures OnNewMessage(messages, selected, self, m) == messages
  {
  }

  /** With nobody selected when the event arrives, nothing is appended. */
  lemma NoSelectionIgnoresEvents(messages: seq<Message>, self: User, m: Message)
    ensures OnNewMessage(messages, None, self, m) == messages
  {
  }

  /** A message whose `_id` is already held leaves the list unchanged. */
  lemma DuplicateIgnored(messages: seq<Message>, selected: Option<User>, self: User, m: Message, k: nat)
    requires k < |messages| && messages[k].id == m.id
    ensures OnNewMessage(messages, selected, self, m) == messages
  {
  }

  /**
   * The listener's whole effect: it appends `m` at the end, keeping the old
   * list as a prefix, exactly when `m` is relevant and its `_id` is new.
   */
  lemma OnNewMessageAppends(messages: seq<Message>, selected: Option<User>, self: User, m: Message)
    ensures var r := OnNewMessage(messages, selected, self, m);
            && r[..|messages|] == messages
            && (r == messages + [m] <==> IsRelevant(m, selected, self) && (forall i :: 0 <= i < |messages| ==> messages[i].id != m.id))
            && (r == messages <==> !(IsRelevant(m, selected, self) && (forall i :: 0 <= i < |messages| ==> messages[i].id != m.id)))
  {
  }

  /** The listener keeps the `_id`s of the list distinct. */
  lemma OnNewMessageKeepsIdsDistinct(messages: seq<Message>, selected: Option<User>, self: User, m: Message)
    requires DistinctIds(messages)
    ensures DistinctIds(OnNewMessage(messages, selected, self, m))
  {
  }

  /** Handling the same event twice has the effect of handling it once. */
  lemma OnNewMessageIdempotent(messages: seq<Message>, selected: Option<User>, self: User, m: Message)
    ensures var once := OnNewMessage(messages, selected, self, m);
            OnNewMessage(once, selected, self, m) == once
  {
    var once := OnNewMessage(messages, selected, self, m);
    if once != messages {
      assert once[|messages|] == m;
    }
  }

  lemma CountIdAppend(messages: seq<Message>, m: Message, id: string)
    ensures CountId(messages + [m], id) == CountId(messages, id) + (if m.id == id then 1 else 0)
  {
  }

  lemma {:induction false} CountIdZero(messages: seq<Message>, id: string)
    requires !HasId(messages, id)
    ensures CountId(messages, id) == 0
  {
    if messages != [] {
      var init := messages[..|messages| - 1];
      assert forall i :: 0 <= i < |init| ==> init[i] == messages[i];
      CountIdZero(init, id);
    }
  }

  /**
   * The same message delivered twice to a list that did not hold its `_id`:
   * when it is relevant the list ends with exactly one entry of that `_id`.
   */
  lemma RedeliveryKeepsOneCopy(messages: seq<Message>, selected: Option<User>, self: User, m: Message)
    requires !HasId(messages, m.id) && IsRelevant(m, selected, self)
    ensures var twice := OnNewMessage(OnNewMessage(messages, selected, self, m), selected, self, m);
            CountId(twice, m.id) == 1
  {
    OnNewMessageIdempotent(messages, selected, self, m);
    CountIdZero(messages, m.id);
    CountIdAppend(messages, m, m.id);
  }

  // ---------------------------------------------------------------------------
  // All registered listeners handling one event.

  /** Whatever listeners are registered, the `_id`s stay distinct. */
  lemma {:induction false} DispatchKeepsIdsDistinct(messages: seq<Message>, selected: Option<User>, handlers: seq<Handler>, m: Message)
    requires DistinctIds(messages)
    ensures DistinctIds(Dispatch(messages, selected, handlers, m))
    decreases handlers
  {
    if handlers != [] {
      OnNewMessageKeepsIdsDistinct(messages, selected, handlers[0].authUser, m);
      DispatchKeepsIdsDistinct(OnNewMessage(messages, selected, handlers[0].authUser, m), selected, handlers[1..], m);
    }
  }

  /**
   * Listeners registered more than once for the same user act as one: the
   * duplicates find the message already held.
   */
  lemma {:induction false} DispatchDuplicatesActOnce(messages: seq<Message>, selected: Option<User>, handlers: seq<Handler>, self: User, m: Message)
    requires handlers != []
    requires forall k :: 0 <= k < |handlers| ==> handlers[k] == NewMessageHandler(self)
    ensures Dispatch(messages, selected, handlers, m) == OnNewMessage(messages, selected, self, m)
    decreases handlers
  {
    var once := OnNewMessage(messages, selected, self, m);
    if |handlers| > 1 {
      DispatchDuplicatesActOnce(once, selected, handlers[1..], self, m);
      OnNewMessageIdempotent(messages, selected, self, m);
    }
  }

  /**
   * All listeners together append the message exactly when its `_id` is new
   * and at least one of them, with the user it captured, finds it relevant.
   */
  lemma {:induction false} DispatchAppendsIff(messages: seq<Message>, selected: Option<User>, handlers: seq<Handler>, m: Message)
    ensures Dispatch(messages, selected, handlers, m) == messages + [m]
            <==> !HasId(messages, m.id) && exists k :: 0 <= k < |handlers| && IsRelevant(m, selected, handlers[k].authUser)
    decreases handlers
  {
    if handlers != [] {
      var first, rest := handlers[0], handlers[1..];
      var once := OnNewMessage(messages, selected, first.authUser, m);
      DispatchAppendsIff(once, selected, rest, m);
      assert forall k :: 0 <= k < |rest| ==> rest[k] == handlers[k + 1];
      if once == messages && !HasId(messages, m.id) {
        assert !IsRelevant(m, selected, first.authUser);
        if exists k :: 0 <= k < |handlers| && IsRelevant(m, selected, handlers[k].authUser) {
          var k :| 0 <= k < |handlers| && IsRelevant(m, selected, handlers[k].authUser);
          assert IsRelevant(m, selected, rest[k - 1].authUser);
        }
      }
    }
  }

  /** With no listener registered, an event changes nothing. */
  lemma DispatchWithoutHandlers(messages: seq<Message>, selected: Option<User>, m: Message)
    ensures Dispatch(messages, selected, [], m) == messages
  {
  }

  // ---------------------------------------------------------------------------
  // The store.

  class ChatStore {
    var messages: seq<Message>
    var selectedUser: Option<User>
    var isMessagesLoading: bool

    constructor ()
      ensures messages == [] && selectedUser == None && !isMessagesLoading
    {
      messages := [];
      selectedUser := None;
      isMessagesLoading := false;
    }

    /** `setSelectedUser`: set the one field; `None` is the header's close button. */
    method SetSelectedUser(u: Option<User>)
      modifies this`selectedUser
      ensures selectedUser == u
    {
      selectedUser := u;
    }

    /** `getMessages`: replace the list with the fetched history; an empty user id fetches nothing. */
    method GetMessages(userId: string, res: Response<seq<Message>>)
      modifies this`messages, this`isMessagesLoading
      ensures !isMessagesLoading
      ensures messages == if userId != "" && res.Ok? then res.data else old(messages)
    {
      isMessagesLoading := true;
      if userId != "" && res.Ok? {
        messages := res.data;
      }
      isMessagesLoading := false;
    }

    /** The part of `sendMessage` before the request: read the selected user and the list. */
    method StartSend() returns (snap: SendSnapshot)
      ensures snap.selected == selectedUser && snap.messages == messages
    {
      snap := SendSnapshot(selectedUser, messages);
    }

    /**
     * The part of `sendMessage` after the request: the reply is appended to
     * the snapshot, not to the current list, and without any `_id` check.
     * Without a selected user no request was made. Errors are caught, so the
     * call never rejects.
     */
    method FinishSend(snap: SendSnapshot, res: Response<Message>)
      modifies this`messages, this`isMessagesLoading
      ensures !isMessagesLoading
      ensures messages == if snap.selected.Some? && res.Ok? then snap.messages + [res.data] else old(messages)
    {
      if snap.selected.Some? && res.Ok? {
        messages := snap.messages + [res.data];
      }
      isMessagesLoading := false;
    }

    /**
     * `sendMessage` when no event arrives while the request is awaited. The
     * payload `data` only goes into the request, which `res` stands for.
     */
    method SendMessage(data: MessageData, res: Response<Message>)
      modifies this`messages, this`isMessagesLoading
      ensures !isMessagesLoading
      ensures messages == if old(selectedUser).Some? && res.Ok? then old(messages) + [res.data] else old(messages)
    {
      var snap := StartSend();
      FinishSend(snap, res);
    }

    /**
     * `subscribeToMessages`: with a partner selected and a user logged in,
     * attach one more listener to the session socket. `socket.on` on a missing
     * socket throws; `threw` reports that, and nothing changes then.
     */
    method SubscribeToMessages(auth: AuthStore) returns (threw: bool)
      modifies auth.socket
      ensures auth.socket != null ==> auth.socket.connected == old(auth.socket.connected)
      ensures threw <==> selectedUser.Some? && auth.authUser.Some? && auth.socket == null
      ensures auth.socket != null ==>
        auth.socket.handlers ==
          if selectedUser.Some? && auth.authUser.Some?
          then old(auth.socket.handlers) + [NewMessageHandler(auth.authUser.value)]
          else old(auth.socket.handlers)
    {
      threw := false;
      if selectedUser.None? {
        return;
      }
      var socket := auth.socket;
      var authUser := auth.authUser;
      if authUser.None? {
        return;
      }
      if socket == null {
        threw := true;
        return;
      }
      socket.On(NewMessageHandler(authUser.value));
    }

    /** `unsubscribeFromMessages`: `off("newMessage")` drops every listener, however many were attached. */
    method UnsubscribeFromMessages(auth: AuthStore) returns (threw: bool)
      modifies auth.socket
      ensures auth.socket != null ==> auth.socket.connected == old(auth.socket.connected)
      ensures threw <==> auth.socket == null
      ensures auth.socket != null ==> auth.socket.handlers == []
    {
      threw := auth.socket == null;
      if !threw {
        auth.socket.Off();
      }
    }

    /** A `newMessage` event on `socket`: socket.io calls every listener in registration order. */
    method ReceiveNewMessage(socket: Socket, m: Message)
      modifies this`messages
      ensures messages == Dispatch(old(messages), selectedUser, socket.handlers, m)
    {
      var handlers := socket.handlers;
      var i := 0;
      while i < |handlers|
        invariant 0 <= i <= |handlers|
        invariant Dispatch(old(messages), selectedUser, handlers, m) == Dispatch(messages, selectedUser, handlers[i..], m)
      {
        var self := handlers[i].authUser;
        assert handlers[i..][1..] == handlers[i + 1..];
        if IsRelevant(m, selectedUser, self) {
          if !HasId(messages, m.id) {
            messages := messages + [m];
          }
        }
        i := i + 1;
      }
    }
  }

  // ---------------------------------------------------------------------------
  // The chat view driving the store.

  /**
   * A change of the selected partner as the chat view reacts to it: the
   * previous effect's cleanup unsubscribes (when a partner was selected), then
   * the selection changes, then the new effect fetches the history and
   * subscribes (when a partner is now selected). Paired this way, the session
   * socket never holds more than one `newMessage` listener. Selecting the
   * partner already selected leaves the effect's dependencies unchanged, so
   * neither the cleanup nor the effect runs.
   */
  method ChangeSelection(chat: ChatStore, auth: AuthStore, next: Option<User>, history: Response<seq<Message>>)
    requires auth.socket != null
    requires chat.selectedUser.None? ==> auth.socket.handlers == []
    requires |auth.socket.handlers| <= 1
    modifies chat, auth.socket
    ensures chat.selectedUser == next
    ensures auth.socket.connected == old(auth.socket.connected)
    ensures next.None? ==> auth.socket.handlers == []
    ensures |auth.socket.handlers| <= 1
    ensures next == old(chat.selectedUser) ==>
              && auth.socket.handlers == old(auth.socket.handlers)
              && chat.messages == old(chat.messages)
              && chat.isMessagesLoading == old(chat.isMessagesLoading)
    ensures next != old(chat.selectedUser) && next.Some? && auth.authUser.Some? ==>
              auth.socket.handlers == [NewMessageHandler(auth.authUser.value)]
    ensures next != old(chat.selectedUser) && next.Some? && auth.authUser.None? ==> auth.socket.handlers == []
    ensures next != old(chat.selectedUser) ==>
              chat.messages == if next.Some? && next.value.id != "" && history.Ok? then history.data else old(chat.messages)
    ensures next != old(chat.selectedUser) && next.Some? ==> !chat.isMessagesLoading
    ensures next.None? ==> chat.isMessagesLoading == old(chat.isMessagesLoading)
  {
    if next == chat.selectedUser {
      return;
    }
    if chat.selectedUser.Some? {
      var _ := chat.UnsubscribeFromMessages(auth);
    }
    chat.SetSelectedUser(next);
    if next.Some? {
      chat.GetMessages(next.value.id, history);
      var _ := chat.SubscribeToMessages(auth);
    }
  }

  /**
   * Subscribing twice without unsubscribing leaves two listeners on the
   * socket, and a message from the partner is still held once: the second
   * listener finds its `_id` already present.
   */
  method DoubleSubscriptionScenario(self: User, partner: User, m: Message) returns (listeners: nat, held: seq<Message>)
    requires m.senderId == partner.id && m.receiverId == self.id
    ensures listeners == 2
    ensures held == [m]
  {
    var auth := new AuthStore();
    auth.Login(Ok(self));
    var chat := new ChatStore();
    chat.SetSelectedUser(Some(partner));
    var threw := chat.SubscribeToMessages(auth);
    threw := chat.SubscribeToMessages(auth);
    listeners := |auth.socket.handlers|;
    chat.ReceiveNewMessage(auth.socket, m);
    DispatchDuplicatesActOnce([], Some(partner), auth.socket.handlers, self, m);
    held := chat.messages;
  }

  /**
   * A message that arrives while a send is awaited is dropped: the reply is
   * appended to the list read before the request, so the partner's message
   * held in between is overwritten.
   */
  method LostUpdateScenario(self: User, partner: User, incoming: Message, reply: Message) returns (between: seq<Message>, after: seq<Message>)
    requires incoming.senderId == partner.id && incoming.receiverId == self.id
    ensures between == [incoming]
    ensures after == [reply]
  {
    var auth := new AuthStore();
    auth.Login(Ok(self));
    var chat := new ChatStore();
    chat.SetSelectedUser(Some(partner));
    var _ := chat.SubscribeToMessages(auth);
    var snap := chat.StartSend();
    chat.ReceiveNewMessage(auth.socket, incoming);
    between := chat.messages;
    chat.FinishSend(snap, Ok(reply));
    after := chat.messages;
  }
}
