// Values shared by the backend presence registry and the frontend stores:
// the optional-value wrapper, the outcome of an HTTP request, and the two
// records the client receives from the REST API.
module Common {

  /** A value that may be missing: JavaScript's `null` / `undefined`. */
  datatype Option<+T> = None | Some(value: T)

  /**
   * The outcome of one awaited HTTP request. The network and the server are
   * outside the model, so every request is a parameter: it either succeeds
   * with the response body or it rejects.
   */
  datatype Response<+T> = Ok(data: T) | Failed

  /** JavaScript truthiness of an optional string: neither missing nor "". */
  predicate Truthy(s: Option<string>)
  {
    s.Some? && s.value != ""
  }

  /** A user as the auth endpoints return it; only `_id` drives any decision. */
  datatype User = User(id: string, fullName: string, profilePic: Option<string>)

  /** A chat message as the messages endpoint and the `newMessage` event carry it. */
  datatype Message = Message(
    id: string,
    senderId: string,
    receiverId: string,
    createdAt: string,
    image: Option<string>,
    text: Option<string>)
}
