/**
 * The two persisted entities of the chat room, as values. Database ids
 * (generated by the persistence layer) are not part of the model: a stored row
 * is identified by its contents.
 */
module Entities {
  import opened Wrappers

  /** A session identifier issued by the servlet container. */
  type SessionId = string

  /** A logged-in participant: the chosen name and the session it is bound to. */
  datatype ChatUser = ChatUser(name: string, sessionId: SessionId)

  /** A posted message: author name, body and posting time in milliseconds. */
  datatype Message = Message(user: string, text: string, timePosted: int)

  /** The JSON body of a posted message; the client may leave out the posting time. */
  datatype MessageBody = MessageBody(user: string, text: string, timePosted: Option<int>)

  /**
   * The message the JSON body deserialises to at time `now`: the no-argument
   * constructor stamps the clock reading, and a posting time present in the
   * body overrides it.
   */
  function FromBody(body: MessageBody, now: int): (m: Message)
    ensures m.user == body.user && m.text == body.text
    ensures body.timePosted.None? ==> m.timePosted == now
    ensures body.timePosted.Some? ==> m.timePosted == body.timePosted.value
  {
    Message(body.user, body.text, if body.timePosted.Some? then body.timePosted.value else now)
  }
}
