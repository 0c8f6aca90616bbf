/** Login utilities shared by the controllers and the request gate. */
module LoginTools {
  import opened Entities
  import opened ChatUserRepository

  /** The session attribute under which the login time is kept. */
  const SESSION_ATTR_LOGIN_TIME: string := "loginTime"

  /**
   * `isCurrentSessionLoggedIn`: some stored user is bound to `session`. It
   * looks only at the user store, never at the login time or the restart
   * watermark.
   */
  function IsCurrentSessionLoggedIn(users: seq<ChatUser>, session: SessionId): (b: bool)
    requires AtMostOne(users, Session, session)
    ensures b <==> exists u :: u in users && u.sessionId == session
  {
    FindBySessionId(users, session).Some?
  }
}
