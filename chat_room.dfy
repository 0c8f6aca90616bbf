/**
 * The chat room as one sequential state machine: the user store, the message
 * store, the per-session attributes (where `loginTime` lives) and the
 * process-wide refresh watermark, with the handlers of the web controller and
 * of the API controller as methods. The framework inputs of a request (the
 * current session id, the clock) are parameters.
 */
module ChatRoom {
  import opened Wrappers
  import opened Entities
  import opened ChatUserRepository
  import opened MessageRepository
  import opened LoginTools
  import opened LoginFilterRest
  import opened Endpoints

  /** The three flows of a login attempt. */
  datatype LoginOutcome =
    | AcceptedNew        // free name: stored, login time stamped, redirect to /chat
    | AcceptedReturning  // taken name, stored session id equals the submitted one: stamped, redirect to /chat
    | RejectedNameTaken  // taken name, other or no submitted session id: "index" with the is-invalid flag

  const MESSAGE_RECEIVED_SUCCESS: string := "success"
  const MESSAGE_RECEIVED_FAILURE: string := "failure"
  const NEEDS_POST_TEXT: string := "This function requires a post request."
  const SC_BAD_REQUEST: int := 400
  /** Login time written at logout. */
  const LOGGED_OUT: int := -1

  /** What a request yields, once the transport details are stripped away. */
  datatype Response =
    | FilteredOut                                          // the gate added `location: /` and stopped the chain
    | HomePage(redirectToChat: bool)
    | LoginPage(outcome: LoginOutcome)
    | RedirectTo(location: string)
    | ChatPage(user: Option<string>)                       // None: the lookup found nobody and the handler fails
    | SearchPage
    | Snapshot(users: seq<ChatUser>, messages: seq<Message>)
    | Status(code: int, body: string)
    | SendReply(reply: string, redirectToRoot: bool)
    | Found(messages: seq<Message>)
    | LogoutReply(loggedOut: bool)                         // false: `delete(null)` throws and nothing changes

  class ChatSystem {
    /** The user store, in insertion order. */
    var users: seq<ChatUser>
    /** The message store, in insertion order. */
    var messages: seq<Message>
    /** Session attributes, keyed by session id and attribute name. */
    var attributes: map<(SessionId, string), int>
    /** The time of the last context refresh: the watermark the gate compares login times against. */
    var timeOfLastRefresh: int

    /** The store invariant the login protocol keeps: at most one stored user per name. */
    ghost predicate Valid()
      reads this
    {
      UniqueNames(users)
    }

    /** The `loginTime` attribute of `session`, None while it is unset. */
    function LoginTimeOf(session: SessionId): (t: Option<int>)
      reads this
      ensures t.Some? <==> (session, SESSION_ATTR_LOGIN_TIME) in attributes
      ensures t.Some? ==> t.value == attributes[(session, SESSION_ATTR_LOGIN_TIME)]
    {
      var key := (session, SESSION_ATTR_LOGIN_TIME);
      if key in attributes then Some(attributes[key]) else None
    }

    /**
     * Process start: the user table is empty, the sessions the container kept
     * are still there, the message table holds whatever the database kept,
     * and the watermark has Java's default 0 until the refresh event.
     */
    constructor (keptAttributes: map<(SessionId, string), int>, keptMessages: seq<Message>)
      ensures Valid()
      ensures users == [] && messages == keptMessages
      ensures attributes == keptAttributes && timeOfLastRefresh == 0
    {
      users := [];
      messages := keptMessages;
      attributes := keptAttributes;
      timeOfLastRefresh := 0;
    }

    // -------------------------------------------------------------------------
    // Application: the refresh watermark
    // -------------------------------------------------------------------------

    /**
     * `handleContextRefreshEvent`: the watermark becomes `now`. Sessions keep
     * their attributes, but every one that logged in before `now` is from then
     * on rejected by the gate.
     */
    method HandleContextRefreshEvent(now: int)
      modifies this`timeOfLastRefresh
      ensures timeOfLastRefresh == now
      ensures users == old(users) && attributes == old(attributes)
      ensures forall s :: LoginTimeOf(s).Some? && LoginTimeOf(s).value < now ==>
                Decide(LoginTimeOf(s), timeOfLastRefresh) == Reject
    {
      timeOfLastRefresh := now;
    }

    /** `getTimeOfLastRefresh`: the watermark as last written. */
    method GetTimeOfLastRefresh() returns (t: int)
      ensures t == timeOfLastRefresh
    {
      t := timeOfLastRefresh;
    }

    // -------------------------------------------------------------------------
    // The request gate
    // -------------------------------------------------------------------------

    /**
     * The login filter on a request of `session`: it forwards exactly when
     * the session's login time is set and not older than the last refresh.
     */
    method Filter(session: SessionId) returns (o: FilterOutcome)
      ensures o.chainInvoked <==> LoginTimeOf(session).Some? && timeOfLastRefresh <= LoginTimeOf(session).value
      ensures !o.chainInvoked ==> o.addedHeaders == [(RESPONSE_HEADER_LOCATION, "/")]
      ensures o.chainInvoked ==> o.addedHeaders == []
    {
      var refreshTime := GetTimeOfLastRefresh();
      o := DoFilterInternal(LoginTimeOf(session), refreshTime);
    }

    // -------------------------------------------------------------------------
    // Web controller
    // -------------------------------------------------------------------------

    /** `home`: redirect to the chat exactly when a stored user is bound to the session. */
    method Home(session: SessionId) returns (redirectToChat: bool)
      requires AtMostOne(users, Session, session)
      ensures redirectToChat <==> exists u :: u in users && u.sessionId == session
    {
      redirectToChat := IsCurrentSessionLoggedIn(users, session);
    }

    /**
     * `login`, three flows. A free name is stored with the current session
     * id; a taken name is accepted only if its stored session id equals the
     * one submitted with the form (absent: never). An accepted login stamps
     * the current session's login time; a rejected one changes nothing.
     */
    method Login(name: string, submittedSessionId: Option<string>, session: SessionId, now: int)
      returns (outcome: LoginOutcome)
      requires Valid()
      modifies this`users, this`attributes
      ensures Valid()
      ensures outcome == AcceptedNew <==> forall u | u in old(users) :: u.name != name
      ensures outcome == AcceptedReturning <==>
                exists u :: u in old(users) && u.name == name && Some(u.sessionId) == submittedSessionId
      ensures outcome == AcceptedNew ==> users == old(users) + [ChatUser(name, session)]
      ensures outcome != AcceptedNew ==> users == old(users)
      ensures outcome != RejectedNameTaken ==>
                attributes == old(attributes)[(session, SESSION_ATTR_LOGIN_TIME) := now] &&
                LoginTimeOf(session) == Some(now)
      ensures outcome == RejectedNameTaken ==> attributes == old(attributes)
    {
      UniqueNamesAllowLookup(users, name);
      var existingUser := FindByName(users, name);
      if existingUser.None? {
        users := users + [ChatUser(name, session)];
        outcome := AcceptedNew;
      } else if Some(existingUser.value.sessionId) != submittedSessionId {
        assert forall u | u in users && u.name == name :: u == existingUser.value;
        return RejectedNameTaken;
      } else {
        outcome := AcceptedReturning;
      }
      attributes := attributes[(session, SESSION_ATTR_LOGIN_TIME) := now];
    }

    /** `GET /login`: always a redirect to the landing page. */
    method LoginGet() returns (location: string)
      ensures location == "/"
    {
      location := "/";
    }

    /**
     * `chat`: the name of the user bound to the session. With nobody bound
     * the lookup yields null and the handler fails (None).
     */
    method Chat(session: SessionId) returns (name: Option<string>)
      requires AtMostOne(users, Session, session)
      ensures name.None? <==> forall u | u in users :: u.sessionId != session
      ensures name.Some? ==> ChatUser(name.value, session) in users
    {
      var bound := FindBySessionId(users, session);
      if bound.Some? {
        name := Some(bound.value.name);
      } else {
        name := None;
      }
    }

    // -------------------------------------------------------------------------
    // API controller
    // -------------------------------------------------------------------------

    /** `update`: every stored user, and the five newest messages newest first. */
    method Update() returns (participants: seq<ChatUser>, recent: seq<Message>)
      ensures participants == users
      ensures recent == FindFirst5MessagesByOrderByTimePostedDesc(messages)
      ensures |recent| <= RECENT_LIMIT && Descending(recent)
      ensures multiset(recent) <= multiset(messages) && NoneNewerLeftOut(messages, recent)
    {
      participants := users;
      recent := FindFirst5MessagesByOrderByTimePostedDesc(messages);
    }

    /** `GET /api/chat/send-message`: always 400 with a fixed explanation. */
    method ThisFunctionNeedsPost() returns (status: int, body: string)
      ensures status == SC_BAD_REQUEST && body == NEEDS_POST_TEXT
    {
      status, body := SC_BAD_REQUEST, NEEDS_POST_TEXT;
    }

    /**
     * `sendMessage`: the message is appended exactly when a stored user has
     * the message's author name and the current session id; otherwise
     * nothing is stored and the client is sent to the landing page.
     */
    method SendMessage(message: Message, session: SessionId) returns (reply: string, redirectToRoot: bool)
      modifies this`messages
      ensures reply == MESSAGE_RECEIVED_SUCCESS <==> ChatUser(message.user, session) in users
      ensures reply == MESSAGE_RECEIVED_SUCCESS || reply == MESSAGE_RECEIVED_FAILURE
      ensures redirectToRoot <==> reply == MESSAGE_RECEIVED_FAILURE
      ensures messages == if reply == MESSAGE_RECEIVED_SUCCESS then old(messages) + [message] else old(messages)
      ensures users == old(users)
    {
      var chatUser := ChatUser(message.user, session);
      if chatUser in users {
        messages := messages + [message];
        reply, redirectToRoot := MESSAGE_RECEIVED_SUCCESS, false;
      } else {
        reply, redirectToRoot := MESSAGE_RECEIVED_FAILURE, true;
      }
    }

    /** `searchByUsername`: the stored messages posted by `username`. */
    method SearchByUsername(username: string) returns (found: seq<Message>)
      ensures found == FindByUser(messages, username)
      ensures forall m :: multiset(found)[m] == if m.user == username then multiset(messages)[m] else 0
    {
      found := FindByUser(messages, username);
    }

    /** `searchByTextInMessage`: the stored messages whose text contains `textInMessage`. */
    method SearchByTextInMessage(textInMessage: string) returns (found: seq<Message>)
      ensures found == FindByTextContains(messages, textInMessage)
      ensures forall m :: multiset(found)[m] ==
                if exists i :: OccursAt(m.text, textInMessage, i) then multiset(messages)[m] else 0
    {
      found := FindByTextContains(messages, textInMessage);
    }

    /**
     * `logout`: the user bound to the session is deleted, every other user
     * stays, and the session's login time becomes -1. With nobody bound the
     * lookup yields null, `delete(null)` throws, and nothing changes.
     */
    method Logout(session: SessionId) returns (loggedOut: bool)
      requires Valid() && AtMostOne(users, Session, session)
      modifies this`users, this`attributes
      ensures Valid()
      ensures loggedOut <==> exists u :: u in old(users) && u.sessionId == session
      ensures loggedOut ==> |users| == |old(users)| - 1
      ensures loggedOut ==> forall v :: v in users <==> v in old(users) && v.sessionId != session
      ensures loggedOut ==> attributes == old(attributes)[(session, SESSION_ATTR_LOGIN_TIME) := LOGGED_OUT]
      ensures !loggedOut ==> users == old(users) && attributes == old(attributes)
    {
      var chatUser := FindBySessionId(users, session);
      if chatUser.None? {
        return false;
      }
      DeleteKeepsUniqueNames(users, chatUser.value);
      users := Delete(users, chatUser.value);
      attributes := attributes[(session, SESSION_ATTR_LOGIN_TIME) := LOGGED_OUT];
      loggedOut := true;
    }

    // -------------------------------------------------------------------------
    // One request, through the gate when its path is protected
    // -------------------------------------------------------------------------

    /**
     * Serve one request of `session` at time `now`. A protected request of a
     * session the gate rejects is answered with `FilteredOut` and changes
     * nothing. Every other request reaches its handler and gets that
     * handler's answer and effect: a posted body is deserialised at `now`
     * and stored iff its author is bound to the session, the poll answers
     * every user and the five newest messages, and login and logout follow
     * their three and two flows. Only login and logout touch the user store
     * and the session attributes.
     */
    method Serve(req: Request, session: SessionId, now: int) returns (resp: Response)
      requires Valid()
      requires req.GetHome? || ((req.GetChat? || req.GetLogout?) && Decide(LoginTimeOf(session), timeOfLastRefresh) == Forward) ==>
                 AtMostOne(users, Session, session)
      modifies this`users, this`messages, this`attributes
      ensures Valid()
      // the gate
      ensures resp == FilteredOut <==>
                IsGated(req) && Decide(old(LoginTimeOf(session)), timeOfLastRefresh) == Reject
      ensures resp == FilteredOut ==>
                users == old(users) && messages == old(messages) && attributes == old(attributes)
      ensures messages != old(messages) ==>
                && req.PostSendMessage?
                && Decide(old(LoginTimeOf(session)), timeOfLastRefresh) == Forward
                && ChatUser(req.body.user, session) in old(users)
                && messages == old(messages) + [FromBody(req.body, now)]
      ensures users != old(users) || attributes != old(attributes) ==> req.PostLogin? || req.GetLogout?
      // the web controller, behind the gate where it is protected
      ensures req.GetHome? ==> resp == HomePage(exists u :: u in old(users) && u.sessionId == session)
      ensures req.PostLogin? ==>
                && resp.LoginPage?
                && (resp.outcome == AcceptedNew <==> forall u | u in old(users) :: u.name != req.name)
                && (resp.outcome == AcceptedReturning <==>
                      exists u :: u in old(users) && u.name == req.name && Some(u.sessionId) == req.submittedSessionId)
                && (resp.outcome == AcceptedNew ==> users == old(users) + [ChatUser(req.name, session)])
                && (resp.outcome != AcceptedNew ==> users == old(users))
                && (resp.outcome != RejectedNameTaken ==>
                      attributes == old(attributes)[(session, SESSION_ATTR_LOGIN_TIME) := now])
                && (resp.outcome == RejectedNameTaken ==> attributes == old(attributes))
      ensures req.GetLogin? ==> resp == RedirectTo("/")
      ensures req.GetChat? && resp != FilteredOut ==>
                && resp.ChatPage?
                && (resp.user.None? <==> forall u | u in old(users) :: u.sessionId != session)
                && (resp.user.Some? ==> ChatUser(resp.user.value, session) in old(users))
      ensures req.GetSearch? && resp != FilteredOut ==> resp == SearchPage
      // the API controller, always behind the gate
      ensures req.GetUpdate? && resp != FilteredOut ==>
                resp == Snapshot(old(users), FindFirst5MessagesByOrderByTimePostedDesc(old(messages)))
      ensures req.GetSendMessage? && resp != FilteredOut ==> resp == Status(SC_BAD_REQUEST, NEEDS_POST_TEXT)
      ensures req.PostSendMessage? && resp != FilteredOut ==>
                && resp.SendReply?
                && (resp.reply == MESSAGE_RECEIVED_SUCCESS <==> ChatUser(req.body.user, session) in old(users))
                && (resp.redirectToRoot <==> resp.reply != MESSAGE_RECEIVED_SUCCESS)
                && messages == if resp.reply == MESSAGE_RECEIVED_SUCCESS
                               then old(messages) + [FromBody(req.body, now)] else old(messages)
      ensures req.GetSearchByUsername? && resp != FilteredOut ==>
                resp == Found(FindByUser(old(messages), req.username))
      ensures req.GetSearchByText? && resp != FilteredOut ==>
                resp == Found(FindByTextContains(old(messages), req.textInMessage))
      ensures req.GetLogout? && resp != FilteredOut ==>
                && resp.LogoutReply?
                && (resp.loggedOut <==> exists u :: u in old(users) && u.sessionId == session)
                && (resp.loggedOut ==> |users| == |old(users)| - 1)
                && (resp.loggedOut ==> forall v :: v in users <==> v in old(users) && v.sessionId != session)
                && (resp.loggedOut ==> attributes == old(attributes)[(session, SESSION_ATTR_LOGIN_TIME) := LOGGED_OUT])
                && (!resp.loggedOut ==> users == old(users) && attributes == old(attributes))
    {
      if IsGated(req) {
        var o := Filter(session);
        if !o.chainInvoked {
          return FilteredOut;
        }
      }
      match req
      case GetHome =>
        var redirectToChat := Home(session);
        resp := HomePage(redirectToChat);
      case PostLogin(name, submittedSessionId) =>
        var outcome := Login(name, submittedSessionId, session, now);
        resp := LoginPage(outcome);
      case GetLogin =>
        var location := LoginGet();
        resp := RedirectTo(location);
      case GetChat =>
        var name := Chat(session);
        resp := ChatPage(name);
      case GetSearch =>
        resp := SearchPage;
      case GetUpdate =>
        var participants, recent := Update();
        resp := Snapshot(participants, recent);
      case GetSendMessage =>
        var status, body := ThisFunctionNeedsPost();
        resp := Status(status, body);
      case PostSendMessage(body) =>
        var reply, redirectToRoot := SendMessage(FromBody(body, now), session);
        resp := SendReply(reply, redirectToRoot);
      case GetSearchByUsername(username) =>
        var found := SearchByUsername(username);
        resp := Found(found);
      case GetSearchByText(textInMessage) =>
        var found := SearchByTextInMessage(textInMessage);
        resp := Found(found);
      case GetLogout =>
        var loggedOut := Logout(session);
        resp := LogoutReply(loggedOut);
    }
  }
}
