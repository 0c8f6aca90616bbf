/**
 * Client code that drives the chat room through whole conversations and
 * checks, from the contracts alone, what each request yields.
 */
module Scenarios {
  import opened Wrappers
  import opened Entities
  import opened ChatUserRepository
  import opened MessageRepository
  import opened Endpoints
  import opened ChatRoom

  /** A name taken by one session is refused to another. */
  method NameTaken()
  {
    var app := new ChatSystem(map[], []);
    app.HandleContextRefreshEvent(1000);
    var outcome := app.Login("alice", None, "s1", 1100);
    assert outcome == AcceptedNew;
    outcome := app.Login("alice", None, "s2", 1200);
    assert outcome == RejectedNameTaken;
  }

  /** A logged-in user's message is stored and shows up in the next poll. */
  method PostThenPoll()
  {
    var app := new ChatSystem(map[], []);
    var outcome := app.Login("alice", None, "s1", 1100);
    var hi := Message("alice", "hi", 1300);
    var reply, redirect := app.SendMessage(hi, "s1");
    assert reply == MESSAGE_RECEIVED_SUCCESS && !redirect;
    assert app.messages == [hi];
    var participants, recent := app.Update();
    assert participants == [ChatUser("alice", "s1")];
    assert hi in multiset(recent);
  }

  /** A post under a name the session does not own is refused and stores nothing. */
  method PostUnderOtherName()
  {
    var app := new ChatSystem(map[], []);
    var outcome := app.Login("alice", None, "s1", 1100);
    var reply, redirect := app.SendMessage(Message("bob", "yo", 1500), "s1");
    assert reply == MESSAGE_RECEIVED_FAILURE && redirect;
    assert app.messages == [];
  }

  /**
   * The gate stops a session that never logged in, but not on the landing
   * page; after a restart the session survives and its login does not.
   */
  method GateAndRestart()
  {
    var app := new ChatSystem(map[], []);
    app.HandleContextRefreshEvent(1000);
    var outcome := app.Login("alice", None, "s1", 1100);

    // a session that never logged in is stopped at the gate, the landing page is not
    var r := app.Serve(GetUpdate, "s2", 1600);
    assert r == FilteredOut;
    r := app.Serve(GetHome, "s2", 1600);
    assert r != FilteredOut;

    var restarted := new ChatSystem(app.attributes, app.messages);
    restarted.HandleContextRefreshEvent(2000);
    assert restarted.LoginTimeOf("s1") == Some(1100);
    r := restarted.Serve(GetChat, "s1", 2100);
    assert r == FilteredOut;
  }

  /**
   * The login form sends no session id, so a second login under one's own
   * name is refused; logging out resets the login time to -1 and the gate
   * then stops a second logout before it reaches the handler.
   */
  method ReloginAndLogout()
  {
    var app := new ChatSystem(map[], []);
    app.HandleContextRefreshEvent(1000);
    var outcome := app.Login("alice", None, "s1", 1100);
    assert outcome == AcceptedNew;
    outcome := app.Login("alice", None, "s1", 1200);
    assert outcome == RejectedNameTaken;
    outcome := app.Login("alice", Some("s1"), "s1", 1300);
    assert outcome == AcceptedReturning;
    assert app.users == [ChatUser("alice", "s1")];

    var name := app.Chat("s1");
    assert name == Some("alice");
    var loggedOut := app.Logout("s1");
    assert loggedOut && app.users == [];
    assert app.LoginTimeOf("s1") == Some(-1);
    var r := app.Serve(GetLogout, "s1", 1600);
    assert r == FilteredOut;
  }

  /**
   * Login never asks whether the session already owns a name, so one session
   * can end up bound to two users; a session can also pass the gate with no
   * user bound to it, by submitting another session's id.
   */
  method SessionBindingGaps()
  {
    var app := new ChatSystem(map[], []);
    app.HandleContextRefreshEvent(1000);
    var outcome := app.Login("alice", None, "s1", 1100);
    outcome := app.Login("bob", None, "s1", 1200);
    assert outcome == AcceptedNew;
    assert app.users == [ChatUser("alice", "s1"), ChatUser("bob", "s1")];
    assert ColumnOf(app.users[0], Session) == "s1" && ColumnOf(app.users[1], Session) == "s1";
    assert !AtMostOne(app.users, Session, "s1");

    var other := new ChatSystem(map[], []);
    other.HandleContextRefreshEvent(1000);
    outcome := other.Login("carol", None, "s1", 1100);
    outcome := other.Login("carol", Some("s1"), "s9", 1200);
    assert outcome == AcceptedReturning;
    var gate := other.Filter("s9");
    assert gate.chainInvoked;
    var name := other.Chat("s9");
    assert name == None;
  }

  /**
   * A whole conversation through the gate: a session logs in after the
   * refresh, posts a message without a posting time, and its next poll
   * shows that message, stamped with the clock reading of the post.
   */
  method PostThroughGate()
  {
    var app := new ChatSystem(map[], []);
    app.HandleContextRefreshEvent(1000);
    var r := app.Serve(PostLogin("alice", None), "s1", 1100);
    assert r == LoginPage(AcceptedNew);
    assert app.LoginTimeOf("s1") == Some(1100);

    r := app.Serve(PostSendMessage(MessageBody("alice", "hi", None)), "s1", 1300);
    assert r == SendReply(MESSAGE_RECEIVED_SUCCESS, false);
    assert app.messages == [Message("alice", "hi", 1300)];

    r := app.Serve(GetUpdate, "s1", 1400);
    NewestPostIsInSnapshot([], Message("alice", "hi", 1300));
    assert r.Snapshot? && r.users == [ChatUser("alice", "s1")];
    assert Message("alice", "hi", 1300) in r.messages;
  }

  /**
   * Through the gate, a refused login changes neither the user store nor
   * the login time of the refused session, and a logout from a session
   * nobody is bound to changes nothing either.
   */
  method RefusedLoginThroughGate()
  {
    var app := new ChatSystem(map[], []);
    app.HandleContextRefreshEvent(1000);
    var r := app.Serve(PostLogin("alice", None), "s1", 1100);
    var users0, attributes0 := app.users, app.attributes;
    r := app.Serve(PostLogin("alice", None), "s2", 1200);
    assert r == LoginPage(RejectedNameTaken);
    assert app.users == users0 && app.attributes == attributes0;
    assert app.LoginTimeOf("s2") == None;

    // a session that passes the gate with nobody bound to it: logout changes nothing
    r := app.Serve(PostLogin("alice", Some("s1")), "s9", 1300);
    assert r == LoginPage(AcceptedReturning) && app.users == users0;
    attributes0 := app.attributes;
    r := app.Serve(GetLogout, "s9", 1400);
    assert r == LogoutReply(false);
    assert app.users == users0 && app.attributes == attributes0;
  }

  /**
   * A request the gate rejects never reaches a lookup, so it is answered
   * even for a session bound to two users.
   */
  method RejectedBeforeLookup()
  {
    var app := new ChatSystem(map[], []);
    app.HandleContextRefreshEvent(1000);
    var r := app.Serve(PostLogin("alice", None), "s1", 1100);
    r := app.Serve(PostLogin("bob", None), "s1", 1200);
    assert app.users == [ChatUser("alice", "s1"), ChatUser("bob", "s1")];
    app.HandleContextRefreshEvent(2000);
    r := app.Serve(GetChat, "s1", 2100);
    assert r == FilteredOut;
    r := app.Serve(GetLogout, "s1", 2200);
    assert r == FilteredOut && |app.users| == 2;
  }
}
