/**
 * The requests the application serves, their paths, and the set of paths
 * the login filter is registered for.
 */
module Endpoints {
  import opened Wrappers
  import opened Entities

  datatype Request =
    | GetHome                                                     // GET /
    | PostLogin(name: string, submittedSessionId: Option<string>) // POST /login
    | GetLogin                                                    // GET /login
    | GetChat                                                     // GET /chat
    | GetSearch                                                   // GET /search
    | GetUpdate                                                   // GET /api/chat/update
    | GetSendMessage                                              // GET /api/chat/send-message
    | PostSendMessage(body: MessageBody)                          // POST /api/chat/send-message
    | GetSearchByUsername(username: string)                       // GET /api/search/username/{username}
    | GetSearchByText(textInMessage: string)                      // GET /api/search/message/{textInMessage}
    | GetLogout                                                   // GET /api/chat/logout

  function PathOf(req: Request): string
  {
    match req
    case GetHome => "/"
    case PostLogin(_, _) => "/login"
    case GetLogin => "/login"
    case GetChat => "/chat"
    case GetSearch => "/search"
    case GetUpdate => "/api/chat/update"
    case GetSendMessage => "/api/chat/send-message"
    case PostSendMessage(_) => "/api/chat/send-message"
    case GetSearchByUsername(username) => "/api/search/username/" + username
    case GetSearchByText(text) => "/api/search/message/" + text
    case GetLogout => "/api/chat/logout"
  }

  /**
   * The paths the login filter is registered for: `/chat`, `/search` and
   * everything under `/api/chat/` and `/api/search/`.
   */
  function IsProtectedPath(path: string): (b: bool)
    ensures path == "/chat" || path == "/search" ==> b
    ensures "/api/chat/" <= path || "/api/search/" <= path ==> b
    ensures path == "/" || path == "/login" || path == "/error" ==> !b
  {
    path == "/chat" || path == "/search" || "/api/chat/" <= path || "/api/search/" <= path
  }

  /** The gate stands in front of every request except the landing page and the two login requests. */
  function IsGated(req: Request): (b: bool)
    ensures b <==> !(req.GetHome? || req.PostLogin? || req.GetLogin?)
  {
    var path := PathOf(req);
    assert req.GetSearchByUsername? ==> path[..12] == "/api/search/";
    assert req.GetSearchByText? ==> path[..12] == "/api/search/";
    IsProtectedPath(path)
  }
}
