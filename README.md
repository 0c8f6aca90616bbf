# Chat room: login, restart watermark and polling, in Dafny

This project models the core of a small Spring chat room: name-based login,
a request gate that rejects sessions whose login predates the last server
restart, message posting, a polling snapshot, search and logout.

Beneath the HTTP glue the application is a sequential state machine over four
pieces of state, held by the class `ChatRoom.ChatSystem`:

- the **user store**, a sequence of `ChatUser(name, sessionId)` rows;
- the **message store**, a sequence of `Message(user, text, timePosted)` rows;
- the **session attributes**, a map from (session id, attribute name) to an
  integer; the login time lives under the key `"loginTime"`
  (`LoginTools.SESSION_ATTR_LOGIN_TIME`), and `-1` is written there at logout;
- the **restart watermark** `timeOfLastRefresh`, written by the context
  refresh event.

Every handler of the web controller and of the API controller is a method of
that class. The framework inputs of a request are parameters: the current
session id, the clock reading `now`, and the form or JSON body. The class
invariant `Valid()` is the property the login protocol itself keeps:
**at most one stored user per name**. Nothing in the schema enforces it.

Modules, one per source file or component:

| module | file | models |
|---|---|---|
| `Wrappers` | `wrappers.dfy` | `Option`, standing in for a Java reference that may be null |
| `Entities` | `entities.dfy` | the `ChatUser` and `Message` entities as values |
| `ChatUserRepository` | `chat_user_repository.dfy` | `findByName`, `findBySessionId`, `delete` over the user sequence |
| `MessageRepository` | `message_repository.dfy` | the top-5 query, `findByUser`, `findByTextContains` |
| `LoginTools` | `login_tools.dfy` | the attribute key and `isCurrentSessionLoggedIn` |
| `LoginFilterRest` | `login_filter_rest.dfy` | the gate's verdict and its effect on the exchange |
| `Endpoints` | `endpoints.dfy` | the requests, their paths, and the protected path set |
| `ChatRoom` | `chat_room.dfy` | the `ChatSystem` class: state, handlers, and `Serve` (gate + handler) |
| `Scenarios` | `scenarios.dfy` | client methods that drive whole conversations |

The single-result lookups presuppose at most one matching row. For names,
`Valid()` guarantees this. For sessions it is **not** an invariant: login
never asks whether the current session already owns a name, so one session
can be bound to two users (`Scenarios.SessionBindingGaps` builds such a
state). "At most one user bound to this session" is therefore a precondition
of `home`, `chat` and `logout`. In `Serve` it is required of `chat` and
`logout` only when the gate forwards the request: a request the gate rejects
never reaches the lookup (`Scenarios.RejectedBeforeLookup`).

Behaviour of the code worth knowing, which the model reproduces:

- A returning user is recognised by comparing the stored session id with the
  session id **submitted with the login form**, not with the current session
  id (WebController.java:83). The form sends no session id, so a second
  login under one's own name from the same session is refused
  (`Scenarios.ReloginAndLogout`). Conversely, a client that submits another
  session's id is accepted and gets its login time stamped, although no user
  is bound to its own session. Its `/chat` request then finds nobody
  (`Scenarios.SessionBindingGaps`).
- Logout with nobody bound to the session does not reset the login time.
  The lookup yields null and `delete(null)` throws, so the `-1` stamp is
  never written and the request changes nothing (`LogoutReply(false)`). A second logout after a
  successful one does not reach the handler anyway: the `-1` login time makes
  the gate reject it.
- `GET /` redirects to the chat when a user is bound to the session. It does
  not look at the login time or the watermark.
- A posted message is stored as deserialised from its JSON body. The
  entity's no-argument constructor stamps the clock reading, and a
  `timePosted` present in the body overrides it (`Entities.FromBody`). The
  chat client sends only the author and the text, so its messages carry the
  time of the post; the handler itself does not stamp them. The model takes
  a posted body to carry no database id, so `save` always appends.
- Name uniqueness comes from the login logic alone. The schema declares no
  uniqueness constraint.

## Model

| member | source | states |
|---|---|---|
| `Entities.FromBody` | src/main/java/com/example/ex4/entities/Message.java:42-44 | the deserialised message keeps the body's author and text; its posting time is the body's when present and the clock reading `now` otherwise |
| `ChatUserRepository.FindBy` | src/main/java/com/example/ex4/repositories/ChatUserRepository.java:20-30 | given at most one matching row: None iff no stored row holds the value in the column; otherwise a stored row holding it, and every row holding it equals the answer |
| `ChatUserRepository.FindByName` | src/main/java/com/example/ex4/repositories/ChatUserRepository.java:20-24 | None (null) iff no stored user has the name, else a stored user with that name; requires at most one such user |
| `ChatUserRepository.FindBySessionId` | src/main/java/com/example/ex4/repositories/ChatUserRepository.java:26-30 | None (null) iff no stored user is bound to the session, else a stored user bound to it; requires at most one such user |
| `ChatUserRepository.UniqueNamesAllowLookup` | src/main/java/com/example/ex4/repositories/ChatUserRepository.java:24 | in a store with unique names, the single-result name lookup is always defined |
| `ChatUserRepository.Delete` | src/main/java/com/example/ex4/APIController.java:137 | the store after deleting a row holds exactly the other rows; deleting an absent row changes nothing |
| `ChatUserRepository.DeleteKeepsUniqueNames` | src/main/java/com/example/ex4/APIController.java:136-137 | deleting from a store with unique names keeps the names unique and removes exactly one row when the row is stored |
| `MessageRepository.SortByTimePostedDesc` | src/main/java/com/example/ex4/repositories/MessageRepository.java:16-18 | the ordering step of the query: a permutation of the stored messages, newest first |
| `MessageRepository.InsertKeepsDescending` | src/main/java/com/example/ex4/repositories/MessageRepository.java:16-18 | placing one message into a newest-first sequence keeps it newest first |
| `MessageRepository.PrefixLeavesOutOlder` | src/main/java/com/example/ex4/repositories/MessageRepository.java:16-18 | taking the first k of a newest-first sequence leaves out nothing newer than what it keeps |
| `MessageRepository.FindFirst5MessagesByOrderByTimePostedDesc` | src/main/java/com/example/ex4/repositories/MessageRepository.java:16-18 | at most 5 and exactly min(5, stored) messages, all stored, newest first; no stored message left out is newer than one returned; all returned when 5 or fewer are stored |
| `MessageRepository.NewestPostIsInSnapshot` | src/main/java/com/example/ex4/repositories/MessageRepository.java:16-18 | a message strictly newer than every stored one is returned by the query once it is stored |
| `MessageRepository.Where` | src/main/java/com/example/ex4/repositories/MessageRepository.java:20-30 | each message occurs in the result exactly as often as it is stored if the filter keeps it, and not at all otherwise |
| `MessageRepository.FindByUser` | src/main/java/com/example/ex4/repositories/MessageRepository.java:20-24 | exactly the stored messages whose author is the given name, with their multiplicities |
| `MessageRepository.ContainsIffOccurs` | src/main/java/com/example/ex4/repositories/MessageRepository.java:26-30 | the substring test holds iff the fragment occurs at some position of the text as a contiguous block |
| `MessageRepository.FindByTextContains` | src/main/java/com/example/ex4/repositories/MessageRepository.java:26-30 | exactly the stored messages whose text contains the fragment contiguously, with their multiplicities |
| `LoginTools.IsCurrentSessionLoggedIn` | src/main/java/com/example/ex4/LoginTools.java:15-23 | true iff some stored user is bound to the session; its inputs are only the user store and the session id |
| `LoginFilterRest.Decide` | src/main/java/com/example/ex4/LoginFilterRest.java:44-48 | the gate forwards iff the login time is present and not below the time of the last refresh |
| `LoginFilterRest.DoFilterInternal` | src/main/java/com/example/ex4/LoginFilterRest.java:41-49 | the chain is invoked iff the login time is present and not below the watermark; exactly one of "add `location: /`" and "invoke the chain" happens |
| `LoginFilterRest.DecideRejectsExactlyStale` | src/main/java/com/example/ex4/LoginFilterRest.java:42-44 | an absent login time is rejected, one below the watermark is rejected, one at or above it is forwarded |
| `LoginFilterRest.DecideMonotone` | src/main/java/com/example/ex4/LoginFilterRest.java:44 | raising the watermark never turns a rejected login time into a forwarded one |
| `LoginFilterRest.LoggedOutSentinelRejected` | src/main/java/com/example/ex4/LoginFilterRest.java:44 | the logout value -1 is rejected under every non-negative watermark |
| `Endpoints.IsProtectedPath` | src/main/java/com/example/ex4/Ex4Application.java:43 | `/chat`, `/search` and every path under `/api/chat/` or `/api/search/` is protected; `/`, `/login` and `/error` are not |
| `Endpoints.IsGated` | src/main/java/com/example/ex4/Ex4Application.java:39-45 | the gate stands in front of every request except `GET /`, `POST /login` and `GET /login` |
| `ChatRoom.ChatSystem.LoginTimeOf` | src/main/java/com/example/ex4/LoginFilterRest.java:42 | the session's `loginTime` attribute: present iff the attribute is set, and then its value |
| `ChatRoom.ChatSystem.constructor` | src/main/java/com/example/ex4/Ex4Application.java:16-23 | at process start the user store is empty while the kept sessions and messages remain; the watermark is 0 until the refresh event |
| `ChatRoom.ChatSystem.HandleContextRefreshEvent` | src/main/java/com/example/ex4/Ex4Application.java:52-55 | the watermark becomes `now`; the sessions and the user store are unchanged; every session whose login time is below `now` is then rejected by the gate |
| `ChatRoom.ChatSystem.GetTimeOfLastRefresh` | src/main/java/com/example/ex4/Ex4Application.java:60-62 | returns the watermark as last written |
| `ChatRoom.ChatSystem.Filter` | src/main/java/com/example/ex4/LoginFilterRest.java:41-49 | reads the session's `loginTime` attribute and the watermark; forwards iff the login time is set and not older than the last refresh, else adds `location: /` |
| `ChatRoom.ChatSystem.Home` | src/main/java/com/example/ex4/WebController.java:48-55 | redirects to the chat iff a stored user is bound to the session; changes nothing |
| `ChatRoom.ChatSystem.Login` | src/main/java/com/example/ex4/WebController.java:72-95 | free name: exactly one new user (name, current session) is appended and the login time becomes `now`; taken name whose stored session id equals the submitted one: store unchanged, login time `now`; otherwise store and attributes unchanged and the name is refused; names stay unique |
| `ChatRoom.ChatSystem.LoginGet` | src/main/java/com/example/ex4/WebController.java:103-106 | always redirects to `/` and changes nothing |
| `ChatRoom.ChatSystem.Chat` | src/main/java/com/example/ex4/WebController.java:114-119 | the name of the user bound to the session; None (the handler fails) iff nobody is bound |
| `ChatRoom.ChatSystem.Update` | src/main/java/com/example/ex4/APIController.java:64-70 | every stored user, and the newest five messages newest first, none newer left out |
| `ChatRoom.ChatSystem.ThisFunctionNeedsPost` | src/main/java/com/example/ex4/APIController.java:78-82 | status 400 with the fixed explanation; changes nothing |
| `ChatRoom.ChatSystem.SendMessage` | src/main/java/com/example/ex4/APIController.java:92-102 | "success" and the message appended iff a stored user has the author's name and the current session id; otherwise "failure", a redirect to `/` and nothing stored; the user store never changes |
| `ChatRoom.ChatSystem.SearchByUsername` | src/main/java/com/example/ex4/APIController.java:110-113 | exactly the stored messages by that author; read-only |
| `ChatRoom.ChatSystem.SearchByTextInMessage` | src/main/java/com/example/ex4/APIController.java:121-124 | exactly the stored messages whose text contains the fragment; read-only |
| `ChatRoom.ChatSystem.Logout` | src/main/java/com/example/ex4/APIController.java:134-141 | with a user bound to the session: that user alone is removed, every other user stays, the login time becomes -1; with nobody bound, nothing changes; names stay unique |
| `ChatRoom.ChatSystem.Serve` | src/main/java/com/example/ex4/Ex4Application.java:39-45 | a protected request from a session the gate rejects gets `FilteredOut` and changes nothing, with no lookup and so no session-uniqueness demand; every other request gets its handler's answer and effect: home, login (new name: one user appended and the login time stamped; returning: users unchanged, login time stamped; refused: users and attributes unchanged), chat, the poll snapshot of all users and the five newest messages, the 400 reply, the post (body deserialised at `now`, stored iff its author is bound to the session), both searches and logout (bound: exactly that user removed and the login time set to -1; unbound: users and attributes unchanged); only login and logout touch users and attributes |

## Left out

- The two JavaScript clients (`chat.js`, `login.js`): DOM handling, `fetch` and polling timers are UI and I/O.
- `Utils.getSessionId`: it reads framework request state; the current session id is a parameter.
- `System.currentTimeMillis`: the clock is the parameter `now`.
- Transport details: redirects, status codes and template names are tagged results (`Response`, `LoginOutcome`); the gate's only header is kept, in `FilterOutcome`.
- After redirecting to the chat, `home` still adds an empty form object and names the `index` view; the model returns only the redirect decision.
- The servlet container's reading of the registered URL patterns (`/api/chat/**`, `/api/search/**`) is container-defined; `Endpoints.IsProtectedPath` takes the intended reading: `/chat`, `/search` and everything under `/api/chat/` and `/api/search/`.
- The filter class actually registered at Ex4Application.java:40-42 (`LoginFilter`) is not part of this model; the gate is modelled from `LoginFilterRest`.
- `WebController.search` and `WebController.error` only name static views; `/search` appears in `Serve` as `SearchPage` so that the gate covers it, and `/error` is not modelled.
- Database ids, bean-validation annotations and JSON serialisation of replies (deserialising a posted body is `Entities.FromBody`): rows are identified by content. A posted JSON body may carry an `id` (`Message.setId`, Message.java:67-69); `save` at APIController.java:96 would then overwrite the stored message with that id instead of appending, which the model, whose bodies carry no id, does not capture. Further, and names, session ids, authors and texts are modelled as present strings. A null author would make the example match in `sendMessage` ignore the name.
- Java `long` arithmetic: times are unbounded integers; clock readings stay far from the 64-bit limit.
- Result order of `findAll`, `findByUser` and `findByTextContains` is left open by the database; the model returns store order. Among messages with equal `timePosted`, the top-5 query's order is left open too; the model puts earlier-stored ones first.
- Case sensitivity of the database's `Contains` comparison: the model matches exact substrings.
- Concurrent requests, including two logins racing for one free name: requests are modelled one at a time.
- Which tables survive a restart depends on database configuration that is not part of this model; the constructor starts with an empty user table, as the source's comment describes, and takes the surviving messages as a parameter.
- ChatRoom.ChatSystem.Logout: when nobody is bound to the session, the model takes `delete(null)` to throw, as the repository interface documents, so the request changes nothing; the source's own text does not show that library behaviour.
