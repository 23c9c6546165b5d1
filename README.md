# Intesa Vincente session core, in Dafny

A model of the bookkeeping behind a live word-guessing party game. A
controller and several role clients share one session over websockets.

- `Sessions` (sessions.dfy) is the server's `SessionManager`. It keeps the
  registry of active sessions, keyed by a session code built from a random
  slug. It checks the shared API key when sessions are created and joined.
  It also keeps the per-session word pool: the master word list minus the
  session's used-words list, from which the current word is drawn. The JSON
  files are state of the manager: an optional master list, a map from
  session code to used-words list (a missing key is a missing file) and the
  set of session directories. A session record is a `Session` object, as in
  the server, where one dictionary is shared by both managers and updated
  in place.
- `Connections` (connections.dfy) is the server's `WebSocketManager`. It
  covers the registry of sockets keyed by `session + "_" + role`, the
  session's list of connected roles, the reply chosen for each inbound
  message type, and the `session_state` envelope. A socket is modelled by
  what the server does to it: it is accepted, messages are appended to its
  outbox, and it is closed. The client's messages are given as a sequence,
  and reaching its end is the client disconnecting.
- `UrlSession` (url_session.dfy) is the browser's login persistence in the
  `role`, `session` and `apiKey` query parameters. The query is a map. The
  URL written back is returned as a value.
- `Network` (network.dfy) builds the HTTP and websocket
  addresses from the page location, and holds the local-network host test.
- `Lists` (lists.dfy) holds "append if absent" and "remove first
  occurrence", the two list updates both managers perform. `Wrappers`
  (wrappers.dfy) holds `Option` and `Result`.

Choices the code makes that a reader might not expect:

- A connection's registry key is derived from its session and role, so a
  reconnect with the same role replaces the stored socket. It is not a fresh
  identifier.
- When a connection closes, the key is removed whatever socket it holds by
  then. The role is removed from the session even if another connection of
  that role is still open. No state is broadcast.
- Only `ping`, `get_state` and `test_connection` get a reply. Every other
  message type, game commands included, is ignored.
- If the session disappears while a client is connected, the message loop
  stops after one error reply without unregistering the connection.
- The word pool is a list: the master list's order and duplicates are kept.

## Model

| member | source | states |
|---|---|---|
| Sessions.LobbyRecord | src/game/session_manager.py:54-67 | the record of a fresh or rehydrated session: code, state "lobby", no clients, timer 60, zero stats, no word, no passes, no new-word flag (a definition; the contracts of Session.Lobby, CreateSession and ValidateAndJoinSession use it) |
| Sessions.Session.Lobby | src/game/session_manager.py:54-67 | a new record is the initial lobby record: state "lobby", no clients, timer 60, zero stats, no word, no passes, no new-word flag |
| Sessions.KeepCodeChars | src/game/session_manager.py:30 | the result is no longer than the input; every kept character comes from the input and is a letter, a digit or '-'; an input made only of such characters is returned unchanged |
| Sessions.KeepCodeCharsCount | src/game/session_manager.py:30 | every letter, digit and '-' occurs in the result exactly as often as in the input, and no other character occurs at all |
| Sessions.KeepCodeCharsAppend | src/game/session_manager.py:30 | filtering a concatenation is the concatenation of the filtered parts, so kept characters stay in input order |
| Sessions.SessionCode | src/game/session_manager.py:27-30 | a code has at most 20 characters, each a lower-case ASCII letter, a digit or '-' |
| Sessions.SessionCodeIdempotent | src/game/session_manager.py:30 | cleaning an already generated code changes nothing |
| Sessions.SessionCodeHasNoUnderscore | src/game/session_manager.py:30 | a generated code never contains '_' |
| Sessions.Unused | src/game/session_manager.py:92 | the available words are master-list words that are not used, and every unused master word is among them |
| Sessions.UnusedAppend | src/game/session_manager.py:92 | filtering distributes over concatenation, so the master list's order is kept |
| Sessions.UnusedNothingUsed | src/game/session_manager.py:92 | with an empty used list the whole master list is available, duplicates included |
| Sessions.UnusedCount | src/game/session_manager.py:92 | an unused word is available exactly as many times as it occurs in the master list; a used word never is |
| Sessions.UnusedAfterAdd | src/game/session_manager.py:112-121 | after marking a word used, the pool is the old pool with that word (every copy) removed and nothing else changed |
| Sessions.SessionManager.constructor | src/game/session_manager.py:11-16 | no active sessions; the key is INTESA_API_KEY or "test-key-123"; the files on disk are as given |
| Sessions.SessionManager.GenerateSessionCode | src/game/session_manager.py:18-40 | at most 10 redraws; the code comes from the last slug drawn; every earlier code collided; the code is free unless all 10 redraws were used |
| Sessions.SessionManager.CreateDefaultFiles | src/game/session_manager.py:74-78 | the used-words file is created empty only when missing; an existing list is kept |
| Sessions.SessionManager.CreateSession | src/game/session_manager.py:42-69 | a wrong key gives 403 and changes nothing; otherwise the code is one of the 11 drawn codes, an active session is replaced only when all 11 drawn codes were taken, the code maps to a fresh lobby record, every other entry is unchanged, its directory exists and its used list is kept or created empty |
| Sessions.SessionManager.GetSession | src/game/session_manager.py:71-72 | the record exactly when the code is active; in a consistent manager the record found is that code's own |
| Sessions.SessionManager.GetAvailableWords | src/game/session_manager.py:80-92 | nothing when either file is missing; otherwise exactly the master words not in the session's used list |
| Sessions.SessionManager.PickNewWord | src/game/session_manager.py:94-105 | None exactly when no word is available; otherwise an available word, so a master word that is not used; only the session's current word changes |
| Sessions.SessionManager.MarkWordUsed | src/game/session_manager.py:107-125 | the word is appended only if absent; nothing is removed; a missing file stays missing; the word is no longer available |
| Sessions.SessionManager.ClearUsedWords | src/game/session_manager.py:127-139 | an existing used list becomes empty, so the whole master list is available again; a missing file stays missing |
| Sessions.SessionManager.ValidateAndJoinSession | src/game/session_manager.py:141-170 | a wrong key gives 403; an active code is returned untouched; an inactive code with a directory gets a fresh lobby record; any other code gives 404; failures change nothing |
| Lists.AddIfAbsent | src/game/session_manager.py:115-116 | the element is present afterwards; a list already holding it is returned unchanged; otherwise the element is appended at the end and the old list is a prefix |
| Lists.AddIfAbsentIdempotent | src/game/session_manager.py:115-116 | a second append-if-absent of the same element is a no-op |
| Lists.AddIfAbsentKeepsNoDuplicates | src/game/websocket_manager.py:32-33 | append-if-absent never introduces a duplicate role |
| Lists.RemoveFirst | src/game/websocket_manager.py:82-83 | an absent element changes nothing; otherwise the first occurrence is removed, the other elements keep their order, and the multiset loses exactly one copy |
| Lists.RemoveFirstNoDuplicates | src/game/websocket_manager.py:82-83 | on a duplicate-free role list the role is gone afterwards and the list stays duplicate-free |
| Lists.RemoveFirstUndoesAdd | src/game/websocket_manager.py:82-83 | removing a role that was just added to a list lacking it restores the list |
| Connections.ConnectionId | src/game/websocket_manager.py:28 | the key is the session code, then '_', then the role |
| Connections.ConnectionIdInjective | src/game/websocket_manager.py:28-29 | when session codes contain no '_', different (session, role) pairs get different keys |
| Connections.ConnectionIdCollision | src/game/websocket_manager.py:28 | without that condition two pairs can share a key |
| Connections.Reply | src/game/websocket_manager.py:52-68 | exactly ping, get_state and test_connection are answered; ping gets pong, get_state the session_state snapshot, test_connection a test_response with "Connection test successful", the role and the session; no reply is an error |
| Connections.Replies | src/game/websocket_manager.py:44-68 | the replies while the session is live: at most one per message, none of them an error |
| Connections.RepliesBound | src/game/websocket_manager.py:44-68 | messages that are all unrecognised produce nothing, and messages that are all recognised produce one reply each |
| Connections.RepliesAppend | src/game/websocket_manager.py:44-68 | replies to consecutive runs of messages follow one another |
| Connections.Attached | src/game/websocket_manager.py:32-33 | the role is in the list afterwards; a role already present changes nothing; an absent role is appended at the end; the other fields are unchanged and a duplicate-free list stays duplicate-free |
| Connections.AttachThenDetach | src/game/websocket_manager.py:82-83 | detaching a role that attached to a session lacking it restores the role list |
| Connections.WebSocketManager.constructor | src/game/websocket_manager.py:6-8 | no connections and no session manager |
| Connections.WebSocketManager.SetSessionManager | src/game/websocket_manager.py:10-11 | the session manager is the one given |
| Connections.WebSocketManager.SendSessionState | src/game/websocket_manager.py:70-76 | exactly one message is sent, a session_state message carrying the session's current snapshot |
| Connections.WebSocketManager.Attach | src/game/websocket_manager.py:13-36 | no manager: one "Server not initialized" error, socket closed, nothing stored; unknown session: one "Session not found" error, socket closed, nothing stored; otherwise the key maps to this socket, the role is added if absent and a session_state snapshot is sent |
| Connections.WebSocketManager.HandleMessages | src/game/websocket_manager.py:43-68 | a live session gets the replies to all messages, in order; a missing session gets exactly one "Session not found" error and the loop stops |
| Connections.WebSocketManager.Disconnect | src/game/websocket_manager.py:78-83 | the key is removed if present and the role's first occurrence removed if present; nothing else changes |
| Connections.WebSocketManager.Serve | src/game/websocket_manager.py:38-41 | an attached client gets the replies to its messages; afterwards its key is gone and its role's first occurrence removed |
| Connections.WebSocketManager.Connect | src/game/websocket_manager.py:13-41 | both rejections as in Attach; for a live session the socket stays open, receives the snapshot and then the replies, and afterwards the key is gone and the role removed again |
| UrlSession.IsValidRole | src/ui/src/utils/session.ts:62-64 | a role is valid exactly when it is controller, word_giver_1, word_giver_2 or word_guesser |
| UrlSession.SavedParams | src/ui/src/utils/session.ts:10-19 | role and session are set; apiKey is set when truthy and removed otherwise; every other parameter is kept |
| UrlSession.SaveSession | src/ui/src/utils/session.ts:9-23 | the URL written is `pathname?params`, with the saved parameters |
| UrlSession.LoadSession | src/ui/src/utils/session.ts:25-46 | null unless role and session are non-empty and the role valid; the key only when non-empty |
| UrlSession.ClearedParams | src/ui/src/utils/session.ts:50-53 | exactly role, session and apiKey are removed; the rest is kept |
| UrlSession.ClearSession | src/ui/src/utils/session.ts:48-60 | the URL written is the bare pathname when no parameter is left, else `pathname?params` with the cleared parameters |
| UrlSession.SaveThenLoad | src/ui/src/utils/session.ts:9-46 | loading after saving returns the role, the session and the key (only if non-empty), or null when the session is empty |
| UrlSession.ClearThenLoad | src/ui/src/utils/session.ts:25-60 | loading after clearing returns null |
| UrlSession.SaveThenClear | src/ui/src/utils/session.ts:9-60 | clearing after saving leaves the other parameters as they were before saving |
| Network.UsesCurrentHost | src/ui/src/utils/network.ts:8-9 | the host test holds exactly when the host starts with 192.168., 10. or 172.; the loopback exclusions are redundant |
| Network.LocalIPFromHost | src/ui/src/utils/network.ts:5-12 | the page host is taken as the local address exactly when it starts with 192.168., 10. or 172. |
| Network.ServedByServer | src/ui/src/utils/network.ts:65 | the page counts as served by the game server when its port is 8000 or its host is not localhost (a definition; the same test is at line 75, and the contracts of GetBaseURL and GetWebSocketURL use it) |
| Network.GetBaseURL | src/ui/src/utils/network.ts:63-70 | served by the server (port 8000 or a host other than localhost): the page origin; otherwise `http://<ip>:8000`, with the ip defaulting to localhost |
| Network.GetWebSocketURL | src/ui/src/utils/network.ts:73-81 | every address ends with `/ws/<uuid>`; in development it starts with `ws://` |
| Network.SecureSocketIffHttps | src/ui/src/utils/network.ts:75-77 | the address uses wss: exactly when the page is served by the server over https: |
| Network.DevelopmentUrlsAgree | src/ui/src/utils/network.ts:63-81 | in development the socket goes to the same host and port as HTTP requests |
| Network.ServedSocketOnPageHost | src/ui/src/utils/network.ts:75-77 | served by the server, the address is `<scheme>//<page host>/ws/<uuid>` |

## Left out

- Game commands, timers, passes, guesses and stats changes: none of the modelled files implements them, so they are not modelled.
- File I/O: JSON (de)serialisation, `mkdir`, `flush` and `fsync` are state updates here. Crash durability, file-system errors and path normalisation of session codes are not modelled.
- Faker and `random`: the i-th slug drawn is the parameter `slugAt(i)`. Choosing among the single code pattern is not modelled, since there is only one pattern.
- Sessions.SessionCode: Python's Unicode `lower()` and `isalnum()` are modelled on ASCII only. Non-ASCII letters count as neither.
- Sessions.SessionManager.PickNewWord: the word is an arbitrary available one. Uniform choice is not stated.
- Sessions.SessionManager.GenerateSessionCode: also returns how many redraws were made, which the server does not return.
- Concurrency: the async tasks of other connections run between awaits in the server. The model runs one connection alone, so the session cannot change while its messages are handled.
- The websocket transport (`accept`, `send_json`, `receive_json`, `close`, `WebSocketDisconnect`) is a socket object with an outbox. Non-JSON input, JSON input that is not an object (such as `[]` or `"ping"`) and send failures are not modelled. In the server, a non-object message makes `data.get` raise an error that the `except WebSocketDisconnect` clause does not catch, so the key and the role stay registered; the model instead reads such a message as having no type and ignores it.
- Logging (`print`, `console.log`) is not modelled.
- The HTTP routes in src/game/server.py are not modelled. This includes the missing-key 400 check and the fixed "controller" role.
- The React components are not modelled.
- `getLocalIP`'s WebRTC detection and its two-second fallback timer are not modelled. Only the host shortcut is.
- `URLSearchParams` is a map: repeated parameters, parameter order and percent-encoding are not modelled. `history.replaceState` is the returned URL.
- `loadSession`'s `try`/`catch` is not modelled, because nothing in the model can throw.
