/**
 * The connection registry and message dispatch of the game server (the
 * `WebSocketManager` class of src/game/websocket_manager.py).
 *
 * A websocket is modelled by what the server does to it: it is accepted, JSON
 * messages are appended to its outbox, and it is closed. The messages a client
 * sends are given as a sequence; reaching its end is the client disconnecting.
 */
module Connections {
  import opened Wrappers
  import opened Lists
  import Sessions

  const ServerNotInitialized := "Server not initialized"
  const SessionNotFound := "Session not found"
  const TestSuccessful := "Connection test successful"

  /** The JSON messages the server sends. */
  datatype Outbound =
    | ErrorReply(error: string)                                   // {"error": ...}
    | Pong                                                        // {"type": "pong"}
    | SessionState(session: Sessions.SessionData)                 // {"type": "session_state", "session": ...}
    | TestResponse(message: string, clientType: string, sessionUuid: string)  // {"type": "test_response", ...}

  /**
   * The "type" field of an inbound JSON object, when it has one that is a
   * string. Messages that are not JSON objects are outside the model.
   */
  type Inbound = Option<string>

  class Socket {
    var accepted: bool
    var closed: bool
    /** Every message sent on this socket, in order. */
    var sent: seq<Outbound>

    constructor ()
      ensures !accepted && !closed && sent == []
    {
      accepted, closed, sent := false, false, [];
    }

    method Accept()
      modifies this`accepted
      ensures accepted
    {
      accepted := true;
    }

    method SendJson(m: Outbound)
      modifies this`sent
      ensures sent == old(sent) + [m]
    {
      sent := sent + [m];
    }

    method Close()
      modifies this`closed
      ensures closed
    {
      closed := true;
    }
  }

  /** The registry key of a client of role `clientType` in session `sessionUuid`. */
  function ConnectionId(sessionUuid: string, clientType: string): (id: string)
    ensures |id| == |sessionUuid| + 1 + |clientType|
    ensures id[..|sessionUuid|] == sessionUuid && id[|sessionUuid|] == '_' && id[|sessionUuid| + 1..] == clientType
  {
    sessionUuid + "_" + clientType
  }

  /**
   * Distinct (session, role) pairs get distinct keys as long as session codes
   * contain no '_' (which generated codes never do).
   */
  lemma ConnectionIdInjective(u1: string, r1: string, u2: string, r2: string)
    requires '_' !in u1 && '_' !in u2
    requires ConnectionId(u1, r1) == ConnectionId(u2, r2)
    ensures u1 == u2 && r1 == r2
  {
  }

  /** Without that restriction keys collide: session "a_b" role "c" and session "a" role "b_c". */
  lemma ConnectionIdCollision()
    ensures ConnectionId("a_b", "c") == ConnectionId("a", "b_c")
  {
  }

  /**
   * The reply to one inbound message of a client of role `clientType` in the
   * live session `session`: exactly ping, get_state and test_connection are
   * answered, and every other message is ignored.
   */
  function Reply(msgType: Inbound, session: Sessions.SessionData, sessionUuid: string, clientType: string)
    : (r: Option<Outbound>)
    ensures r.Some? <==>
      msgType == Some("ping") || msgType == Some("get_state") || msgType == Some("test_connection")
    ensures msgType == Some("ping") ==> r == Some(Pong)
    ensures msgType == Some("get_state") ==> r == Some(SessionState(session))
    ensures msgType == Some("test_connection") ==> r == Some(TestResponse(TestSuccessful, clientType, sessionUuid))
    ensures r.Some? ==> !r.value.ErrorReply?
  {
    match msgType
    case Some("ping") => Some(Pong)
    case Some("get_state") => Some(SessionState(session))
    case Some("test_connection") => Some(TestResponse(TestSuccessful, clientType, sessionUuid))
    case _ => None
  }

  /** The replies to a run of inbound messages while the session stays live. */
  function Replies(inbox: seq<Inbound>, session: Sessions.SessionData, sessionUuid: string, clientType: string)
    : (r: seq<Outbound>)
    ensures |r| <= |inbox|
    ensures forall k :: 0 <= k < |r| ==> !r[k].ErrorReply?
  {
    if inbox == [] then []
    else
      var last := Reply(inbox[|inbox| - 1], session, sessionUuid, clientType);
      Replies(inbox[..|inbox| - 1], session, sessionUuid, clientType) + (if last.Some? then [last.value] else [])
  }

  /** Unrecognised messages produce no reply, and recognised ones exactly one each. */
  lemma {:induction false} RepliesBound(inbox: seq<Inbound>, session: Sessions.SessionData, sessionUuid: string, clientType: string)
    ensures (forall i :: 0 <= i < |inbox| ==> Reply(inbox[i], session, sessionUuid, clientType).None?) ==>
      Replies(inbox, session, sessionUuid, clientType) == []
    ensures (forall i :: 0 <= i < |inbox| ==> Reply(inbox[i], session, sessionUuid, clientType).Some?) ==>
      |Replies(inbox, session, sessionUuid, clientType)| == |inbox|
  {
    if inbox != [] {
      var front := inbox[..|inbox| - 1];
      assert forall i :: 0 <= i < |front| ==> front[i] == inbox[i];
      RepliesBound(front, session, sessionUuid, clientType);
    }
  }

  /** Replies to consecutive runs of messages are sent one run after another. */
  lemma {:induction false} RepliesAppend(a: seq<Inbound>, b: seq<Inbound>, session: Sessions.SessionData, sessionUuid: string, clientType: string)
    ensures Replies(a + b, session, sessionUuid, clientType) ==
      Replies(a, session, sessionUuid, clientType) + Replies(b, session, sessionUuid, clientType)
  {
    if b == [] {
      assert a + b == a;
    } else {
      var front := b[..|b| - 1];
      assert (a + b)[..|a + b| - 1] == a + front;
      assert (a + b)[|a + b| - 1] == b[|b| - 1];
      RepliesAppend(a, front, session, sessionUuid, clientType);
    }
  }

  /** The record of a live session once role `clientType` has attached to it. */
  function Attached(session: Sessions.SessionData, clientType: string): (d: Sessions.SessionData)
    ensures clientType in d.connectedClients
    ensures d == session.(connectedClients := d.connectedClients)
    ensures clientType in session.connectedClients ==> d == session
    ensures clientType !in session.connectedClients ==> d.connectedClients == session.connectedClients + [clientType]
    ensures NoDuplicates(session.connectedClients) ==> NoDuplicates(d.connectedClients)
  {
    assert NoDuplicates(session.connectedClients) ==>
      NoDuplicates(AddIfAbsent(session.connectedClients, clientType)) by {
      if NoDuplicates(session.connectedClients) {
        AddIfAbsentKeepsNoDuplicates(session.connectedClients, clientType);
      }
    }
    session.(connectedClients := AddIfAbsent(session.connectedClients, clientType))
  }

  /** Attaching and then detaching a role that was not connected leaves the role list as it was. */
  lemma AttachThenDetach(session: Sessions.SessionData, clientType: string)
    requires clientType !in session.connectedClients
    ensures RemoveFirst(Attached(session, clientType).connectedClients, clientType) == session.connectedClients
  {
    RemoveFirstUndoesAdd(session.connectedClients, clientType);
  }

  /** Removing a key just stored forgets whatever the key held before. */
  lemma StoreThenRemove<K, V>(m: map<K, V>, k: K, v: V)
    ensures m[k := v] - {k} == m - {k}
  {
    assert (m[k := v] - {k}).Keys == (m - {k}).Keys;
  }

  class WebSocketManager {
    var connections: map<string, Socket>
    var sessionManager: Sessions.SessionManager?

    constructor ()
      ensures connections == map[] && sessionManager == null
    {
      connections := map[];
      sessionManager := null;
    }

    method SetSessionManager(manager: Sessions.SessionManager)
      modifies this`sessionManager
      ensures sessionManager == manager
    {
      sessionManager := manager;
    }

    /** The session record a connection to `sessionUuid` would attach to, when there is one. */
    function Target(sessionUuid: string): set<Sessions.Session>
      reads this, sessionManager
    {
      if sessionManager != null && sessionUuid in sessionManager.activeSessions
      then {sessionManager.activeSessions[sessionUuid]} else {}
    }

    /** `_send_session_state`: sends the snapshot of `session` on `ws`. */
    method SendSessionState(ws: Socket, session: Sessions.Session)
      modifies ws`sent
      ensures ws.sent == old(ws.sent) + [SessionState(session.Snapshot())]
    {
      ws.SendJson(SessionState(session.Snapshot()));
    }

    /**
     * The first half of `connect`: accepts the socket, and either rejects it
     * (the server has no session manager, or the session is unknown: one error
     * message, the socket closed, nothing stored) or registers it under its
     * (session, role) key, replacing any socket stored there, records the role
     * in the session if absent, and sends the session snapshot.
     */
    method Attach(ws: Socket, sessionUuid: string, clientType: string) returns (session: Sessions.Session?)
      modifies this`connections, ws, Target(sessionUuid)
      ensures ws.accepted
      ensures sessionManager == null ==>
        session == null && ws.closed && connections == old(connections) &&
        ws.sent == old(ws.sent) + [ErrorReply(ServerNotInitialized)]
      ensures sessionManager != null && sessionUuid !in sessionManager.activeSessions ==>
        session == null && ws.closed && connections == old(connections) &&
        ws.sent == old(ws.sent) + [ErrorReply(SessionNotFound)]
      ensures sessionManager != null && sessionUuid in sessionManager.activeSessions ==>
        && session == sessionManager.activeSessions[sessionUuid]
        && session.Snapshot() == Attached(old(session.Snapshot()), clientType)
        && connections == old(connections)[ConnectionId(sessionUuid, clientType) := ws]
        && ws.closed == old(ws.closed)
        && ws.sent == old(ws.sent) + [SessionState(session.Snapshot())]
    {
      ws.Accept();
      if sessionManager == null {
        ws.SendJson(ErrorReply(ServerNotInitialized));
        ws.Close();
        return null;
      }
      var found := sessionManager.GetSession(sessionUuid);
      if found.None? {
        ws.SendJson(ErrorReply(SessionNotFound));
        ws.Close();
        return null;
      }
      session := found.value;
      connections := connections[ConnectionId(sessionUuid, clientType) := ws];
      if clientType !in session.connectedClients {
        session.connectedClients := session.connectedClients + [clientType];
      }
      SendSessionState(ws, session);
    }

    /**
     * `_handle_messages`: answers each inbound message while the session is
     * live. If the session has gone when a message arrives, one "Session not
     * found" error is sent and the loop stops (returning false); reaching the
     * end of the inbox is the client disconnecting (returning true).
     */
    method HandleMessages(ws: Socket, sessionUuid: string, clientType: string, inbox: seq<Inbound>)
      returns (disconnected: bool)
      requires sessionManager != null
      modifies ws`sent
      ensures sessionUuid in sessionManager.activeSessions ==>
        (disconnected && ws.sent == old(ws.sent) +
          Replies(inbox, sessionManager.activeSessions[sessionUuid].Snapshot(), sessionUuid, clientType))
      ensures sessionUuid !in sessionManager.activeSessions ==>
        disconnected == (inbox == []) &&
        ws.sent == old(ws.sent) + (if inbox == [] then [] else [ErrorReply(SessionNotFound)])
    {
      var i := 0;
      while i < |inbox|
        invariant 0 <= i <= |inbox|
        invariant sessionUuid in sessionManager.activeSessions ==>
          (ws.sent == old(ws.sent) +
           Replies(inbox[..i], sessionManager.activeSessions[sessionUuid].Snapshot(), sessionUuid, clientType))
        invariant sessionUuid !in sessionManager.activeSessions ==> i == 0 && ws.sent == old(ws.sent)
      {
        var session := sessionManager.GetSession(sessionUuid);
        if session.None? {
          ws.SendJson(ErrorReply(SessionNotFound));
          return false;
        }
        assert inbox[..i + 1][..i] == inbox[..i];
        var reply := Reply(inbox[i], session.value.Snapshot(), sessionUuid, clientType);
        if reply.Some? {
          ws.SendJson(reply.value);
        }
        i := i + 1;
      }
      assert inbox[..i] == inbox;
      disconnected := true;
    }

    /**
     * `_disconnect`: removes the key if present and the role from the
     * session's list if present; otherwise nothing changes.
     */
    method Disconnect(connectionId: string, session: Sessions.Session, clientType: string)
      modifies this`connections, session`connectedClients
      ensures connections == old(connections) - {connectionId}
      ensures session.connectedClients == RemoveFirst(old(session.connectedClients), clientType)
    {
      if connectionId in connections {
        connections := connections - {connectionId};
      }
      if clientType in session.connectedClients {
        session.connectedClients := RemoveFirst(session.connectedClients, clientType);
      }
    }

    /**
     * The second half of `connect`, for a client attached to a live session:
     * answers its messages until it disconnects, then unregisters it.
     */
    method Serve(ws: Socket, session: Sessions.Session, sessionUuid: string, clientType: string, inbox: seq<Inbound>)
      requires sessionManager != null && sessionUuid in sessionManager.activeSessions
      requires session == sessionManager.activeSessions[sessionUuid]
      modifies this`connections, ws`sent, session`connectedClients
      ensures ws.sent == old(ws.sent) + Replies(inbox, old(session.Snapshot()), sessionUuid, clientType)
      ensures connections == old(connections) - {ConnectionId(sessionUuid, clientType)}
      ensures session.Snapshot() ==
        old(session.Snapshot()).(connectedClients := RemoveFirst(old(session.connectedClients), clientType))
    {
      var disconnected := HandleMessages(ws, sessionUuid, clientType, inbox);
      if disconnected {
        Disconnect(ConnectionId(sessionUuid, clientType), session, clientType);
      }
    }

    /**
     * `connect`: attaches the socket, serves the client's messages, and on
     * disconnect unregisters it. The key is removed whatever socket it holds
     * by then, and the role is removed from the session even if another
     * connection of the same role is still open.
     */
    method Connect(ws: Socket, sessionUuid: string, clientType: string, inbox: seq<Inbound>)
      modifies this`connections, ws, Target(sessionUuid)
      ensures ws.accepted
      ensures if sessionManager == null then
          && ws.closed && connections == old(connections)
          && ws.sent == old(ws.sent) + [ErrorReply(ServerNotInitialized)]
        else if sessionUuid !in sessionManager.activeSessions then
          && ws.closed && connections == old(connections)
          && ws.sent == old(ws.sent) + [ErrorReply(SessionNotFound)]
        else
          var session := sessionManager.activeSessions[sessionUuid];
          var live := Attached(old(session.Snapshot()), clientType);
          && ws.closed == old(ws.closed)
          && ws.sent == old(ws.sent) + [SessionState(live)] + Replies(inbox, live, sessionUuid, clientType)
          && connections == old(connections) - {ConnectionId(sessionUuid, clientType)}
          && session.Snapshot() == live.(connectedClients := RemoveFirst(live.connectedClients, clientType))
    {
      var session := Attach(ws, sessionUuid, clientType);
      if session == null {
        return;
      }
      ghost var live := session.Snapshot();
      assert live == Attached(old(session.Snapshot()), clientType);
      StoreThenRemove(old(connections), ConnectionId(sessionUuid, clientType), ws);
      Serve(ws, session, sessionUuid, clientType, inbox);
      assert session.Snapshot() == live.(connectedClients := RemoveFirst(live.connectedClients, clientType));
    }
  }
}
