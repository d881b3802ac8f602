/**
 * Event sequences driven through the hook model, each with the outcome its
 * contracts determine.
 */
module HookScenarios {
  import opened Options
  import opened LcuWebSocket

  /** Calling `connectWebSocket` again while the first socket is connecting creates nothing. */
  method ConnectTwice() returns (created: nat, live: nat)
    ensures created == 1 && live == 1
  {
    var h := new Hook();
    h.ConnectWebSocket();
    h.ConnectWebSocket();
    created := |h.sockets|;
    assert h.sockets == map[0 := Socket(CONNECTING, true)];
    assert (set id | id in h.sockets && h.sockets[id].Live()) == {0};
    live := LiveCount(h.sockets);
  }

  /**
   * A mount, its cleanup before the socket has opened, and a second mount
   * (as React's development mode runs effects), with the cleanup as written:
   * the first socket is still connecting with its handlers attached.
   */
  method RemountAsWritten() returns (live: nat)
    ensures live == 2
  {
    var h := new Hook();
    h.ConnectWebSocket();
    h.UnmountAsWritten();
    h.ConnectWebSocket();
    assert h.sockets == map[0 := Socket(CONNECTING, true), 1 := Socket(CONNECTING, true)];
    assert (set id | id in h.sockets && h.sockets[id].Live()) == {0, 1};
    live := LiveCount(h.sockets);
  }

  /** The same sequence with the corrected cleanup leaves only the new socket live. */
  method Remount() returns (live: nat)
    ensures live == 1
  {
    var h := new Hook();
    h.ConnectWebSocket();
    h.Unmount();
    h.ConnectWebSocket();
    assert h.sockets == map[0 := Socket(CLOSING, false), 1 := Socket(CONNECTING, true)];
    assert (set id | id in h.sockets && h.sockets[id].Live()) == {1};
    live := LiveCount(h.sockets);
  }

  /**
   * With the cleanup as written, the leftover socket's late close still
   * resets the status shown for the newer socket, although the identity
   * check keeps the newer socket tracked.
   */
  method StaleCloseAsWritten() returns (tracked: Option<SocketId>, wsConnected: bool)
    ensures tracked == Some(1) && !wsConnected
  {
    var h := new Hook();
    h.ConnectWebSocket();
    h.UnmountAsWritten();
    h.ConnectWebSocket();
    h.SocketOpened(1);
    h.SocketClosed(0, false, 1006);
    tracked, wsConnected := h.socketRef, h.status.wsConnected;
  }

  /**
   * The server closes the open socket, and `connectWebSocket` runs while it is
   * still closing: the guard lets it through, the closing socket loses its
   * handlers, and its final close no longer touches the state of the new one.
   */
  method ReconnectWhileClosing() returns (tracked: Option<SocketId>, previous: Socket, status: LcuStatus)
    ensures tracked == Some(1) && previous == Socket(CLOSED, false) && status == Connecting
  {
    var h := new Hook();
    h.ConnectWebSocket();
    h.SocketOpened(0);
    h.ClosingStarted(0);
    h.ConnectWebSocket();
    h.SocketClosed(0, false, 1006);
    tracked, previous, status := h.socketRef, h.sockets[0], h.status;
  }

  /**
   * The phase becomes "ChampSelect", a session snapshot arrives, and the phase
   * moves on to "InProgress", which clears the snapshot; repeating the last
   * phase event changes nothing.
   */
  method ChampSelectThenInProgress(snapshot: Json) returns (during: Json, phase: Json, session: Json)
    requires snapshot != Null
    ensures during == snapshot
    ensures phase == Str("InProgress") && session == Null
  {
    var h := new Hook();
    h.ConnectWebSocket();
    h.SocketOpened(0);
    h.OnMessage(0, Parsed(LcuConnect));
    h.OnMessage(0, Parsed(LcuEvent(Some(LcuEventMessage(GameflowPhaseUri, Update, Str("ChampSelect"))))));
    h.OnMessage(0, Parsed(LcuEvent(Some(LcuEventMessage(ChampSelectSessionUri, Update, snapshot)))));
    during := h.session;
    h.OnMessage(0, Parsed(LcuEvent(Some(LcuEventMessage(GameflowPhaseUri, Update, Str("InProgress"))))));
    h.OnMessage(0, Parsed(LcuEvent(Some(LcuEventMessage(GameflowPhaseUri, Update, Str("InProgress"))))));
    phase, session := h.phase, h.session;
  }
}
