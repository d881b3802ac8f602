/**
 * The browser-side consumer of the relay (Frontend/src/hooks/useLcuWebSocket.ts):
 * the hook's state cells, its tracked socket reference, and one method per
 * event that changes them. Sockets are identified by number; the table
 * `sockets` records each one's ready state and whether the hook's four
 * handlers (`onopen`, `onmessage`, `onclose`, `onerror`) are still attached.
 */
module LcuWebSocket {
  import opened Options
  import opened Text

  /** The values of `WebSocket.readyState`. */
  const CONNECTING: int := 0
  const OPEN: int := 1
  const CLOSING: int := 2
  const CLOSED: int := 3

  type ReadyState = x: int | 0 <= x <= 3

  type SocketId = nat

  datatype Socket = Socket(readyState: ReadyState, handlersAttached: bool) {
    /** Connecting or open, and still driving the hook's state. */
    predicate Live()
    {
      handlersAttached && readyState < CLOSING
    }

    /** `socket.close()`: a connecting or open socket starts closing; otherwise nothing happens. */
    function Close(): Socket
    {
      if readyState < CLOSING then this.(readyState := CLOSING) else this
    }

    /** Setting the four handler properties to null. */
    function Detach(): Socket
    {
      this.(handlersAttached := false)
    }
  }

  /**
   * A JSON value as `JSON.parse` produces it, plus `Undefined`: what reading
   * a field the parsed object lacks yields (distinct from null under `===`).
   */
  datatype Json =
    | Undefined
    | Null
    | Bool(b: bool)
    | Number(n: int)
    | Str(s: string)
    | Array(items: seq<Json>)
    | Object(fields: seq<(string, Json)>)

  /**
   * `stored === received` where `received` was just parsed: arrays and
   * objects are fresh references and never identical to a stored value.
   */
  predicate StrictEquals(stored: Json, received: Json)
    ensures StrictEquals(stored, received) ==> stored == received
    ensures received.Array? || received.Object? ==> !StrictEquals(stored, received)
  {
    stored == received && !received.Array? && !received.Object?
  }

  datatype EventType = Create | Update | Delete

  /**
   * A relayed client event (Frontend/src/types/lcu.ts:98-102); `data` is
   * `Undefined` when the event object has no `data` field.
   */
  datatype LcuEventMessage = LcuEventMessage(uri: string, eventType: EventType, data: Json)

  /**
   * A message from the backend, by its `type` field. `LcuEvent` carries None
   * when `data` is missing or is not an event object.
   */
  datatype BackendMessage =
    | LcuConnect
    | LcuDisconnect(error: Option<string>)
    | LcuConnectError(error: Option<string>)
    | LcuEvent(event: Option<LcuEventMessage>)
    | UnknownType

  /** A received frame: a message, or text on which `JSON.parse` or `.type` throws. */
  datatype Frame = Parsed(message: BackendMessage) | Unparsable

  datatype LcuStatus = LcuStatus(connected: bool, loading: bool, error: Option<string>, wsConnected: bool)

  const GameflowPhaseUri: string := "/lol-gameflow/v1/gameflow-phase"
  const ChampSelectSessionUri: string := "/lol-champ-select/v1/session"
  const ChampSelect: Json := Str("ChampSelect")

  const ParseErrorText: string := "Error parsing backend message"
  const SocketErrorText: string := "WebSocket connection error"
  const UnexpectedClosePrefix: string := "WebSocket closed unexpectedly (Code: "

  /** JavaScript truthiness of an optional string: present and not empty. */
  predicate Truthy(e: Option<string>)
  {
    e.Some? && e.value != ""
  }

  /** The status the hook shows while a new socket is connecting. */
  const Connecting: LcuStatus := LcuStatus(false, true, None, false)

  /** The error an `LcuDisconnect` message leaves. */
  function DisconnectError(error: Option<string>): (text: string)
    ensures Truthy(error) ==> |text| > 11 && text[..11] == "LCU Error: " && text[11..] == error.value
    ensures !Truthy(error) ==> text == "LCU Disconnected"
  {
    if Truthy(error) then "LCU Error: " + error.value else "LCU Disconnected"
  }

  /** The error a close event leaves: none after a clean close, else one naming the code. */
  function CloseError(wasClean: bool, code: nat): (e: Option<string>)
    ensures e.None? <==> wasClean
    ensures e.Some? ==> |UnexpectedClosePrefix| < |e.value| &&
                        e.value[..|UnexpectedClosePrefix|] == UnexpectedClosePrefix &&
                        e.value[|e.value| - 1] == ')'
  {
    if wasClean then None else Some(UnexpectedClosePrefix + NatToString(code) + ")")
  }

  /** The close code can be read back from the text of an unclean close. */
  lemma CloseErrorNamesCode(code: nat)
    ensures var text := CloseError(false, code).value;
            var digits := text[|UnexpectedClosePrefix|..|text| - 1];
            IsDecimal(digits) && DecimalValue(digits) == code
  {
    var text := CloseError(false, code).value;
    assert text[|UnexpectedClosePrefix|..|text| - 1] == NatToString(code);
    DecimalRoundTrip(code);
  }

  /**
   * How an `LcuEvent` moves the phase and the snapshot from (phase0, session0)
   * to (phase1, session1): a gameflow-phase event replaces a phase it is not
   * identical to, and clears the snapshot exactly when the phase leaves
   * "ChampSelect"; a champ-select session event replaces the snapshot
   * wholesale; any other event, or none, leaves both as they were.
   */
  predicate EventApplied(phase0: Json, session0: Json, event: Option<LcuEventMessage>, phase1: Json, session1: Json)
  {
    if event.Some? && event.value.uri == GameflowPhaseUri then
      var next := event.value.data;
      if StrictEquals(phase0, next) then phase1 == phase0 && session1 == session0
      else phase1 == next && session1 == (if phase0 == ChampSelect && next != ChampSelect then Null else session0)
    else if event.Some? && event.value.uri == ChampSelectSessionUri then
      phase1 == phase0 && session1 == event.value.data
    else phase1 == phase0 && session1 == session0
  }

  /** Delivering the same gameflow-phase event twice has the effect of delivering it once. */
  lemma PhaseEventIdempotent(phase0: Json, session0: Json, event: LcuEventMessage,
                             phase1: Json, session1: Json, phase2: Json, session2: Json)
    requires event.uri == GameflowPhaseUri && !event.data.Array? && !event.data.Object?
    requires EventApplied(phase0, session0, Some(event), phase1, session1)
    requires EventApplied(phase1, session1, Some(event), phase2, session2)
    ensures phase2 == phase1 == event.data && session2 == session1
  {
  }

  /** Every live socket is the tracked one. */
  predicate OnlyTrackedLive(sockets: map<SocketId, Socket>, tracked: Option<SocketId>)
  {
    forall id :: id in sockets && sockets[id].Live() ==> tracked == Some(id)
  }

  /** Under `OnlyTrackedLive`, at most one socket is live. */
  lemma AtMostOneLive(sockets: map<SocketId, Socket>, tracked: Option<SocketId>, a: SocketId, b: SocketId)
    requires OnlyTrackedLive(sockets, tracked)
    requires a in sockets && sockets[a].Live() && b in sockets && sockets[b].Live()
    ensures a == b
  {
  }

  /** The socket table after the tracked socket has its handlers removed and is closed. */
  function TornDown(sockets: map<SocketId, Socket>, tracked: Option<SocketId>): (r: map<SocketId, Socket>)
    ensures r.Keys == sockets.Keys
    ensures forall id :: id in sockets && tracked != Some(id) ==> r[id] == sockets[id]
    ensures tracked.Some? && tracked.value in sockets ==>
              !r[tracked.value].handlersAttached && r[tracked.value].readyState >= CLOSING
    ensures tracked.Some? && tracked.value in sockets && sockets[tracked.value].readyState >= CLOSING ==>
              r[tracked.value].readyState == sockets[tracked.value].readyState
  {
    if tracked.Some? && tracked.value in sockets then
      sockets[tracked.value := sockets[tracked.value].Detach().Close()]
    else sockets
  }

  /** Number of live sockets. */
  function LiveCount(sockets: map<SocketId, Socket>): nat
  {
    |set id | id in sockets && sockets[id].Live()|
  }

  class Hook {
    var status: LcuStatus
    /** `currentGameflowPhase`; Null is null, Undefined a phase event without `data`. */
    var phase: Json
    /** `champSelectSession`, kept as received; Null is null. */
    var session: Json
    /** `socketRef.current`. */
    var socketRef: Option<SocketId>
    var sockets: map<SocketId, Socket>
    var nextSocket: SocketId
    /** How many times `onLcuConnect` and `onLcuDisconnect` have been invoked. */
    var connectCalls: nat
    var disconnectCalls: nat

    ghost predicate Valid()
      reads this
    {
      (forall id :: id in sockets ==> id < nextSocket) &&
      (socketRef.Some? ==> socketRef.value in sockets && sockets[socketRef.value].handlersAttached)
    }

    /** No socket other than the tracked one is connecting or open with handlers attached. */
    predicate SingleLive()
      reads this
    {
      OnlyTrackedLive(sockets, socketRef)
    }

    /** The tracked socket is connecting or open, so `connectWebSocket` does nothing. */
    predicate Busy()
      reads this
      ensures Busy() && Valid() ==> socketRef.Some? && socketRef.value in sockets && sockets[socketRef.value].Live()
      ensures socketRef.None? ==> !Busy()
    {
      socketRef.Some? && socketRef.value in sockets && sockets[socketRef.value].readyState < CLOSING
    }

    /** Socket `s` exists and its handlers still run when it fires an event. */
    predicate Attached(s: SocketId)
      reads this
    {
      s in sockets && sockets[s].handlersAttached
    }

    /** `isConnectedToLcu`. */
    predicate IsConnectedToLcu()
      reads this
    {
      status.wsConnected && status.connected
    }

    /** The hook's initial state: nothing connected, no socket. */
    constructor ()
      ensures Valid() && SingleLive()
      ensures status == LcuStatus(false, false, None, false) && phase == Null && session == Null
      ensures socketRef == None && sockets == map[] && nextSocket == 0
      ensures connectCalls == 0 && disconnectCalls == 0
    {
      status := LcuStatus(false, false, None, false);
      phase, session := Null, Null;
      socketRef, sockets, nextSocket := None, map[], 0;
      connectCalls, disconnectCalls := 0, 0;
    }

    /** Remove the tracked socket's handlers, close it, and forget it. */
    method DetachAndClose()
      requires Valid()
      modifies this
      ensures Valid()
      ensures sockets == TornDown(old(sockets), old(socketRef)) && socketRef == None
      ensures old(SingleLive()) ==> forall id :: id in sockets ==> !sockets[id].Live()
      ensures status == old(status) && phase == old(phase) && session == old(session)
      ensures nextSocket == old(nextSocket)
      ensures connectCalls == old(connectCalls) && disconnectCalls == old(disconnectCalls)
    {
      if socketRef.Some? {
        var prev := socketRef.value;
        sockets := sockets[prev := sockets[prev].Detach().Close()];
        socketRef := None;
      }
    }

    /**
     * `connectWebSocket`: nothing while the tracked socket is connecting or
     * open; otherwise tear the previous socket down, reset the state and
     * track a new connecting socket.
     */
    method ConnectWebSocket()
      requires Valid()
      modifies this
      ensures Valid()
      ensures old(SingleLive()) ==> SingleLive()
      ensures old(Busy()) ==> unchanged(this)
      ensures !old(Busy()) ==>
                var id := old(nextSocket);
                id !in old(sockets) &&
                sockets == TornDown(old(sockets), old(socketRef))[id := Socket(CONNECTING, true)] &&
                socketRef == Some(id) && nextSocket == id + 1 &&
                status == Connecting && phase == Null && session == Null &&
                connectCalls == old(connectCalls) && disconnectCalls == old(disconnectCalls)
      ensures !old(Busy()) && old(socketRef).Some? ==>
                !sockets[old(socketRef).value].handlersAttached && sockets[old(socketRef).value].readyState >= CLOSING
    {
      if socketRef.Some? && sockets[socketRef.value].readyState < CLOSING {
        return;
      }
      DetachAndClose();
      status := Connecting;
      phase, session := Null, Null;
      var id := nextSocket;
      sockets := sockets[id := Socket(CONNECTING, true)];
      nextSocket := nextSocket + 1;
      socketRef := Some(id);
    }

    /** The connection of socket `s` is established, then `onopen` runs. */
    method SocketOpened(s: SocketId)
      requires Valid() && s in sockets && sockets[s].readyState == CONNECTING
      modifies this
      ensures Valid()
      ensures old(SingleLive()) ==> SingleLive()
      ensures sockets == old(sockets)[s := old(sockets)[s].(readyState := OPEN)]
      ensures socketRef == old(socketRef) && nextSocket == old(nextSocket)
      ensures phase == old(phase) && session == old(session)
      ensures connectCalls == old(connectCalls) && disconnectCalls == old(disconnectCalls)
      ensures status == if old(Attached(s))
                        then LcuStatus(old(status).connected, true, None, true)
                        else old(status)
    {
      var attached := sockets[s].handlersAttached;
      sockets := sockets[s := sockets[s].(readyState := OPEN)];
      if attached {
        status := status.(wsConnected := true, loading := true, error := None);
      }
    }

    /** The server starts the closing handshake of open socket `s`; no handler runs. */
    method ClosingStarted(s: SocketId)
      requires Valid() && s in sockets && sockets[s].readyState == OPEN
      modifies this
      ensures Valid()
      ensures old(SingleLive()) ==> SingleLive()
      ensures sockets == old(sockets)[s := old(sockets)[s].(readyState := CLOSING)]
      ensures socketRef == old(socketRef) && nextSocket == old(nextSocket)
      ensures status == old(status) && phase == old(phase) && session == old(session)
      ensures connectCalls == old(connectCalls) && disconnectCalls == old(disconnectCalls)
    {
      sockets := sockets[s := sockets[s].(readyState := CLOSING)];
    }

    /** `LcuConnect`: connected to the client, which implies `isConnectedToLcu`. */
    method HandleLcuConnect()
      requires Valid()
      modifies this
      ensures Valid()
      ensures status == LcuStatus(true, false, None, true) && IsConnectedToLcu()
      ensures phase == old(phase) && session == old(session)
      ensures sockets == old(sockets) && socketRef == old(socketRef) && nextSocket == old(nextSocket)
      ensures connectCalls == old(connectCalls) + 1 && disconnectCalls == old(disconnectCalls)
    {
      status := status.(connected := true, wsConnected := true, error := None, loading := false);
      connectCalls := connectCalls + 1;
    }

    /** `LcuDisconnect`: the client went away; derived game state is cleared. */
    method HandleLcuDisconnect(error: Option<string>)
      requires Valid()
      modifies this
      ensures Valid()
      ensures status == LcuStatus(false, false, Some(DisconnectError(error)), true) && !IsConnectedToLcu()
      ensures phase == Null && session == Null
      ensures sockets == old(sockets) && socketRef == old(socketRef) && nextSocket == old(nextSocket)
      ensures connectCalls == old(connectCalls) && disconnectCalls == old(disconnectCalls) + 1
    {
      status := status.(connected := false, wsConnected := true, error := Some(DisconnectError(error)), loading := false);
      phase := Null;
      session := Null;
      disconnectCalls := disconnectCalls + 1;
    }

    /** `LcuConnectError`: as `LcuDisconnect`, with the message's error kept as given. */
    method HandleLcuConnectError(error: Option<string>)
      requires Valid()
      modifies this
      ensures Valid()
      ensures status == LcuStatus(false, false, error, true) && !IsConnectedToLcu()
      ensures phase == Null && session == Null
      ensures sockets == old(sockets) && socketRef == old(socketRef) && nextSocket == old(nextSocket)
      ensures connectCalls == old(connectCalls) && disconnectCalls == old(disconnectCalls) + 1
    {
      status := status.(connected := false, wsConnected := true, error := error, loading := false);
      phase := Null;
      session := Null;
      disconnectCalls := disconnectCalls + 1;
    }

    /**
     * `LcuEvent`: a gameflow-phase event replaces a differing phase, clearing
     * the snapshot exactly when the phase leaves "ChampSelect"; a champ-select
     * session event replaces the snapshot; any other event changes nothing.
     */
    method HandleLcuEvent(event: Option<LcuEventMessage>)
      requires Valid()
      modifies this
      ensures Valid()
      ensures status == old(status)
      ensures sockets == old(sockets) && socketRef == old(socketRef) && nextSocket == old(nextSocket)
      ensures connectCalls == old(connectCalls) && disconnectCalls == old(disconnectCalls)
      ensures EventApplied(old(phase), old(session), event, phase, session)
    {
      if event.Some? && event.value.uri == GameflowPhaseUri {
        var next := event.value.data;
        if !StrictEquals(phase, next) {
          if phase == ChampSelect && !StrictEquals(ChampSelect, next) {
            session := Null;
          }
          phase := next;
        }
      } else if event.Some? && event.value.uri == ChampSelectSessionUri {
        session := event.value.data;
      }
    }

    /** A message of any other type only stops loading. */
    method HandleUnknownType()
      requires Valid()
      modifies this
      ensures Valid()
      ensures status == old(status).(loading := false)
      ensures phase == old(phase) && session == old(session)
      ensures sockets == old(sockets) && socketRef == old(socketRef) && nextSocket == old(nextSocket)
      ensures connectCalls == old(connectCalls) && disconnectCalls == old(disconnectCalls)
    {
      status := status.(loading := false);
    }

    /** A frame that does not parse stops loading and reports an error unless one is showing. */
    method HandleParseError()
      requires Valid()
      modifies this
      ensures Valid()
      ensures status == old(status).(loading := false,
                                     error := if Truthy(old(status).error) then old(status).error else Some(ParseErrorText))
      ensures phase == old(phase) && session == old(session)
      ensures sockets == old(sockets) && socketRef == old(socketRef) && nextSocket == old(nextSocket)
      ensures connectCalls == old(connectCalls) && disconnectCalls == old(disconnectCalls)
    {
      var e := if Truthy(status.error) then status.error else Some(ParseErrorText);
      status := status.(loading := false, error := e);
    }

    /**
     * `onmessage` of open socket `s`: dispatch on the frame when the handlers
     * are attached. Messages never touch the socket table or the tracked socket.
     */
    method OnMessage(s: SocketId, frame: Frame)
      requires Valid() && s in sockets && sockets[s].readyState == OPEN
      modifies this
      ensures Valid()
      ensures old(SingleLive()) ==> SingleLive()
      ensures sockets == old(sockets) && socketRef == old(socketRef) && nextSocket == old(nextSocket)
      ensures !old(Attached(s)) ==> unchanged(this)
      ensures old(Attached(s)) && frame == Parsed(LcuConnect) ==>
                status == LcuStatus(true, false, None, true) && IsConnectedToLcu() &&
                phase == old(phase) && session == old(session) &&
                connectCalls == old(connectCalls) + 1 && disconnectCalls == old(disconnectCalls)
      ensures old(Attached(s)) && frame.Parsed? && frame.message.LcuDisconnect? ==>
                status == LcuStatus(false, false, Some(DisconnectError(frame.message.error)), true) &&
                phase == Null && session == Null &&
                connectCalls == old(connectCalls) && disconnectCalls == old(disconnectCalls) + 1
      ensures old(Attached(s)) && frame.Parsed? && frame.message.LcuConnectError? ==>
                status == LcuStatus(false, false, frame.message.error, true) &&
                phase == Null && session == Null &&
                connectCalls == old(connectCalls) && disconnectCalls == old(disconnectCalls) + 1
      ensures old(Attached(s)) && frame.Parsed? && frame.message.LcuEvent? ==>
                status == old(status) && EventApplied(old(phase), old(session), frame.message.event, phase, session) &&
                connectCalls == old(connectCalls) && disconnectCalls == old(disconnectCalls)
      ensures old(Attached(s)) && frame == Parsed(UnknownType) ==>
                status == old(status).(loading := false) &&
                phase == old(phase) && session == old(session) &&
                connectCalls == old(connectCalls) && disconnectCalls == old(disconnectCalls)
      ensures old(Attached(s)) && frame.Unparsable? ==>
                status == old(status).(loading := false,
                                       error := if Truthy(old(status).error) then old(status).error else Some(ParseErrorText)) &&
                phase == old(phase) && session == old(session) &&
                connectCalls == old(connectCalls) && disconnectCalls == old(disconnectCalls)
    {
      if !sockets[s].handlersAttached {
        return;
      }
      match frame {
        case Unparsable => HandleParseError();
        case Parsed(message) =>
          match message {
            case LcuConnect => HandleLcuConnect();
            case LcuDisconnect(error) => HandleLcuDisconnect(error);
            case LcuConnectError(error) => HandleLcuConnectError(error);
            case LcuEvent(event) => HandleLcuEvent(event);
            case UnknownType => HandleUnknownType();
          }
      }
    }

    /**
     * Socket `s` is closed, then `onclose` runs: the tracked reference is
     * cleared only if it is `s`, the status is reset, and derived game state
     * is cleared.
     */
    method SocketClosed(s: SocketId, wasClean: bool, code: nat)
      requires Valid() && s in sockets && sockets[s].readyState != CLOSED
      modifies this
      ensures Valid()
      ensures old(SingleLive()) ==> SingleLive()
      ensures sockets == old(sockets)[s := old(sockets)[s].(readyState := CLOSED)]
      ensures nextSocket == old(nextSocket)
      ensures old(Attached(s)) ==>
                socketRef == (if old(socketRef) == Some(s) then None else old(socketRef)) &&
                status == LcuStatus(false, false, CloseError(wasClean, code), false) &&
                phase == Null && session == Null &&
                connectCalls == old(connectCalls) && disconnectCalls == old(disconnectCalls) + 1
      ensures !old(Attached(s)) ==>
                socketRef == old(socketRef) && status == old(status) && phase == old(phase) && session == old(session) &&
                connectCalls == old(connectCalls) && disconnectCalls == old(disconnectCalls)
    {
      var attached := sockets[s].handlersAttached;
      sockets := sockets[s := sockets[s].(readyState := CLOSED)];
      if attached {
        if socketRef == Some(s) {
          socketRef := None;
        }
        status := LcuStatus(false, false, CloseError(wasClean, code), false);
        phase := Null;
        session := Null;
        disconnectCalls := disconnectCalls + 1;
      }
    }

    /** `onerror` of socket `s`: stop loading and report an error unless one is showing. */
    method OnError(s: SocketId)
      requires Valid() && s in sockets
      modifies this
      ensures Valid()
      ensures old(SingleLive()) ==> SingleLive()
      ensures sockets == old(sockets) && socketRef == old(socketRef) && nextSocket == old(nextSocket)
      ensures phase == old(phase) && session == old(session)
      ensures connectCalls == old(connectCalls) && disconnectCalls == old(disconnectCalls)
      ensures status == if old(Attached(s))
                        then old(status).(loading := false,
                                          error := if Truthy(old(status).error) then old(status).error else Some(SocketErrorText))
                        else old(status)
    {
      if sockets[s].handlersAttached {
        var e := if Truthy(status.error) then status.error else Some(SocketErrorText);
        status := status.(error := e, loading := false);
      }
    }

    /**
     * The unmount cleanup as written: close the tracked socket only if it is
     * open, leave its handlers attached, and forget it.
     */
    method UnmountAsWritten()
      requires Valid()
      modifies this
      ensures Valid()
      ensures socketRef == None
      ensures sockets == if old(socketRef).Some? && old(sockets)[old(socketRef).value].readyState == OPEN
                         then old(sockets)[old(socketRef).value := old(sockets)[old(socketRef).value].Close()]
                         else old(sockets)
      ensures status == old(status) && phase == old(phase) && session == old(session)
      ensures nextSocket == old(nextSocket)
      ensures connectCalls == old(connectCalls) && disconnectCalls == old(disconnectCalls)
    {
      if socketRef.Some? && sockets[socketRef.value].readyState == OPEN {
        var id := socketRef.value;
        sockets := sockets[id := sockets[id].Close()];
      }
      socketRef := None;
    }

    /**
     * The unmount cleanup with the teardown `connectWebSocket` uses: the
     * tracked socket, connecting or open, loses its handlers and is closed,
     * so no socket is left live.
     */
    method Unmount()
      requires Valid()
      modifies this
      ensures Valid()
      ensures socketRef == None && sockets == TornDown(old(sockets), old(socketRef))
      ensures old(SingleLive()) ==> forall id :: id in sockets ==> !sockets[id].Live()
      ensures status == old(status) && phase == old(phase) && session == old(session)
      ensures nextSocket == old(nextSocket)
      ensures connectCalls == old(connectCalls) && disconnectCalls == old(disconnectCalls)
    {
      DetachAndClose();
    }
  }
}
