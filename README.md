# LCU relay core in Dafny

A model of the two pieces of logic in the relay between a browser overlay and
the League client's local API (the "LCU"):

- **Credential discovery** (`Backend/src/lcuReader.ts`). The client writes a
  lockfile `pid:processName:port:token:protocol`. `readCredentials` finds the
  file for the platform, splits its text on `:`, takes parts 2 and 3 as port
  and token, and rejects text with fewer than four parts or with an empty
  port or token. It then builds `baseUrl = "https://127.0.0.1:" + port` and
  `authHeader = "Basic " + base64(utf8("riot:" + token))`. The model is a set
  of pure functions (`LcuReader`). They are built on exact models of
  JavaScript's `split`/`join` for one separator (`Text`), UTF-8 (`Utf8`),
  base 64 per section 4 of RFC 4648 (`Base64`) and the Basic scheme of
  section 2 of RFC 7617 (`BasicAuth`). Every encoding has a decoder as its
  partner, and the lemmas prove the round trips. As a result, the header
  provably decodes back to `("riot", token)`.
- **Consumer-side reconciliation** (`Frontend/src/hooks/useLcuWebSocket.ts`).
  The hook's state is a class, `LcuWebSocket.Hook`, with these fields:
  - the status `{connected, loading, error, wsConnected}`;
  - the gameflow phase and the champ-select snapshot, both JSON values where
    `Null` is null;
  - the tracked socket reference;
  - a table of sockets, each with its `readyState` (0 to 3) and whether the
    hook's four handlers are still attached;
  - counters for the `onLcuConnect` and `onLcuDisconnect` callbacks.

  Each event is one method: `connectWebSocket`, the socket opening,
  `onmessage` for every message kind and for a parse failure, `onclose`,
  `onerror`, and the unmount cleanup. Each method states the whole new state.
  Every method except the as-written cleanup preserves "no socket other than
  the tracked one is connecting or open with handlers attached" (`SingleLive`).

The platform string and the file contents are inputs. The file read is a
function parameter (`readFile`) returning None for any read failure.
Browser transport events (the connection opening, the server starting to
close, the close) are methods whose `requires` state the browser's own
event order. A socket opens only while connecting, messages arrive only
while it is open, and a close happens once.

In these places the model follows the code of `useLcuWebSocket.ts`, not what
the message names or the comments suggest:
- an unknown message type stops `loading` (line 135);
- `LcuConnect` ignores any port in the message (lines 78-92);
- `onerror` replaces a falsy error with "WebSocket connection error"
  (line 169);
- the snapshot can be non-null outside "ChampSelect", because a champ-select
  event is accepted in any phase (lines 126-128);
- a phase event without `data` sets the phase to `undefined`, which is not
  identical to null (lines 115-117).

## Model

| member | source | states |
|---|---|---|
| `Text.Split` | Backend/src/lcuReader.ts:35 | `content.split(':')`: the runs between separators in order, empty runs kept, so there is always at least one part |
| `Text.SplitLength` | Backend/src/lcuReader.ts:35-36 | `split(':')` yields exactly one more part than there are colons, so fewer than four parts means fewer than three colons |
| `Text.SplitPartsFree` | Backend/src/lcuReader.ts:35 | no part of a split contains the separator |
| `Text.SplitOfFree` | Backend/src/lcuReader.ts:35 | a string without the separator splits into itself alone |
| `Text.SplitAtFirst` | Backend/src/lcuReader.ts:35 | a separator-free head before the first separator becomes the first part and the rest splits on its own |
| `Text.JoinSplit` | Backend/src/lcuReader.ts:35 | joining the parts of a split with the separator gives back the original text, empty parts included |
| `Text.SplitJoin` | Backend/src/lcuReader.ts:35 | splitting a join of one or more separator-free fields gives back exactly those fields |
| `Text.NatToString` | Frontend/src/hooks/useLcuWebSocket.ts:150 | `${code}` renders a non-empty decimal numeral with no leading zero |
| `Text.DecimalRoundTrip` | Frontend/src/hooks/useLcuWebSocket.ts:150 | the rendered numeral reads back as the same number |
| `Utf8.Encode` | Backend/src/lcuReader.ts:44 | `Buffer.from` of a string: every character takes one to four bytes, so the byte count lies between the length and four times it |
| `Utf8.EncodeChar` | Backend/src/lcuReader.ts:44 | each character takes one to four bytes, and an ASCII character is its own byte |
| `Utf8.DecodeEncodeChar` | Backend/src/lcuReader.ts:44 | the bytes of one character decode to that character whatever bytes follow |
| `Utf8.DecodeEncode` | Backend/src/lcuReader.ts:44 | decoding the UTF-8 bytes of any string gives the string back |
| `Utf8.EncodeAppend` | Backend/src/lcuReader.ts:44 | the encoding of a concatenation is the concatenation of the encodings |
| `Base64.Digit` | Backend/src/lcuReader.ts:44 | each six-bit value maps to a character of the RFC 4648 alphabet that maps back to the same value |
| `Base64.DigitValue` | Backend/src/lcuReader.ts:44 | a character has a value exactly when it is in the alphabet, and that value is below 64 |
| `Base64.Encode` | Backend/src/lcuReader.ts:44 | `n` bytes encode to `4 * ceil(n / 3)` characters, each from the alphabet or `=` |
| `Base64.DecodeEncode` | Backend/src/lcuReader.ts:44 | decoding the encoding of any byte sequence gives the bytes back |
| `Base64.DecodeQuantum` | Backend/src/lcuReader.ts:44 | a quantum decodes to one to three bytes, and fewer than three only when it is the last |
| `BasicAuth.Header` | Backend/src/lcuReader.ts:44 | the header value starts with the scheme `Basic ` |
| `BasicAuth.HeaderRoundTrip` | Backend/src/lcuReader.ts:44 | for a colon-free user-id, the header parses back to exactly that user-id and password |
| `BasicAuth.HeaderDeterminesPassword` | Backend/src/lcuReader.ts:44 | for a fixed colon-free user-id, two headers are equal exactly when the passwords are |
| `LcuReader.LockfilePath` | Backend/src/lcuReader.ts:14-23 | a path exists exactly for `win32` and `darwin`, and the macOS path is the fixed string |
| `LcuReader.WindowsLockfilePath` | Backend/src/lcuReader.ts:17 | the Windows path is the five fixed segments joined with `\`, and splits back into exactly them |
| `LcuReader.BaseUrl` | Backend/src/lcuReader.ts:42 | for a colon-free port the URL splits on `:` into `https`, `//127.0.0.1` and the port |
| `LcuReader.ParseLockfile` | Backend/src/lcuReader.ts:35-47 | fewer than three colons gives None; on success port and token are non-empty and colon-free, the URL carries the port, and the header decodes to `("riot", token)` |
| `LcuReader.ParseFields` | Backend/src/lcuReader.ts:35-47 | parsing succeeds exactly when there are at least four parts and parts 2 and 3 are non-empty, and then returns those parts with the derived URL and header |
| `LcuReader.ParseJoin` | Backend/src/lcuReader.ts:35-47 | colon-joined fields (four or more) parse to fields 2 and 3, or to None when either is empty |
| `LcuReader.ParseRoundTrip` | Backend/src/lcuReader.ts:35-47 | for colon-free fields with non-empty port and token, `pid:name:port:token:protocol` parses to that port and token |
| `LcuReader.ParseIgnoresOtherFields` | Backend/src/lcuReader.ts:38-39 | two lockfiles agreeing on fields 2 and 3 parse to the same result, whatever their other fields |
| `LcuReader.ReadCredentials` | Backend/src/lcuReader.ts:26-55 | an unsupported platform gives None; credentials come back exactly when the path exists, the read succeeds and the content parses, and they are then the parse of that content, so every property of `ParseLockfile` holds of them |
| `LcuWebSocket.StrictEquals` | Frontend/src/hooks/useLcuWebSocket.ts:117 | `===` between a stored value and a freshly parsed one: identical values are equal, and a parsed array or object is never identical to anything |
| `LcuWebSocket.Truthy` | Frontend/src/hooks/useLcuWebSocket.ts:96 | JavaScript truthiness of an optional string, as tested at lines 96, 140 and 169: present and non-empty |
| `LcuWebSocket.DisconnectError` | Frontend/src/hooks/useLcuWebSocket.ts:96 | a truthy error gives `LCU Error: ` followed by it, anything else gives `LCU Disconnected` |
| `LcuWebSocket.CloseError` | Frontend/src/hooks/useLcuWebSocket.ts:150 | the close error is absent exactly when the close was clean, and otherwise is the `WebSocket closed unexpectedly (Code: …)` text |
| `LcuWebSocket.CloseErrorNamesCode` | Frontend/src/hooks/useLcuWebSocket.ts:150 | the code between the prefix and `)` reads back as the close code |
| `LcuWebSocket.PhaseEventIdempotent` | Frontend/src/hooks/useLcuWebSocket.ts:113-125 | delivering the same non-object phase event twice leaves phase and snapshot as one delivery does |
| `LcuWebSocket.AtMostOneLive` | Frontend/src/hooks/useLcuWebSocket.ts:35-60 | when only the tracked socket may be live, at most one socket is live |
| `LcuWebSocket.TornDown` | Frontend/src/hooks/useLcuWebSocket.ts:40-49 | teardown leaves the tracked socket without handlers and CLOSING or CLOSED, a socket already closing or closed keeps its state, and every other socket is as it was |
| `LcuWebSocket.Hook.Busy` | Frontend/src/hooks/useLcuWebSocket.ts:35 | the guard of `connectWebSocket`: false without a tracked socket, and when it holds the tracked socket is live |
| `LcuWebSocket.Hook.IsConnectedToLcu` | Frontend/src/hooks/useLcuWebSocket.ts:201 | `isConnectedToLcu`: the socket to the relay is up and the relay is connected to the client |
| `LcuWebSocket.Hook.constructor` | Frontend/src/hooks/useLcuWebSocket.ts:25-30 | initial status all false with no error, phase and snapshot null, no socket |
| `LcuWebSocket.Hook.DetachAndClose` | Frontend/src/hooks/useLcuWebSocket.ts:40-49 | the tracked socket loses its handlers, is closed and is forgotten; nothing else changes |
| `LcuWebSocket.Hook.ConnectWebSocket` | Frontend/src/hooks/useLcuWebSocket.ts:33-60 | nothing changes while the tracked socket is connecting or open; otherwise the old socket is detached and closed, a fresh socket is tracked, the status is `{false, true, none, false}`, phase and snapshot are null, and `SingleLive` is kept |
| `LcuWebSocket.Hook.SocketOpened` | Frontend/src/hooks/useLcuWebSocket.ts:64-68 | the socket becomes open; with handlers attached `wsConnected` and `loading` become true and the error is cleared, and `connected`, phase and snapshot stay |
| `LcuWebSocket.Hook.ClosingStarted` | Frontend/src/hooks/useLcuWebSocket.ts:35 | the server starting to close an open socket moves it to CLOSING and runs no handler, the one state in which a tracked socket does not stop `connectWebSocket` |
| `LcuWebSocket.Hook.HandleLcuConnect` | Frontend/src/hooks/useLcuWebSocket.ts:78-92 | connected, wsConnected, not loading, no error, so `isConnectedToLcu` (line 201) holds; phase and snapshot untouched; the connect callback runs once |
| `LcuWebSocket.Hook.HandleLcuDisconnect` | Frontend/src/hooks/useLcuWebSocket.ts:94-101 | not connected, wsConnected, not loading, the disconnect error text; phase and snapshot null; the disconnect callback runs once |
| `LcuWebSocket.Hook.HandleLcuConnectError` | Frontend/src/hooks/useLcuWebSocket.ts:103-109 | as a disconnect, but the message's own error is kept as given |
| `LcuWebSocket.Hook.HandleLcuEvent` | Frontend/src/hooks/useLcuWebSocket.ts:111-130 | a differing phase replaces the phase and clears the snapshot exactly when it leaves "ChampSelect"; an identical phase changes nothing; a session event replaces the snapshot; other URIs change nothing; the status never changes |
| `LcuWebSocket.Hook.HandleUnknownType` | Frontend/src/hooks/useLcuWebSocket.ts:132-135 | only `loading` becomes false |
| `LcuWebSocket.Hook.HandleParseError` | Frontend/src/hooks/useLcuWebSocket.ts:137-141 | `loading` becomes false, and the error becomes "Error parsing backend message" unless a truthy error is already showing |
| `LcuWebSocket.Hook.OnMessage` | Frontend/src/hooks/useLcuWebSocket.ts:70-142 | a detached socket's message changes nothing; no message touches the socket table or the tracked socket; for each kind and for a parse failure, the whole new status, phase, snapshot and callback counts are those of the matching arm |
| `LcuWebSocket.Hook.SocketClosed` | Frontend/src/hooks/useLcuWebSocket.ts:144-162 | the tracked reference is cleared only if it is the closing socket, the status becomes all false with the close error, phase and snapshot become null, and the disconnect callback runs once |
| `LcuWebSocket.Hook.OnError` | Frontend/src/hooks/useLcuWebSocket.ts:164-172 | only `loading` becomes false and the error becomes "WebSocket connection error" unless a truthy error is showing |
| `LcuWebSocket.Hook.UnmountAsWritten` | Frontend/src/hooks/useLcuWebSocket.ts:186-195 | the tracked socket is closed only if it is open, keeps its handlers, and is forgotten |
| `LcuWebSocket.Hook.Unmount` | Frontend/src/hooks/useLcuWebSocket.ts:186-195 | the tracked socket loses its handlers and is closed when connecting or open, so no socket is left live |
| `HookScenarios.ConnectTwice` | Frontend/src/hooks/useLcuWebSocket.ts:35-38 | a second `connectWebSocket` while connecting creates no socket |
| `HookScenarios.RemountAsWritten` | Frontend/src/hooks/useLcuWebSocket.ts:181-195 | mount, cleanup before open, and mount again leave two live sockets |
| `HookScenarios.Remount` | Frontend/src/hooks/useLcuWebSocket.ts:181-195 | with the corrected cleanup the same sequence leaves one live socket |
| `HookScenarios.StaleCloseAsWritten` | Frontend/src/hooks/useLcuWebSocket.ts:144-154 | the leftover socket's close keeps the newer socket tracked (the identity check), yet resets `wsConnected` |
| `HookScenarios.ReconnectWhileClosing` | Frontend/src/hooks/useLcuWebSocket.ts:33-60 | `connectWebSocket` while the server is closing the tracked socket tracks a new socket with the connecting status, and the old socket's final close changes nothing |
| `HookScenarios.ChampSelectThenInProgress` | Frontend/src/hooks/useLcuWebSocket.ts:111-130 | a ChampSelect phase, a session snapshot and then an InProgress phase leave phase "InProgress" and no snapshot |

## Left out

- The file read (`fs.readFile`), the distinction between a missing file and other read errors, `os.platform()` and console logging. These are I/O. The content and the platform are parameters, and any read failure is None.
- `path.join` is not called. The Windows path is its result for the fixed segments, the segments joined with `\`.
- `Buffer.from` on a string with a lone UTF-16 surrogate replaces it with U+FFFD. Dafny characters are Unicode scalar values, so such strings are not representable here.
- `Base64.Decode` accepts non-zero unused bits in a final quantum. It is only the partner of `Encode` and is not from the source.
- The try/catch close with code 1011 in the `LcuConnect` arm. It reacts to exceptions thrown by React setters or the callback.
- React scheduling: `useState`, `useRef`, `useEffect` and `useCallback`. Setters take effect immediately and in program order. The snapshot clear nested in the phase updater happens in the same step.
- The callbacks `onLcuConnect` and `onLcuDisconnect` are only counted.
- The WebSocket transport itself: the URL, frames and the closing handshake's timing. Messages delivered to a closing socket are not modelled.
- `JSON.parse`. A frame is either a message datatype or a parse failure. A non-string `error` field and a non-object `data` field are folded into None. A missing inner `data` field of an event is kept as `Undefined`, which `===` distinguishes from null, so a phase event without it sets the phase to `undefined`.
- JSON numbers are integers, so floating-point values and the `NaN !== NaN` case of strict equality are not modelled.
- The event's `eventType` is carried but unused, as in the source.
- The hook's returned object is not modelled. The model exposes the fields and `IsConnectedToLcu` directly.

## Findings

| source | as written | input that shows it | evidently intended | confidence | as-written member | corrected member |
|---|---|---|---|---|---|---|
| Frontend/src/hooks/useLcuWebSocket.ts:190-194 | the unmount cleanup closes the tracked socket only when it is OPEN, never removes its handlers, and then forgets it | mount, cleanup while the socket is still CONNECTING, mount again (the double effect run of React's development mode): two sockets are connecting with handlers attached, and the first one's late close resets the status shown for the second | the cleanup removes the handlers and closes the tracked socket in any live state, as the teardown at lines 40-49 does | medium, not executed | `HookScenarios.RemountAsWritten` | `HookScenarios.Remount` |
