# GLS client session, modelled in Dafny

This project models the client side of the GLS (GPS Location Sharing) library `pygls`. It covers the protocol session object `ServerConnection`, the single-character command and reply tags of `GLSCommands`, and the exception record and error codes of `GLSException`.

A session holds the parameters it was built with: host, port, protocol version, client name, password and device name. It connects lazily. The first command sent on a disconnected session triggers the handshake:

1. Connect the socket.
2. Read the server's unsolicited version line.
3. Send `V<version>`, then `N<client>[,<password>]`, then `D<device>`.
4. Accept only the reply `K` at each step.
5. Mark the session connected.

Each command is framed with a line feed. Each reply is one received chunk with its last character dropped.

The socket is an abstract channel:

- **Inbox:** the chunks the server will deliver, one per receive. Once the inbox is exhausted, a receive yields the empty chunk, as a socket does after the peer has closed.
- **Outbox:** every line sent.
- **Socket state:** no socket yet, unconnected (the connect failed), open, or closed.
- **`reachable` flag:** decides whether `connect` succeeds.

A Python exception is a `Failure`: either a raised `GLSException` or a foreign error. The foreign errors are an `AttributeError` on some object, or a socket error.

Files:

- `wrappers.dfy`: `Option`.
- `gls_commands.dfy`: module `GLSCommands`, the `CO_*`/`RE_*` constants and their properties.
- `gls_exception.dfy`: module `GLSExceptions`, the exception record, its getters and the `EC_*` codes. `ErrorCode(name)` models a module-attribute lookup, which is how line 167 of `ServerConnection.py` reaches a code the module does not define.
- `session.dfy`: module `Session`. It holds the session state as a value and one reference function per operation, returning the outcome and the new state.
- `server_connection.dfy`: module `ServerConnection`, class `ServerConnection`. Its fields are updated in place, and each method is proved to do exactly what the matching `Session` function describes.
- `session_properties.dfy`: module `SessionProperties`, the properties of the session stated over the `Session` functions. Through the method contracts they hold of the class too.

The code is modelled as written, including these quirks:

- The last character of each chunk is dropped whether or not it is a line feed.
- The group name is never stored (line 77 assigns to a local).
- A handshake that fails after the connect leaves the socket open and the server version stored; a failed connect leaves an unconnected socket and the server version as it was.
- Closing does not reset `connected`, so a second close sends on a closed socket.
- A rejected login ends in an `AttributeError` on the module rather than a `GLSException`, because `EC_AUTHENTICATION_ERROR` is not defined.
- `_sendCommand`'s documentation (lines 101-102) mentions list replies for multi-line answers, but the code reads exactly one chunk per command, never accumulates lines and does not classify `C` or `E` replies.
- No failure path resets `_connected`: it is set once, at the end of a successful handshake, and never cleared.

## Model

| member | source | states |
|---|---|---|
| GLSCommands.CommandCodesDistinct | src/pygls/GLSCommands.py:48-54 | the seven command codes are one character each and pairwise distinct |
| GLSCommands.StatusRepliesDistinct | src/pygls/GLSCommands.py:58-64 | the status replies K, C, E, F are pairwise distinct and differ from the record tags G, P, W |
| GLSCommands.RecordTagsMatchCommands | src/pygls/GLSCommands.py:51-65 | the group, position, waypoint and quit replies equal their command codes; the OK reply is "K" |
| GLSExceptions.NewGLSException | src/pygls/GLSException.py:23-36 | the constructor stores message, code and long message unchanged, and the getters return exactly them |
| GLSExceptions.DefaultsAreNone | src/pygls/GLSException.py:23 | an exception built from the message alone has no error code and no long message |
| GLSExceptions.DefinedErrorCodes | src/pygls/GLSException.py:15-16 | the unknown-error code is 0, the version code is 1, these are the only two names defined, and there is no authentication code |
| Session.StripLast | src/pygls/ServerConnection.py:109 | a reply is the chunk without its last character, whatever that character is; an empty chunk gives an empty reply |
| ServerConnection.ServerConnection.constructor | src/pygls/ServerConnection.py:48-80 | a new session keeps its parameters, is not connected, has no server version and no socket, and has sent nothing; the group name is discarded |
| ServerConnection.ServerConnection.SendCommand | src/pygls/ServerConnection.py:90-111 | the outcome and new fields are those of `Session.SendCommand` (handshake through `Session.EstablishConnection` unless connected or in init mode, then one `Session.Transmit`); when connected or in init mode it is exactly one `Session.Transmit` |
| ServerConnection.ServerConnection.SendCommands | src/pygls/ServerConnection.py:113-134 | the loop filling the dictionary yields the outcome and fields of `Session.SendCommands`, i.e. of `Session.SendCommandsFrom` started with the empty dictionary |
| ServerConnection.ServerConnection.EstablishConnection | src/pygls/ServerConnection.py:136-174 | the step-by-step handshake yields the outcome and fields of `Session.EstablishConnection`: early return when connected, the connect, `Session.Connected` (version line read), then `Session.Handshake`, `Session.AfterVersion` and `Session.AfterLogin`, each step a `Session.HandshakeStep` |
| ServerConnection.ServerConnection.CloseConnection | src/pygls/ServerConnection.py:177-186 | the outcome and fields are those of `Session.CloseConnection` |
| ServerConnection.ServerConnection.TestConnection | src/pygls/ServerConnection.py:189-203 | the outcome and fields are those of `Session.TestConnection` (foreign errors wrapped by `Session.ConnectionNotEstablished`) |
| SessionProperties.ReplyIsOk | src/pygls/ServerConnection.py:157 | a chunk reads as the OK reply exactly when it has two characters and the first is K |
| SessionProperties.LoginCommandPayload | src/pygls/ServerConnection.py:161-164 | `Session.LoginCommand`: the login command starts with N and the client name, and carries a comma and the password exactly when the password is truthy |
| SessionProperties.SendCommandFrames | src/pygls/ServerConnection.py:107-111 | connected or in init mode with an open socket, the command plus a line feed is sent, exactly one chunk is consumed and returned minus its last character, and nothing else changes |
| SessionProperties.SendCommandWithoutSocket | src/pygls/ServerConnection.py:107 | with no open socket, sending fails with the matching Python error and changes nothing |
| SessionProperties.InitModeNeverHandshakes | src/pygls/ServerConnection.py:105-106 | in init mode no handshake runs: the session fields stay, and at most the command itself is sent |
| SessionProperties.VersionStage | src/pygls/ServerConnection.py:151-158 | the handshake connects (`Session.Connected`), stores the version line minus its last character, sends the version command, and goes on only when the reply is K, else raises the version error |
| SessionProperties.LoginStage | src/pygls/ServerConnection.py:161-167 | after the version stage the login command is sent, and the handshake goes on only when the reply is K, else fails with the authentication failure |
| SessionProperties.DeviceStage | src/pygls/ServerConnection.py:169-173 | after the login stage the device command is sent, and only a K reply sets connected; otherwise the device error is raised |
| SessionProperties.AuthenticationFailureIsAttributeError | src/pygls/ServerConnection.py:167 | `Session.AuthenticationFailure`, which looks the code up with `GLSExceptions.ErrorCode`: a rejected login is an AttributeError on the module for `EC_AUTHENTICATION_ERROR`, not a GLS exception |
| SessionProperties.HandshakeVersionRejected | src/pygls/ServerConnection.py:156-158 | a rejected version raises the version-not-supported exception after sending only the version command |
| SessionProperties.HandshakeLoginRejected | src/pygls/ServerConnection.py:165-167 | a rejected login fails after sending version and login, with nothing more sent |
| SessionProperties.HandshakeDeviceRejected | src/pygls/ServerConnection.py:169-171 | a rejected device raises the device exception after all three commands, leaving the session disconnected |
| SessionProperties.HandshakeAccepted | src/pygls/ServerConnection.py:151-173 | three K replies connect the session after all three commands |
| SessionProperties.HandshakeSucceedsExactly | src/pygls/ServerConnection.py:151-173 | on a disconnected session the handshake succeeds iff the host is reachable and all three replies are K; the session is then connected, the server version is the first chunk minus its last character, V, N and D were sent in that order, and four chunks were consumed |
| SessionProperties.HandshakeWhenConnected | src/pygls/ServerConnection.py:148-149 | on a connected session the handshake returns at once and changes nothing |
| SessionProperties.ConnectRefused | src/pygls/ServerConnection.py:151-152 | an unreachable host fails with connection refused, leaves an unconnected socket, and sends and receives nothing |
| SessionProperties.HandshakeStopsAtFirstRejection | src/pygls/ServerConnection.py:156-171 | the first non-K reply stops the handshake; the session stays disconnected with the socket open and the version stored; the failure carries the version code, is the authentication AttributeError, or carries the unknown-error code; only the steps up to the rejected one were sent |
| SessionProperties.LazyHandshake | src/pygls/ServerConnection.py:105-111 | a disconnected session outside init mode answers a command iff the handshake succeeds, and then sends the command after the three handshake lines on a connected session |
| SessionProperties.HandshakeFailureStopsCommand | src/pygls/ServerConnection.py:105-107 | a failed handshake ends `_sendCommand` with the same failure before the command is sent |
| SessionProperties.HandshakeTwice | src/pygls/ServerConnection.py:148-149 | a handshake right after a successful one changes nothing |
| SessionProperties.SendCommandsFromReadyState | src/pygls/ServerConnection.py:131-133 | on a session that needs no handshake, the loop sends every command framed, in list order, and consumes one chunk per command |
| SessionProperties.SendCommandsFromReadyReplies | src/pygls/ServerConnection.py:131-133 | the loop's dictionary gains exactly the commands as keys, keeps its other keys, and maps each command to the reply to its last occurrence |
| SessionProperties.SendCommandsInOrder | src/pygls/ServerConnection.py:130-134 | `_sendCommands` returns a dictionary whose keys are exactly the commands, each mapped to the reply to its last occurrence, after sending them in order and consuming one chunk each |
| SessionProperties.CloseWhenDisconnected | src/pygls/ServerConnection.py:181-182 | closing a disconnected session does nothing |
| SessionProperties.CloseWhenConnected | src/pygls/ServerConnection.py:184-185 | closing a connected session sends exactly "Q" plus a line feed with no handshake, consumes one chunk and closes the socket, leaving connected set |
| SessionProperties.CloseTwice | src/pygls/ServerConnection.py:181-185 | because connected survives the close, a second close fails with a bad file descriptor and changes nothing |
| SessionProperties.TestConnectionWraps | src/pygls/ServerConnection.py:198-203 | `testConnection` succeeds iff sending the group command does; a GLS exception passes unchanged; any other failure becomes a GLS exception with the unknown-error code whose long message carries the original text; only GLS exceptions escape |
| SessionProperties.TestConnectionLoginRejected | src/pygls/ServerConnection.py:198-203 | a rejected login reaches the `testConnection` caller as a GLS exception with the unknown-error code, reporting the missing attribute |
| SessionProperties.TestConnectionVersionRejected | src/pygls/ServerConnection.py:198-202 | a rejected version reaches the `testConnection` caller unchanged, with the version code |
| SessionProperties.TransmitKeepsValid | src/pygls/ServerConnection.py:107-109 | `Session.Transmit`, one send and receive, keeps the session invariant, only appends to the outbox and only takes from the front of the inbox |
| SessionProperties.SendCommandKeepsValid | src/pygls/ServerConnection.py:90-111 | `_sendCommand` keeps the invariant (a connected session has a server version and an opened socket), the parameters and the channel discipline |
| SessionProperties.EstablishConnectionKeepsValid | src/pygls/ServerConnection.py:136-174 | the handshake keeps the invariant and the channel discipline, however it ends |
| SessionProperties.SendCommandsFromKeepsValid | src/pygls/ServerConnection.py:130-134 | `_sendCommands` keeps the invariant and the channel discipline, also when it stops early |
| SessionProperties.CloseConnectionKeepsValid | src/pygls/ServerConnection.py:177-186 | closing keeps the invariant and the channel discipline |
| SessionProperties.TestConnectionKeepsValid | src/pygls/ServerConnection.py:189-203 | `testConnection` keeps the invariant and the channel discipline |

## Left out

- Real sockets are not modelled.
  - `socket.socket`, `connect` and `recvfrom(1024)` are replaced by the scripted inbox, the outbox log and the `reachable` flag.
  - A chunk is a whole received buffer, and buffer sizes and chunk boundaries are not modelled.
  - Whether `connect` succeeds is a parameter of the session.
- Every failed `connect` (line 152) is modelled as a refused connection (`ECONNREFUSED`). An unresolvable host name, an unreachable network or a timeout raise other socket errors in Python, and `testConnection` would carry their own texts in its long message.
- A chunk's characters stand for bytes: Python 2 strings are byte strings, so lines 109 and 154 drop the last byte, whereas `Session.StripLast` drops the last Dafny character. Encodings are not modelled.
- The texts of socket errors are the Linux ones (`[Errno 111] Connection refused` and so on); other platforms word them differently.
- A receive on an exhausted inbox yields the empty chunk, as after the server closed its end; timeouts and resets are not modelled.
- A new handshake after a failed one opens a new socket but reads from the same scripted inbox.
- The `print` tracing in `ServerConnection.py` writes to the console only and is not modelled.
- `__del__` depends on garbage-collection timing. It calls `_closeConnection`, which is modelled.
- `GLSException.__str__` refers to an undefined name and always raises a `NameError`; `testConnection` never calls it on a GLS exception.
- `_sendCommand` returns a list for multi-line replies, according to its documentation. Neither that accumulation nor the `C`/`E` reply classification exists in the code, so neither is modelled.
- The high-level requests that the test scripts call (group, position and waypoint requests) are not defined by `ServerConnection`.
- Python's integer flags (`_connected`, `initMode`) are booleans; the code only tests them for truth.
- The library's other files are not part of this model: `PythonGLS.py` (field holders), `GPSDConnection.py`, `setup.py`, the pyroute plug-in and the test scripts.
- SessionProperties.SendCommandsInOrder: stated for a session that needs no handshake. A disconnected session first handshakes, and what follows is given by SessionProperties.LazyHandshake for the first command.
- SessionProperties.TestConnectionLoginRejected: the long message is stated through the `Describe` text of the attribute error, not as a written-out string literal.
