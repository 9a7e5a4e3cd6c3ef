/**
 * The GLS client session of src/pygls/ServerConnection.py as values: the
 * session's fields together with an abstract channel, and one reference
 * function per operation giving its outcome and the new state.
 *
 * The TCP socket is replaced by a scripted channel: `inbox` holds the chunks the
 * server will deliver, one per receive, `outbox` logs everything sent, `socket`
 * says what the session's socket field holds, and `reachable` says whether a
 * connect attempt to the configured host and port succeeds. Once the inbox is
 * exhausted the server has closed its end, and a receive yields the empty chunk.
 */
module Session {
  import opened Wrappers
  import opened GLSCommands
  import opened GLSExceptions

  /** What the field `_s` holds: nothing yet, a socket whose connect failed, a live connection, a closed socket. */
  datatype Socket = NoSocket | Unconnected | Open | Closed

  /** The socket errors the session can meet. */
  datatype SocketFault =
    | ConnectionRefused   // connect to a host that does not accept the connection
    | BrokenPipe          // send on a socket whose connect failed
    | BadFileDescriptor   // send on a socket that was closed

  /** An exception other than a GLSException. */
  datatype ForeignError =
    | AttributeError(owner: string, name: string)
    | SocketError(fault: SocketFault)

  /** What an operation can raise. */
  datatype Failure = Raised(exception: GLSException) | Foreign(error: ForeignError)

  /** The outcome of an operation: a returned value or a raised exception. */
  datatype Outcome<+T> = Ok(value: T) | Fail(failure: Failure)

  /**
   * The session's parameters, fixed at construction, and whether the server at
   * `hostName` and `port` accepts connections.
   */
  datatype Config = Config(
    hostName: string,
    port: int,
    version: string,
    clientName: string,
    password: Option<string>,
    deviceName: string,
    reachable: bool)

  /** The session's fields and the channel. */
  datatype State = State(
    config: Config,
    serverVersion: Option<string>,
    connected: bool,
    socket: Socket,
    inbox: seq<string>,
    outbox: seq<string>)

  /** The outcome of an operation together with the state it leaves behind. */
  datatype Step<+T> = Step(result: Outcome<T>, state: State)

  /** `str(e)` of a foreign exception (socket error texts as on Linux). */
  function Describe(e: ForeignError): (text: string)
  {
    match e
    case AttributeError(owner, name) => "'" + owner + "' object has no attribute '" + name + "'"
    case SocketError(ConnectionRefused) => "[Errno 111] Connection refused"
    case SocketError(BrokenPipe) => "[Errno 32] Broken pipe"
    case SocketError(BadFileDescriptor) => "[Errno 9] Bad file descriptor"
  }

  /** `data[:len(data)-1]`: drops the last character, whatever it is; the empty string stays empty. */
  function StripLast(data: string): (r: string)
    ensures |data| > 0 ==> data == r + [data[|data| - 1]]
    ensures |data| == 0 ==> r == ""
  {
    if |data| == 0 then "" else data[..|data| - 1]
  }

  /** The chunk one receive delivers. */
  function NextChunk(inbox: seq<string>): (chunk: string)
  {
    if inbox == [] then "" else inbox[0]
  }

  /** The inbox after one receive. */
  function Rest(inbox: seq<string>): (rest: seq<string>)
  {
    if inbox == [] then [] else inbox[1..]
  }

  /** The `k`-th chunk still to come, or the empty chunk once the server has closed. */
  function ChunkAt(inbox: seq<string>, k: nat): (chunk: string)
  {
    if k < |inbox| then inbox[k] else ""
  }

  /** The inbox after `k` receives. */
  function Drop(inbox: seq<string>, k: nat): (rest: seq<string>)
  {
    if k <= |inbox| then inbox[k..] else []
  }

  /** A password is used only when it is truthy: present and not empty. */
  predicate HasPassword(password: Option<string>)
  {
    password.Some? && password.value != ""
  }

  /** The login command: the client name, followed by a comma and the password if there is one. */
  function LoginCommand(clientName: string, password: Option<string>): (command: string)
  {
    if HasPassword(password) then CoLogin + clientName + "," + password.value
    else CoLogin + clientName
  }

  /** The exception for a rejected protocol version. */
  function VersionNotSupported(serverVersion: string, version: string): (e: GLSException)
  {
    NewGLSException(
      "Requested version of GLS specification not supported by server.",
      Some(EcVersionNotSupported),
      Some("Version mismatch - server understands " + serverVersion + "; client wants to speak " + version))
  }

  /**
   * What the rejected login raises. The arguments of the exception are evaluated
   * in order, and the second names an error code the exceptions module lacks.
   */
  function AuthenticationFailure(clientName: string): (f: Failure)
  {
    match ErrorCode("EC_AUTHENTICATION_ERROR")
    case None => Foreign(AttributeError("module", "EC_AUTHENTICATION_ERROR"))
    case Some(code) =>
      Raised(NewGLSException(
        "Authentication error when connecting to GLS server.",
        Some(code),
        Some("The client (" + clientName + ") could not be authenticated on the server.")))
  }

  /** The exception for a rejected device. */
  function DeviceRejected(deviceName: string): (e: GLSException)
  {
    NewGLSException(
      "Device not accepted by server.",
      Some(EcUnknownError),
      Some("The server did not accept the device (" + deviceName + ") for the connection establishment."))
  }

  /** The exception `testConnection` raises in place of a foreign one. */
  function ConnectionNotEstablished(e: ForeignError): (wrapped: GLSException)
  {
    NewGLSException(
      "Connection to server could not be established.",
      Some(EcUnknownError),
      Some("Underlaying error: " + Describe(e)))
  }

  /** Sends `command` plus a line feed on the socket, receives one chunk and drops its last character. */
  function Transmit(st: State, command: string): (step: Step<string>)
  {
    match st.socket
    case NoSocket => Step(Fail(Foreign(AttributeError("NoneType", "send"))), st)
    case Unconnected => Step(Fail(Foreign(SocketError(BrokenPipe))), st)
    case Closed => Step(Fail(Foreign(SocketError(BadFileDescriptor))), st)
    case Open =>
      Step(Ok(StripLast(NextChunk(st.inbox))),
           st.(outbox := st.outbox + [command + "\n"], inbox := Rest(st.inbox)))
  }

  /** `_sendCommand`: runs the handshake first unless connected or in init mode, then transmits. */
  function SendCommand(st: State, command: string, initMode: bool := false): (step: Step<string>)
    decreases if initMode then 0 else 6
  {
    if !st.connected && !initMode then
      var h := EstablishConnection(st);
      match h.result
      case Fail(f) => Step(Fail(f), h.state)
      case Ok(_) => Transmit(h.state, command)
    else
      Transmit(st, command)
  }

  /** One step of the handshake: `command` sent in init mode; any reply other than the OK tag raises `rejected`. */
  function HandshakeStep(st: State, command: string, rejected: Failure): (step: Step<()>)
    decreases 1
  {
    var s := SendCommand(st, command, true);
    match s.result
    case Fail(f) => Step(Fail(f), s.state)
    case Ok(reply) => if reply != ReOk then Step(Fail(rejected), s.state) else Step(Ok(()), s.state)
  }

  /** The state right after a successful connect: the server's version line has been read. */
  function Connected(st: State): (st': State)
  {
    st.(socket := Open, inbox := Rest(st.inbox), serverVersion := Some(StripLast(NextChunk(st.inbox))))
  }

  /** Version, login and device on a fresh connection; only full success sets `connected`. */
  function Handshake(st: State): (step: Step<()>)
    decreases 4
  {
    var v := HandshakeStep(Connected(st), CoVersion + st.config.version,
                           Raised(VersionNotSupported(StripLast(NextChunk(st.inbox)), st.config.version)));
    match v.result
    case Fail(_) => v
    case Ok(_) => AfterVersion(v.state)
  }

  /** The handshake once the version was accepted: login, then device. */
  function AfterVersion(st: State): (step: Step<()>)
    decreases 3
  {
    var n := HandshakeStep(st, LoginCommand(st.config.clientName, st.config.password), AuthenticationFailure(st.config.clientName));
    match n.result
    case Fail(_) => n
    case Ok(_) => AfterLogin(n.state)
  }

  /** The handshake once the login was accepted: device, then `connected` is set. */
  function AfterLogin(st: State): (step: Step<()>)
    decreases 2
  {
    var d := HandshakeStep(st, CoDevice + st.config.deviceName, Raised(DeviceRejected(st.config.deviceName)));
    match d.result
    case Fail(_) => d
    case Ok(_) => Step(Ok(()), d.state.(connected := true))
  }

  /**
   * `_establishConnection`: nothing when already connected; otherwise a new socket,
   * the connect, then the handshake proper.
   */
  function EstablishConnection(st: State): (step: Step<()>)
    decreases 5
  {
    if st.connected then Step(Ok(()), st)
    else if !st.config.reachable then Step(Fail(Foreign(SocketError(ConnectionRefused))), st.(socket := Unconnected))
    else Handshake(st)
  }

  /** `_sendCommands` from the loop's point of view: the commands still to send and the replies so far. */
  function SendCommandsFrom(st: State, commands: seq<string>, initMode: bool, results: map<string, string>): (step: Step<map<string, string>>)
    decreases |commands|
  {
    if commands == [] then Step(Ok(results), st)
    else
      var s := SendCommand(st, commands[0], initMode);
      match s.result
      case Fail(f) => Step(Fail(f), s.state)
      case Ok(reply) => SendCommandsFrom(s.state, commands[1..], initMode, results[commands[0] := reply])
  }

  /** `_sendCommands`: every command in list order, replies collected in a dictionary keyed by command. */
  function SendCommands(st: State, commands: seq<string>, initMode: bool := false): (step: Step<map<string, string>>)
  {
    SendCommandsFrom(st, commands, initMode, map[])
  }

  /** `_closeConnection`: when connected, sends quit and closes the socket; `connected` is left as it was. */
  function CloseConnection(st: State): (step: Step<()>)
  {
    if !st.connected then Step(Ok(()), st)
    else
      var q := SendCommand(st, CoQuit, false);
      match q.result
      case Fail(f) => Step(Fail(f), q.state)
      case Ok(_) => Step(Ok(()), q.state.(socket := Closed))
  }

  /** `testConnection`: asks for the group list; foreign exceptions become GLS exceptions. */
  function TestConnection(st: State): (step: Step<()>)
  {
    var g := SendCommand(st, CoGroup, false);
    match g.result
    case Ok(_) => Step(Ok(()), g.state)
    case Fail(Raised(e)) => Step(Fail(Raised(e)), g.state)
    case Fail(Foreign(e)) => Step(Fail(Raised(ConnectionNotEstablished(e))), g.state)
  }
}
