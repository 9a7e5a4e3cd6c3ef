/**
 * The GLS client session object of src/pygls/ServerConnection.py. Its methods
 * update the session's fields and the channel step by step, and each is proved
 * to do exactly what the matching function of module Session describes.
 */
module ServerConnection {
  import opened Wrappers
  import opened GLSCommands
  import opened Session

  class ServerConnection {
    const hostName: string
    const port: int
    const version: string
    const clientName: string
    const password: Option<string>
    const deviceName: string
    var serverVersion: Option<string>
    var connected: bool
    var socket: Socket
    // the channel
    const reachable: bool
    var inbox: seq<string>
    var outbox: seq<string>

    /** The session's fields and channel as one value. */
    function State(): (st: Session.State)
      reads this
    {
      Session.State(Config(hostName, port, version, clientName, password, deviceName, reachable),
                    serverVersion, connected, socket, inbox, outbox)
    }

    /**
     * Stores the parameters and performs no I/O: not connected, no server version,
     * no socket, nothing sent. The group name is accepted and not stored.
     * `reachable` and `script` describe the server this session will meet.
     */
    constructor (hostName: string, port: int, version: string, clientName: string,
                 password: Option<string>, deviceName: string, groupName: string,
                 reachable: bool, script: seq<string>)
      ensures State() == Session.State(Config(hostName, port, version, clientName, password, deviceName, reachable),
                                       None, false, NoSocket, script, [])
    {
      this.hostName := hostName;
      this.port := port;
      this.version := version;
      this.clientName := clientName;
      this.password := password;
      this.deviceName := deviceName;
      this.serverVersion := None;
      this.connected := false;
      this.socket := NoSocket;
      this.reachable := reachable;
      this.inbox := script;
      this.outbox := [];
    }

    /** Sends one command and returns the reply line; handshakes first unless connected or in init mode. */
    method SendCommand(command: string, initMode: bool := false) returns (r: Outcome<string>)
      modifies this
      decreases if initMode then 0 else 2
      ensures Session.SendCommand(old(State()), command, initMode) == Step(r, State())
      ensures old(connected) || initMode ==> Transmit(old(State()), command) == Step(r, State())
    {
      if !connected && !initMode {
        var h := EstablishConnection();
        if h.Fail? {
          return Fail(h.failure);
        }
      }
      match socket
      case NoSocket =>
        r := Fail(Foreign(AttributeError("NoneType", "send")));
      case Unconnected =>
        r := Fail(Foreign(SocketError(BrokenPipe)));
      case Closed =>
        r := Fail(Foreign(SocketError(BadFileDescriptor)));
      case Open =>
        outbox := outbox + [command + "\n"];
        var data := NextChunk(inbox);
        inbox := Rest(inbox);
        r := Ok(StripLast(data));
    }

    /** Sends the commands in order and collects each reply under its command. */
    method SendCommands(commands: seq<string>, initMode: bool := false) returns (r: Outcome<map<string, string>>)
      modifies this
      ensures Session.SendCommands(old(State()), commands, initMode) == Step(r, State())
    {
      var results: map<string, string> := map[];
      for i := 0 to |commands|
        invariant SendCommandsFrom(State(), commands[i..], initMode, results)
                  == Session.SendCommands(old(State()), commands, initMode)
      {
        assert commands[i..][0] == commands[i] && commands[i..][1..] == commands[i + 1..];
        var result := SendCommand(commands[i], initMode);
        match result
        case Fail(f) =>
          return Fail(f);
        case Ok(reply) =>
          results := results[commands[i] := reply];
      }
      return Ok(results);
    }

    /** The handshake: version, login and device, in that order; a no-op when already connected. */
    method EstablishConnection() returns (r: Outcome<()>)
      modifies this
      decreases 1
      ensures Session.EstablishConnection(old(State())) == Step(r, State())
    {
      if connected {
        return Ok(());
      }
      ghost var st := State();
      socket := Unconnected;
      if !reachable {
        return Fail(Foreign(SocketError(ConnectionRefused)));
      }
      socket := Open;
      var data := NextChunk(inbox);
      inbox := Rest(inbox);
      serverVersion := Some(StripLast(data));
      assert State() == Connected(st);

      var res := SendCommand(CoVersion + version, true);
      assert HandshakeStep(Connected(st), CoVersion + st.config.version,
                           Raised(VersionNotSupported(StripLast(data), st.config.version))).state == State();
      if res.Fail? {
        return Fail(res.failure);
      } else if res.value != ReOk {
        return Fail(Raised(VersionNotSupported(StripLast(data), version)));
      }
      assert Session.EstablishConnection(st) == AfterVersion(State());

      ghost var st2 := State();
      res := SendCommand(LoginCommand(clientName, password), true);
      assert HandshakeStep(st2, LoginCommand(st2.config.clientName, st2.config.password),
                           AuthenticationFailure(st2.config.clientName)).state == State();
      if res.Fail? {
        return Fail(res.failure);
      } else if res.value != ReOk {
        return Fail(AuthenticationFailure(clientName));
      }
      assert Session.EstablishConnection(st) == AfterLogin(State());

      ghost var st3 := State();
      res := SendCommand(CoDevice + deviceName, true);
      assert HandshakeStep(st3, CoDevice + st3.config.deviceName, Raised(DeviceRejected(st3.config.deviceName))).state == State();
      if res.Fail? {
        return Fail(res.failure);
      } else if res.value != ReOk {
        return Fail(Raised(DeviceRejected(deviceName)));
      }

      connected := true;
      r := Ok(());
    }

    /** Sends quit and closes the socket when connected; leaves `connected` as it is. */
    method CloseConnection() returns (r: Outcome<()>)
      modifies this
      ensures Session.CloseConnection(old(State())) == Step(r, State())
    {
      if !connected {
        return Ok(());
      }
      var res := SendCommand(CoQuit, false);
      if res.Fail? {
        return Fail(res.failure);
      }
      socket := Closed;
      r := Ok(());
    }

    /** Requests the group list; any exception that is not a GLS exception is wrapped into one. */
    method TestConnection() returns (r: Outcome<()>)
      modifies this
      ensures Session.TestConnection(old(State())) == Step(r, State())
    {
      var res := SendCommand(CoGroup, false);
      match res
      case Ok(_) =>
        r := Ok(());
      case Fail(Raised(e)) =>
        r := Fail(Raised(e));
      case Fail(Foreign(e)) =>
        r := Fail(Raised(ConnectionNotEstablished(e)));
    }
  }
}
