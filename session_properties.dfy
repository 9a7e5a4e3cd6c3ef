/**
 * What the GLS client session promises, stated over the reference functions of
 * module Session (and so, through their contracts, over the methods of class
 * ServerConnection).
 */
module SessionProperties {
  import opened Wrappers
  import opened GLSCommands
  import opened GLSExceptions
  import opened Session

  /** The three handshake lines the client sends, in order, each with its line feed. */
  function HandshakeLines(c: Config): (lines: seq<string>)
  {
    [CoVersion + c.version + "\n", LoginCommand(c.clientName, c.password) + "\n", CoDevice + c.deviceName + "\n"]
  }

  /** The `k`-th chunk still to come reads as the OK tag once its last character is dropped. */
  predicate Accepted(inbox: seq<string>, k: nat)
  {
    StripLast(ChunkAt(inbox, k)) == ReOk
  }

  /**
   * The handshake of a disconnected session succeeds: the host accepts the
   * connection, and the three chunks after the version line are all OK.
   */
  predicate HandshakeSucceeds(st: State)
  {
    st.config.reachable && Accepted(st.inbox, 1) && Accepted(st.inbox, 2) && Accepted(st.inbox, 3)
  }

  /** A connected session has a server version and a socket that was opened. */
  predicate Valid(st: State)
  {
    st.connected ==> st.serverVersion.Some? && (st.socket == Open || st.socket == Closed)
  }

  /**
   * `st'` can follow `st`: the parameters are the same, the outbox has only
   * grown and the inbox has only lost chunks from its front.
   */
  predicate Follows(st: State, st': State)
  {
    && st'.config == st.config
    && st.outbox <= st'.outbox
    && |st'.inbox| <= |st.inbox|
    && st'.inbox == st.inbox[|st.inbox| - |st'.inbox|..]
  }

  // ---------------------------------------------------------------- the channel

  lemma DropSucc(inbox: seq<string>, k: nat)
    ensures NextChunk(Drop(inbox, k)) == ChunkAt(inbox, k)
    ensures Rest(Drop(inbox, k)) == Drop(inbox, k + 1)
  {
  }

  lemma DropZero(inbox: seq<string>)
    ensures Drop(inbox, 0) == inbox
  {
  }

  /**
   * A reply is the OK tag exactly when the chunk is two characters starting with
   * `K`: the second character is dropped whatever it is, line feed or not.
   */
  lemma {:induction false} ReplyIsOk(chunk: string)
    ensures StripLast(chunk) == ReOk <==> |chunk| == 2 && chunk[0] == 'K'
  {
    if |chunk| == 2 && chunk[0] == 'K' {
      assert StripLast(chunk) == chunk[..1];
      assert chunk[..1] == ['K'];
    }
  }

  /** The login command starts with the tag and the client name; it goes on with a comma and the password exactly when the password is truthy. */
  lemma LoginCommandPayload(clientName: string, password: Option<string>)
    ensures CoLogin + clientName <= LoginCommand(clientName, password)
    ensures HasPassword(password) <==> |LoginCommand(clientName, password)| > 1 + |clientName|
    ensures HasPassword(password) ==>
              LoginCommand(clientName, password)[1 + |clientName|..] == "," + password.value
  {
    var login := LoginCommand(clientName, password);
    if HasPassword(password) {
      assert login == (CoLogin + clientName) + ("," + password.value);
    }
  }

  // ----------------------------------------------------------------- _sendCommand

  /**
   * Connected or in init mode, with an open socket: the command plus a line feed
   * is sent, exactly one chunk is consumed and returned without its last
   * character, and nothing else changes.
   */
  lemma SendCommandFrames(st: State, command: string, initMode: bool)
    requires st.connected || initMode
    requires st.socket == Open
    ensures SendCommand(st, command, initMode) ==
            Step(Ok(StripLast(ChunkAt(st.inbox, 0))),
                 st.(outbox := st.outbox + [command + "\n"], inbox := Drop(st.inbox, 1)))
  {
    DropZero(st.inbox);
    DropSucc(st.inbox, 0);
  }

  /**
   * Connected or in init mode, without an open socket, nothing is sent or
   * received: no socket yet is an AttributeError on `None`, a socket whose
   * connect failed is a broken pipe, a closed socket a bad file descriptor.
   */
  lemma SendCommandWithoutSocket(st: State, command: string, initMode: bool)
    requires st.connected || initMode
    requires st.socket != Open
    ensures SendCommand(st, command, initMode).state == st
    ensures SendCommand(st, command, initMode).result ==
            Fail(Foreign(match st.socket
                         case NoSocket => AttributeError("NoneType", "send")
                         case Unconnected => SocketError(BrokenPipe)
                         case _ => SocketError(BadFileDescriptor)))
  {
  }

  /** In init mode the handshake is never triggered: session fields stay as they are and at most the command itself is sent. */
  lemma InitModeNeverHandshakes(st: State, command: string)
    ensures var s := SendCommand(st, command, true);
      && s.state.connected == st.connected
      && s.state.serverVersion == st.serverVersion
      && s.state.socket == st.socket
      && (s.state.outbox == st.outbox || s.state.outbox == st.outbox + [command + "\n"])
  {
  }

  // ------------------------------------------------------- _establishConnection

  lemma HandshakeStepOpen(st: State, command: string, rejected: Failure)
    requires st.socket == Open
    ensures HandshakeStep(st, command, rejected) ==
            Step(if StripLast(NextChunk(st.inbox)) == ReOk then Ok(()) else Fail(rejected),
                 st.(outbox := st.outbox + [command + "\n"], inbox := Rest(st.inbox)))
  {
    assert SendCommand(st, command, true) == Transmit(st, command);
  }

  lemma DropDrop(inbox: seq<string>, k: nat, j: nat)
    ensures ChunkAt(Drop(inbox, k), j) == ChunkAt(inbox, k + j)
    ensures Drop(Drop(inbox, k), j) == Drop(inbox, k + j)
  {
  }

  /** The state after the version stage. */
  function AfterVersionState(st: State): (st': State)
  {
    Connected(st).(outbox := st.outbox + HandshakeLines(st.config)[..1], inbox := Drop(st.inbox, 2))
  }

  /** The state after the login stage. */
  function AfterLoginState(st: State): (st': State)
  {
    Connected(st).(outbox := st.outbox + HandshakeLines(st.config)[..2], inbox := Drop(st.inbox, 3))
  }

  /** The state after the device stage, before `connected` is set. */
  function AfterDeviceState(st: State): (st': State)
  {
    Connected(st).(outbox := st.outbox + HandshakeLines(st.config), inbox := Drop(st.inbox, 4))
  }

  /** The version stage: sent on the fresh connection, right after the server's version line was read. */
  lemma VersionStage(st: State)
    requires !st.connected && st.config.reachable
    ensures EstablishConnection(st) ==
            if Accepted(st.inbox, 1) then AfterVersion(AfterVersionState(st))
            else Step(Fail(Raised(VersionNotSupported(StripLast(ChunkAt(st.inbox, 0)), st.config.version))),
                      AfterVersionState(st))
  {
    DropZero(st.inbox);
    DropSucc(st.inbox, 0);
    DropSucc(st.inbox, 1);
    HandshakeStepOpen(Connected(st), CoVersion + st.config.version,
                      Raised(VersionNotSupported(StripLast(NextChunk(st.inbox)), st.config.version)));
    assert HandshakeLines(st.config)[..1] == [CoVersion + st.config.version + "\n"];
  }

  /** The login stage, once the version was accepted. */
  lemma LoginStage(st: State)
    ensures AfterVersion(AfterVersionState(st)) ==
            if Accepted(st.inbox, 2) then AfterLogin(AfterLoginState(st))
            else Step(Fail(AuthenticationFailure(st.config.clientName)), AfterLoginState(st))
  {
    var s := AfterVersionState(st);
    DropDrop(st.inbox, 2, 0);
    DropDrop(st.inbox, 2, 1);
    DropZero(s.inbox);
    DropSucc(s.inbox, 0);
    HandshakeStepOpen(s, LoginCommand(s.config.clientName, s.config.password), AuthenticationFailure(s.config.clientName));
    var lines := HandshakeLines(st.config);
    assert lines[1] == LoginCommand(st.config.clientName, st.config.password) + "\n";
    assert st.outbox + lines[..2] == (st.outbox + lines[..1]) + [lines[1]];
  }

  /** The device stage, once the login was accepted; only its success connects the session. */
  lemma DeviceStage(st: State)
    requires !st.connected
    ensures AfterLogin(AfterLoginState(st)) ==
            Step(if Accepted(st.inbox, 3) then Ok(()) else Fail(Raised(DeviceRejected(st.config.deviceName))),
                 AfterDeviceState(st).(connected := Accepted(st.inbox, 3)))
  {
    var s := AfterLoginState(st);
    DropDrop(st.inbox, 3, 0);
    DropDrop(st.inbox, 3, 1);
    DropZero(s.inbox);
    DropSucc(s.inbox, 0);
    HandshakeStepOpen(s, CoDevice + s.config.deviceName, Raised(DeviceRejected(s.config.deviceName)));
    var lines := HandshakeLines(st.config);
    assert lines[2] == CoDevice + st.config.deviceName + "\n";
    assert st.outbox + lines == (st.outbox + lines[..2]) + [lines[2]];
  }

  /**
   * The module defines no authentication error code, so a rejected login ends
   * in an AttributeError on the module instead of a GLS exception.
   */
  lemma AuthenticationFailureIsAttributeError(clientName: string)
    ensures AuthenticationFailure(clientName) == Foreign(AttributeError("module", "EC_AUTHENTICATION_ERROR"))
  {
    DefinedErrorCodes();
  }

  lemma HandshakeVersionRejected(st: State)
    requires !st.connected && st.config.reachable && !Accepted(st.inbox, 1)
    ensures EstablishConnection(st) ==
            Step(Fail(Raised(VersionNotSupported(StripLast(ChunkAt(st.inbox, 0)), st.config.version))),
                 AfterVersionState(st))
  {
    VersionStage(st);
  }

  lemma HandshakeLoginRejected(st: State)
    requires !st.connected && st.config.reachable && Accepted(st.inbox, 1) && !Accepted(st.inbox, 2)
    ensures EstablishConnection(st) == Step(Fail(AuthenticationFailure(st.config.clientName)), AfterLoginState(st))
  {
    VersionStage(st);
    LoginStage(st);
  }

  lemma HandshakeDeviceRejected(st: State)
    requires !st.connected && st.config.reachable && Accepted(st.inbox, 1) && Accepted(st.inbox, 2)
    requires !Accepted(st.inbox, 3)
    ensures EstablishConnection(st) == Step(Fail(Raised(DeviceRejected(st.config.deviceName))), AfterDeviceState(st))
  {
    VersionStage(st);
    LoginStage(st);
    DeviceStage(st);
  }

  lemma HandshakeAccepted(st: State)
    requires !st.connected && HandshakeSucceeds(st)
    ensures EstablishConnection(st) == Step(Ok(()), AfterDeviceState(st).(connected := true))
  {
    VersionStage(st);
    LoginStage(st);
    DeviceStage(st);
  }

  /**
   * On a disconnected session the handshake succeeds exactly when the host
   * accepts the connection and all three replies are OK. It then stores the
   * version line minus its last character, sends version, login and device in
   * that order, consumes four chunks, and only then is the session connected.
   */
  lemma HandshakeSucceedsExactly(st: State)
    requires !st.connected
    ensures EstablishConnection(st).result.Ok? <==> HandshakeSucceeds(st)
    ensures HandshakeSucceeds(st) ==>
              var h := EstablishConnection(st);
              && h.state == st.(connected := true, socket := Open,
                                serverVersion := Some(StripLast(ChunkAt(st.inbox, 0))),
                                inbox := Drop(st.inbox, 4),
                                outbox := st.outbox + HandshakeLines(st.config))
  {
    if !st.config.reachable {
    } else if !Accepted(st.inbox, 1) {
      HandshakeVersionRejected(st);
    } else if !Accepted(st.inbox, 2) {
      HandshakeLoginRejected(st);
    } else if !Accepted(st.inbox, 3) {
      HandshakeDeviceRejected(st);
    } else {
      HandshakeAccepted(st);
      DropZero(st.inbox);
      DropSucc(st.inbox, 0);
    }
  }

  /** On a connected session the handshake returns at once: nothing is sent or received and no field changes. */
  lemma HandshakeWhenConnected(st: State)
    requires st.connected
    ensures EstablishConnection(st) == Step(Ok(()), st)
  {
  }

  /** A host that refuses the connection leaves an unconnected socket behind, and nothing is sent or received. */
  lemma ConnectRefused(st: State)
    requires !st.connected && !st.config.reachable
    ensures EstablishConnection(st) ==
            Step(Fail(Foreign(SocketError(ConnectionRefused))), st.(socket := Unconnected))
  {
  }

  /**
   * The first reply other than OK stops the handshake: no later step is sent,
   * the session stays disconnected (with its socket open and the server version
   * stored), and the failure says which step it was: a GLS exception with the
   * version code, the AttributeError of the undefined authentication code, or a
   * GLS exception with the unknown-error code.
   */
  lemma HandshakeStopsAtFirstRejection(st: State)
    requires !st.connected && st.config.reachable && !HandshakeSucceeds(st)
    ensures var h := EstablishConnection(st);
      var lines := HandshakeLines(st.config);
      && !h.state.connected && h.state.socket == Open && h.state.serverVersion.Some?
      && (!Accepted(st.inbox, 1) ==>
            && h.result.Fail? && h.result.failure.Raised?
            && h.result.failure.exception.GetErrorCode() == Some(EcVersionNotSupported)
            && h.state.outbox == st.outbox + [lines[0]])
      && (Accepted(st.inbox, 1) && !Accepted(st.inbox, 2) ==>
            && h.result == Fail(Foreign(AttributeError("module", "EC_AUTHENTICATION_ERROR")))
            && h.state.outbox == st.outbox + [lines[0], lines[1]])
      && (Accepted(st.inbox, 1) && Accepted(st.inbox, 2) ==>
            && h.result.Fail? && h.result.failure.Raised?
            && h.result.failure.exception.GetErrorCode() == Some(EcUnknownError)
            && h.state.outbox == st.outbox + lines)
  {
    AuthenticationFailureIsAttributeError(st.config.clientName);
    var lines := HandshakeLines(st.config);
    assert lines[..1] == [lines[0]] && lines[..2] == [lines[0], lines[1]] && lines[..3] == lines;
    if !Accepted(st.inbox, 1) {
      HandshakeVersionRejected(st);
    } else if !Accepted(st.inbox, 2) {
      HandshakeLoginRejected(st);
    } else {
      HandshakeDeviceRejected(st);
    }
  }

  /**
   * Without init mode a disconnected session handshakes before the command: the
   * command is answered only if the handshake succeeds, and is then sent after
   * the three handshake lines, on a connected session.
   */
  lemma LazyHandshake(st: State, command: string)
    requires !st.connected
    ensures SendCommand(st, command, false).result.Ok? <==> HandshakeSucceeds(st)
    ensures HandshakeSucceeds(st) ==>
              var s := SendCommand(st, command, false);
              && s.result == Ok(StripLast(ChunkAt(st.inbox, 4)))
              && s.state.connected
              && s.state.outbox == st.outbox + HandshakeLines(st.config) + [command + "\n"]
              && s.state.inbox == Drop(st.inbox, 5)
  {
    HandshakeSucceedsExactly(st);
    var h := EstablishConnection(st);
    if HandshakeSucceeds(st) {
      SendCommandFrames(h.state, command, false);
      DropSucc(st.inbox, 4);
    }
  }

  /** A failed handshake ends `_sendCommand` with the same failure, before the command is sent. */
  lemma HandshakeFailureStopsCommand(st: State, command: string)
    requires !st.connected && EstablishConnection(st).result.Fail?
    ensures SendCommand(st, command, false) ==
            Step(Fail(EstablishConnection(st).result.failure), EstablishConnection(st).state)
  {
  }

  /** A handshake right after a successful one performs no I/O and changes nothing. */
  lemma HandshakeTwice(st: State)
    requires EstablishConnection(st).result.Ok?
    ensures var h := EstablishConnection(st); EstablishConnection(h.state) == h
  {
    if !st.connected {
      HandshakeSucceedsExactly(st);
      HandshakeAccepted(st);
    }
  }

  // ---------------------------------------------------------------- _sendCommands

  /** Each command with its line feed, in order. */
  function Framed(commands: seq<string>): (lines: seq<string>)
  {
    seq(|commands|, i requires 0 <= i < |commands| => commands[i] + "\n")
  }

  /** The loop of `_sendCommands` on a session that needs no handshake, from any point on: what it sends and consumes. */
  lemma {:induction false} SendCommandsFromReadyState(st: State, commands: seq<string>, initMode: bool, results: map<string, string>)
    requires st.connected || initMode
    requires st.socket == Open
    ensures SendCommandsFrom(st, commands, initMode, results).result.Ok?
    ensures SendCommandsFrom(st, commands, initMode, results).state ==
            st.(outbox := st.outbox + Framed(commands), inbox := Drop(st.inbox, |commands|))
    decreases |commands|
  {
    if commands == [] {
      DropZero(st.inbox);
      assert Framed(commands) == [];
    } else {
      SendCommandFrames(st, commands[0], initMode);
      var st' := st.(outbox := st.outbox + [commands[0] + "\n"], inbox := Drop(st.inbox, 1));
      var results' := results[commands[0] := StripLast(ChunkAt(st.inbox, 0))];
      SendCommandsFromReadyState(st', commands[1..], initMode, results');
      assert SendCommandsFrom(st, commands, initMode, results) == SendCommandsFrom(st', commands[1..], initMode, results');
      assert Framed(commands) == [commands[0] + "\n"] + Framed(commands[1..]);
      DropDrop(st.inbox, 1, |commands| - 1);
    }
  }

  /**
   * The loop of `_sendCommands` on a session that needs no handshake, from any
   * point on: the dictionary gains exactly the commands as keys, keeps the other
   * keys, and maps each command to the reply to its last occurrence.
   */
  lemma {:induction false} SendCommandsFromReadyReplies(st: State, commands: seq<string>, initMode: bool, results: map<string, string>)
    requires st.connected || initMode
    requires st.socket == Open
    ensures var s := SendCommandsFrom(st, commands, initMode, results);
      && s.result.Ok?
      && (forall k :: k in s.result.value <==> k in results || k in commands)
      && (forall k :: k in results && k !in commands ==> s.result.value[k] == results[k])
      && (forall i :: 0 <= i < |commands| && commands[i] !in commands[i + 1..] ==>
            s.result.value[commands[i]] == StripLast(ChunkAt(st.inbox, i)))
    decreases |commands|
  {
    if commands != [] {
      var c0, rest := commands[0], commands[1..];
      SendCommandFrames(st, c0, initMode);
      var st' := st.(outbox := st.outbox + [c0 + "\n"], inbox := Drop(st.inbox, 1));
      var results' := results[c0 := StripLast(ChunkAt(st.inbox, 0))];
      SendCommandsFromReadyReplies(st', rest, initMode, results');
      var s := SendCommandsFrom(st, commands, initMode, results);
      assert s == SendCommandsFrom(st', rest, initMode, results');
      forall k ensures k in s.result.value <==> k in results || k in commands {
        assert k in commands <==> k == c0 || k in rest;
      }
      forall i | 0 <= i < |commands| && commands[i] !in commands[i + 1..]
        ensures s.result.value[commands[i]] == StripLast(ChunkAt(st.inbox, i))
      {
        if i == 0 {
          assert rest == commands[i + 1..];
        } else {
          assert commands[i] == rest[i - 1] && commands[i + 1..] == rest[i..];
          DropDrop(st.inbox, 1, i - 1);
        }
      }
    }
  }

  /**
   * On a session that needs no handshake, `_sendCommands` sends every command in
   * list order, consumes one chunk per command, and returns a dictionary whose
   * keys are exactly the commands; a command that occurs more than once maps to
   * the reply to its last occurrence.
   */
  lemma SendCommandsInOrder(st: State, commands: seq<string>, initMode: bool)
    requires st.connected || initMode
    requires st.socket == Open
    ensures var s := SendCommands(st, commands, initMode);
      && s.result.Ok?
      && (forall k :: k in s.result.value <==> k in commands)
      && (forall i :: 0 <= i < |commands| && commands[i] !in commands[i + 1..] ==>
            s.result.value[commands[i]] == StripLast(ChunkAt(st.inbox, i)))
      && s.state.outbox == st.outbox + Framed(commands)
      && s.state.inbox == Drop(st.inbox, |commands|)
  {
    SendCommandsFromReadyState(st, commands, initMode, map[]);
    SendCommandsFromReadyReplies(st, commands, initMode, map[]);
  }

  // ------------------------------------------------------------- _closeConnection

  /** Closing a session that is not connected does nothing. */
  lemma CloseWhenDisconnected(st: State)
    requires !st.connected
    ensures CloseConnection(st) == Step(Ok(()), st)
  {
  }

  /**
   * Closing a connected session sends exactly the quit command, with no
   * handshake, consumes one chunk and closes the socket; the session still
   * counts as connected.
   */
  lemma CloseWhenConnected(st: State)
    requires st.connected && st.socket == Open
    ensures CloseConnection(st) ==
            Step(Ok(()), st.(outbox := st.outbox + [CoQuit + "\n"], inbox := Drop(st.inbox, 1), socket := Closed))
  {
    SendCommandFrames(st, CoQuit, false);
  }

  /** Because `connected` survives the close, closing twice tries to send quit on the closed socket. */
  lemma CloseTwice(st: State)
    requires st.connected && st.socket == Open
    ensures var c := CloseConnection(st);
      CloseConnection(c.state) == Step(Fail(Foreign(SocketError(BadFileDescriptor))), c.state)
  {
    CloseWhenConnected(st);
  }

  // --------------------------------------------------------------- testConnection

  /**
   * `testConnection` sends the group command (handshaking first if needed) and
   * raises only GLS exceptions: a GLS exception passes unchanged, any other one
   * becomes a GLS exception with the unknown-error code whose long message
   * carries the original's text.
   */
  lemma TestConnectionWraps(st: State)
    ensures var t := TestConnection(st);
      var s := SendCommand(st, CoGroup, false);
      && t.state == s.state
      && (t.result.Ok? <==> s.result.Ok?)
      && (t.result.Fail? ==> t.result.failure.Raised?)
      && (s.result.Fail? && s.result.failure.Raised? ==> t.result == Fail(s.result.failure))
      && (s.result.Fail? && s.result.failure.Foreign? ==>
            && t.result.failure.exception.GetErrorCode() == Some(EcUnknownError)
            && t.result.failure.exception.GetLongMsg() == Some("Underlaying error: " + Describe(s.result.failure.error)))
  {
  }

  /**
   * A rejected login surfaces from `testConnection` not as an authentication
   * error but as a GLS exception with the unknown-error code that reports the
   * missing attribute.
   */
  lemma TestConnectionLoginRejected(st: State)
    requires !st.connected && st.config.reachable && Accepted(st.inbox, 1) && !Accepted(st.inbox, 2)
    ensures TestConnection(st).result ==
            Fail(Raised(GLSException(
              "Connection to server could not be established.",
              Some(EcUnknownError),
              Some("Underlaying error: " + Describe(AttributeError("module", "EC_AUTHENTICATION_ERROR"))))))
  {
    AuthenticationFailureIsAttributeError(st.config.clientName);
    HandshakeLoginRejected(st);
    HandshakeFailureStopsCommand(st, CoGroup);
  }

  /** A rejected version reaches the caller of `testConnection` unchanged, with the version code. */
  lemma TestConnectionVersionRejected(st: State)
    requires !st.connected && st.config.reachable && !Accepted(st.inbox, 1)
    ensures TestConnection(st).result.Fail?
    ensures TestConnection(st).result.failure ==
            Raised(VersionNotSupported(StripLast(ChunkAt(st.inbox, 0)), st.config.version))
    ensures TestConnection(st).result.failure.exception.GetErrorCode() == Some(EcVersionNotSupported)
  {
    HandshakeVersionRejected(st);
  }

  // ------------------------------------------------------------------- invariants

  lemma DropIsSuffix(inbox: seq<string>, k: nat)
    ensures |Drop(inbox, k)| <= |inbox|
    ensures Drop(inbox, k) == inbox[|inbox| - |Drop(inbox, k)|..]
  {
  }

  lemma FollowsTransitive(a: State, b: State, c: State)
    requires Follows(a, b) && Follows(b, c)
    ensures Follows(a, c)
  {
    assert a.outbox <= c.outbox;
    var ka, kb := |a.inbox| - |b.inbox|, |b.inbox| - |c.inbox|;
    assert c.inbox == a.inbox[ka..][kb..];
  }

  /** One transmission keeps the invariant and the channel discipline. */
  lemma TransmitKeepsValid(st: State, command: string)
    requires Valid(st)
    ensures Valid(Transmit(st, command).state) && Follows(st, Transmit(st, command).state)
  {
    if st.socket == Open {
      var st' := Transmit(st, command).state;
      assert st'.inbox == Rest(st.inbox);
      assert st.outbox <= st'.outbox;
      if st.inbox != [] {
        assert st'.inbox == st.inbox[|st.inbox| - |st'.inbox|..];
      }
    }
  }

  /** `_sendCommand` keeps the invariant, never changes the parameters, only adds to the outbox and only takes from the inbox. */
  lemma SendCommandKeepsValid(st: State, command: string, initMode: bool)
    requires Valid(st)
    ensures var s := SendCommand(st, command, initMode); Valid(s.state) && Follows(st, s.state)
  {
    if !st.connected && !initMode {
      EstablishConnectionKeepsValid(st);
      var h := EstablishConnection(st);
      if h.result.Ok? {
        TransmitKeepsValid(h.state, command);
        FollowsTransitive(st, h.state, Transmit(h.state, command).state);
      }
    } else {
      TransmitKeepsValid(st, command);
    }
  }

  /** Every state a handshake stage leaves behind follows the state it started from. */
  lemma StageStateFollows(st: State, k: nat, sent: seq<string>, connected: bool)
    ensures Follows(st, Connected(st).(outbox := st.outbox + sent, inbox := Drop(st.inbox, k), connected := connected))
  {
    DropIsSuffix(st.inbox, k);
  }

  /** The handshake keeps the invariant and the channel discipline, whichever way it ends. */
  lemma EstablishConnectionKeepsValid(st: State)
    requires Valid(st)
    ensures var h := EstablishConnection(st); Valid(h.state) && Follows(st, h.state)
  {
    if !st.connected && st.config.reachable {
      var lines := HandshakeLines(st.config);
      if !Accepted(st.inbox, 1) {
        HandshakeVersionRejected(st);
        StageStateFollows(st, 2, lines[..1], false);
      } else if !Accepted(st.inbox, 2) {
        HandshakeLoginRejected(st);
        StageStateFollows(st, 3, lines[..2], false);
      } else if !Accepted(st.inbox, 3) {
        HandshakeDeviceRejected(st);
        StageStateFollows(st, 4, lines, false);
      } else {
        HandshakeAccepted(st);
        StageStateFollows(st, 4, lines, true);
      }
    }
  }

  /** `_sendCommands` keeps the invariant and the channel discipline, also when it stops early. */
  lemma {:induction false} SendCommandsFromKeepsValid(st: State, commands: seq<string>, initMode: bool, results: map<string, string>)
    requires Valid(st)
    ensures var s := SendCommandsFrom(st, commands, initMode, results); Valid(s.state) && Follows(st, s.state)
    decreases |commands|
  {
    if commands != [] {
      SendCommandKeepsValid(st, commands[0], initMode);
      var s := SendCommand(st, commands[0], initMode);
      if s.result.Ok? {
        SendCommandsFromKeepsValid(s.state, commands[1..], initMode, results[commands[0] := s.result.value]);
        FollowsTransitive(st, s.state, SendCommandsFrom(st, commands, initMode, results).state);
      }
    }
  }

  /** Closing keeps the invariant and the channel discipline. */
  lemma CloseConnectionKeepsValid(st: State)
    requires Valid(st)
    ensures var c := CloseConnection(st); Valid(c.state) && Follows(st, c.state)
  {
    if st.connected {
      SendCommandKeepsValid(st, CoQuit, false);
    }
  }

  /** `testConnection` keeps the invariant and the channel discipline. */
  lemma TestConnectionKeepsValid(st: State)
    requires Valid(st)
    ensures var t := TestConnection(st); Valid(t.state) && Follows(st, t.state)
  {
    SendCommandKeepsValid(st, CoGroup, false);
  }
}
