/**
  The TLS WebSocket connection.

  It runs the same chain as the plain variant with a TLS handshake between the
  transport connect and the WebSocket upgrade, sets the TLS server name before
  that handshake, and keeps the `wsconnect` flag. `TlsSpec` gives the handlers
  as written, and beside them corrected versions of the two that misbehave:
  the transport-connect handler, which carries on after the server name could
  not be set, and the close handler, which writes to the object after deleting
  it. `TlsConnection` is the connection object, one method per handler.
*/
module TlsSpec {
  import opened ConnectionBase

  /** The host name handed to the TLS layer: the address, a colon, the port in decimal. */
  function ServerName(s: Conn): string {
    s.address + ":" + Decimal(s.port)
  }

  /** A failure anywhere in the handshake chain: notify, clear `wsconnect`, issue nothing. */
  function ChainFailed(s: Conn): (t: Conn)
    ensures Untouched(s, t) && FailedChain(s, t) && !t.wsconnect && t.buffer == s.buffer && t.stream == s.stream
  {
    s.(wsconnect := false, env := s.env.(fired := DisconnectFired(s.callbacks, s.env.fired), awaiting := Idle))
  }

  /** A failed resolve ends the attempt; a successful one arms the 30-second deadline and connects. */
  function OnResolve(s: Conn, ec: ErrorCode): (t: Conn)
    ensures Untouched(s, t) && t.buffer == s.buffer
    ensures ec != Success ==> FailedChain(s, t) && !t.wsconnect && t.stream == s.stream
    ensures ec == Success ==>
      Continued(s, t, Connecting, ConnectOp) && t.stream.timeout == Armed30 && t.wsconnect == s.wsconnect
  {
    if ec != Success then ChainFailed(s)
    else
      s.(stream := s.stream.(timeout := Armed30),
         env := s.env.(awaiting := Connecting, ops := s.env.ops + [ConnectOp]))
  }

  /**
    As written: the deadline is re-armed and the server name set; when setting
    it fails the disconnect callback fires and `wsconnect` is cleared, and the
    TLS handshake is issued all the same.
  */
  function OnConnect(s: Conn, ec: ErrorCode, serverNameSet: bool): (t: Conn)
    ensures Untouched(s, t) && t.buffer == s.buffer
    ensures ec != Success ==> FailedChain(s, t) && !t.wsconnect && t.stream == s.stream
    ensures ec == Success ==>
      && t.env.awaiting == TlsHandshaking && t.env.ops == s.env.ops + [TlsHandshakeOp]
      && t.stream.timeout == Armed30 && t.stream.keepAlivePings == s.stream.keepAlivePings
    ensures ec == Success && serverNameSet ==>
      t.stream.serverName == Some(ServerName(s)) && t.env.fired == s.env.fired && t.wsconnect == s.wsconnect
    ensures ec == Success && !serverNameSet ==>
      t.stream.serverName == s.stream.serverName && t.env.fired == DisconnectFired(s.callbacks, s.env.fired) && !t.wsconnect
  {
    if ec != Success then ChainFailed(s)
    else
      var armed := s.(stream := s.stream.(timeout := Armed30));
      var named :=
        if serverNameSet then armed.(stream := armed.stream.(serverName := Some(ServerName(s))))
        else armed.(wsconnect := false, env := armed.env.(fired := DisconnectFired(s.callbacks, s.env.fired)));
      named.(env := named.env.(awaiting := TlsHandshaking, ops := named.env.ops + [TlsHandshakeOp]))
  }

  /** Corrected: a server name that cannot be set ends the attempt like any other chain failure. */
  function OnConnectFixed(s: Conn, ec: ErrorCode, serverNameSet: bool): (t: Conn)
    ensures ec != Success || !serverNameSet ==>
      Untouched(s, t) && FailedChain(s, t) && !t.wsconnect && t.stream == s.stream && t.buffer == s.buffer
    ensures ec == Success && serverNameSet ==> t == OnConnect(s, ec, serverNameSet)
  {
    if ec != Success || !serverNameSet then ChainFailed(s)
    else OnConnect(s, ec, serverNameSet)
  }

  /** Clears the deadline, applies keep-alive pings and the header decorator, and issues the upgrade. */
  function OnSslHandshake(s: Conn, ec: ErrorCode): (t: Conn)
    ensures Untouched(s, t) && t.buffer == s.buffer && t.stream.serverName == s.stream.serverName
    ensures ec != Success ==> FailedChain(s, t) && !t.wsconnect && t.stream == s.stream
    ensures ec == Success ==>
      && Continued(s, t, Upgrading, UpgradeOp(s.address, s.endpoint)) && t.wsconnect == s.wsconnect
      && t.stream.timeout == Never && t.stream.keepAlivePings && t.stream.decorator
  {
    if ec != Success then ChainFailed(s)
    else
      s.(stream := s.stream.(timeout := Never, keepAlivePings := true, decorator := true),
         env := s.env.(awaiting := Upgrading, ops := s.env.ops + [UpgradeOp(s.address, s.endpoint)]))
  }

  /** A successful upgrade clears the buffer, reports the connection, sets `wsconnect` and starts the read loop. */
  function OnHandshake(s: Conn, ec: ErrorCode): (t: Conn)
    ensures Untouched(s, t) && t.stream == s.stream
    ensures ec != Success ==> FailedChain(s, t) && !t.wsconnect && t.buffer == s.buffer
    ensures ec == Success ==>
      && t.buffer == [] && t.wsconnect && t.env.awaiting == Reading && t.env.ops == s.env.ops + [ReadOp]
      && t.env.fired == ConnectFired(s.callbacks, s.env.fired)
  {
    if ec != Success then ChainFailed(s)
    else
      s.(buffer := [], wsconnect := true,
         env := s.env.(fired := ConnectFired(s.callbacks, s.env.fired), awaiting := Reading,
                       ops := s.env.ops + [ReadOp]))
  }

  /**
    `n` is the number of bytes the completed read left at the front of the
    buffer. A failed read deletes the object when the owner has let go of it, and
    otherwise notifies and clears `wsconnect`.
  */
  function OnRead(s: Conn, ec: ErrorCode, n: nat): (t: Conn)
    requires n <= |s.buffer|
    ensures SameIdentity(s, t) && t.stream == s.stream
    ensures t.pendingDelete == s.pendingDelete && t.env.afterFree == s.env.afterFree
    ensures ec == Success ==>
      && t.buffer == s.buffer[n..] && t.env.awaiting == s.env.awaiting && t.env.ops == s.env.ops + [ReadOp]
      && t.env.fired == ReadFired(s.callbacks, s.env.fired, s.buffer[..n]) && t.env.deletes == s.env.deletes
      && t.wsconnect == s.wsconnect
    ensures ec != Success ==> t.env.awaiting == Idle && t.env.ops == s.env.ops && t.buffer == s.buffer
    ensures ec != Success && s.pendingDelete ==>
      t.env.deletes == s.env.deletes + 1 && t.env.fired == s.env.fired && t.wsconnect == s.wsconnect
    ensures ec != Success && !s.pendingDelete ==>
      t.env.deletes == s.env.deletes && t.env.fired == DisconnectFired(s.callbacks, s.env.fired) && !t.wsconnect
  {
    if ec != Success then
      if s.pendingDelete then s.(env := s.env.(deletes := s.env.deletes + 1, awaiting := Idle))
      else ChainFailed(s)
    else
      s.(buffer := s.buffer[n..],
         env := s.env.(fired := ReadFired(s.callbacks, s.env.fired, s.buffer[..n]),
                       ops := s.env.ops + [ReadOp]))
  }

  /**
    As written: `wsconnect` is cleared on every path, also after the object has
    deleted itself, which is a write to released memory.
  */
  function OnClose(s: Conn, ec: ErrorCode): (t: Conn)
    requires s.env.closes > 0
    ensures !t.wsconnect && t.env.closes + 1 == s.env.closes
    ensures var deleting := ec != Success && s.pendingDelete;
      && t.env.deletes == s.env.deletes + (if deleting then 1 else 0)
      && t.env.afterFree == (s.env.afterFree || deleting)
    ensures t.(wsconnect := s.wsconnect, env := t.env.(closes := s.env.closes, deletes := s.env.deletes, afterFree := s.env.afterFree)) == s
  {
    if ec != Success && s.pendingDelete then
      s.(wsconnect := false,
         env := s.env.(closes := s.env.closes - 1, deletes := s.env.deletes + 1, afterFree := true))
    else
      s.(wsconnect := false, env := s.env.(closes := s.env.closes - 1))
  }

  /** Corrected: a failed read with `pending_delete` set ends the read loop silently, clears `wsconnect`, and leaves the deletion to `Release`. */
  function OnReadFixed(s: Conn, ec: ErrorCode, n: nat): (t: Conn)
    requires n <= |s.buffer|
    ensures t.env.deletes == s.env.deletes
    ensures !(ec != Success && s.pendingDelete) ==> t == OnRead(s, ec, n)
    ensures ec != Success && s.pendingDelete ==>
      t.(wsconnect := s.wsconnect, env := t.env.(deletes := s.env.deletes + 1)) == OnRead(s, ec, n) && !t.wsconnect
  {
    if ec != Success && s.pendingDelete then s.(wsconnect := false, env := s.env.(awaiting := Idle))
    else OnRead(s, ec, n)
  }

  /** Corrected: a close completion clears `wsconnect`, retires the close, and leaves the deletion to `Release`. */
  function OnCloseFixed(s: Conn, ec: ErrorCode): (t: Conn)
    requires s.env.closes > 0
    ensures t.env.deletes == s.env.deletes && t.env.afterFree == s.env.afterFree
    ensures t.(env := t.env.(deletes := OnClose(s, ec).env.deletes, afterFree := OnClose(s, ec).env.afterFree)) == OnClose(s, ec)
  {
    s.(wsconnect := false, env := s.env.(closes := s.env.closes - 1))
  }

  /** The handler an enabled input runs, as written. */
  function Handle(s: Conn, x: Input): (t: Conn)
    requires Enabled(s, x)
    ensures SameIdentity(s, t) && (s.env.afterFree ==> t.env.afterFree)
  {
    match x
    case Resolved(ec) => OnResolve(s, ec)
    case TransportConnected(ec, named) => OnConnect(s, ec, named)
    case TlsHandshaken(ec) => OnSslHandshake(s, ec)
    case Upgraded(ec) => OnHandshake(s, ec)
    case ReadDone(ec, frame) =>
      if ec == Success then OnRead(s.(buffer := s.buffer + frame), ec, |frame|)
      else OnRead(s, ec, 0)
    case WriteDone(ec) => OnWrite(s, ec)
    case CloseDone(ec) => OnClose(s, ec)
    case UserWrite(bytes) => Write(s, bytes)
    case UserClose => Close(s)
    case Abandon => s.(pendingDelete := true)
  }

  /**
    The corrected handlers: the transport-connect handler returns after a
    server-name failure, and no handler deletes the object itself; after every
    input it is deleted once the owner has let go of it and nothing is outstanding.
  */
  function HandleFixed(s: Conn, x: Input): (t: Conn)
    requires Enabled(s, x)
    ensures SameIdentity(s, t) && t.env.afterFree == s.env.afterFree
    ensures s.env.deletes == 0 ==> t.env.deletes == (if t.pendingDelete && Quiescent(t) then 1 else 0)
  {
    Release(
      match x
      case TransportConnected(ec, named) => OnConnectFixed(s, ec, named)
      case ReadDone(ec, frame) =>
        if ec == Success then Handle(s, x) else OnReadFixed(s, ec, 0)
      case CloseDone(ec) => OnCloseFixed(s, ec)
      case _ => Handle(s, x))
  }

  /** One input; see `PlainSpec.Step`. */
  function Step(s: Conn, x: Input): (t: Conn)
    ensures SameIdentity(s, t)
    ensures !Enabled(s, x) ==> t == s
    ensures Enabled(s, x) && s.env.deletes > 0 ==> t.env.afterFree
  {
    if !Enabled(s, x) then s
    else if s.env.deletes > 0 then Freed(Handle(s, x))
    else Handle(s, x)
  }

  function StepFixed(s: Conn, x: Input): (t: Conn)
    ensures SameIdentity(s, t)
  {
    if !Enabled(s, x) then s
    else if s.env.deletes > 0 then Freed(HandleFixed(s, x))
    else HandleFixed(s, x)
  }

  function Run(s: Conn, xs: seq<Input>): Conn
    decreases |xs|
  {
    if xs == [] then s else Run(Step(s, xs[0]), xs[1..])
  }

  function RunFixed(s: Conn, xs: seq<Input>): Conn
    decreases |xs|
  {
    if xs == [] then s else RunFixed(StepFixed(s, xs[0]), xs[1..])
  }

  function Attempt(address: string, endpoint: string, port: Port, cbs: Callbacks): Conn {
    Connect(Init(address, endpoint, port).(callbacks := cbs))
  }

  // ---------------------------------------------------------------------------
  // Invariants

  /**
    The deadline is armed through the transport connect and the TLS handshake
    and cleared, with pings and decorator applied, from the upgrade on; the
    buffer is empty between reads; a live object with `wsconnect` set is in its
    read loop.
  */
  ghost predicate StreamInv(s: Conn) {
    && s.env.deletes <= 1
    && (s.env.awaiting in {Connecting, TlsHandshaking} ==> s.stream.timeout == Armed30)
    && (s.env.awaiting in {Upgrading, Reading} ==>
          s.stream.timeout == Never && s.stream.keepAlivePings && s.stream.decorator)
    && (s.env.awaiting == Reading ==> s.buffer == [])
    && (s.wsconnect && s.env.deletes == 0 ==> s.env.awaiting == Reading)
  }

  /**
    As written, the disconnect callback can fire twice in one attempt, and no
    more; when both callbacks are installed, the read loop runs only after the
    connect callback fired, and a finished chain has fired one of them.
  */
  ghost predicate NotifyInv(s: Conn) {
    var c, d := Connects(s.env.fired), Disconnects(s.env.fired);
    && c <= 1 && d <= 2
    && (s.env.awaiting in {Resolving, Connecting} ==> c == 0 && d == 0)
    && (s.env.awaiting in {TlsHandshaking, Upgrading} ==> c == 0 && d <= 1)
    && (s.env.awaiting == Reading ==> d <= 1)
    && (Installed(s.callbacks) && s.env.awaiting == Reading ==> c == 1)
    && (Installed(s.callbacks) && s.env.awaiting == Idle ==> c + d >= 1)
  }

  ghost predicate LiveInv(s: Conn) {
    StreamInv(s) && NotifyInv(s)
  }

  /** As written, the invariant holds until a handler has run on released memory. */
  ghost predicate Inv(s: Conn) {
    s.env.afterFree || LiveInv(s)
  }

  /**
    With the corrected handlers: one notification at most of each kind, none
    before the chain ends, one of them when it has ended with both installed,
    and the server name is set whenever the TLS handshake or anything after it
    is under way.
  */
  ghost predicate NotifyInvFixed(s: Conn) {
    var c, d := Connects(s.env.fired), Disconnects(s.env.fired);
    && c <= 1 && d <= 1
    && (s.env.awaiting in {Resolving, Connecting, TlsHandshaking, Upgrading} ==> c == 0 && d == 0)
    && (s.env.awaiting == Reading ==> d == 0)
    && (Installed(s.callbacks) && s.env.awaiting == Reading ==> c == 1)
    && (Installed(s.callbacks) && s.env.awaiting == Idle ==> c + d >= 1)
    && (s.env.awaiting in {TlsHandshaking, Upgrading, Reading} ==> s.stream.serverName == Some(ServerName(s)))
  }

  ghost predicate InvFixed(s: Conn) {
    StreamInv(s) && NotifyInvFixed(s) && ReleaseInv(s)
  }

  lemma AttemptInv(address: string, endpoint: string, port: Port, cbs: Callbacks)
    ensures var s := Attempt(address, endpoint, port, cbs); LiveInv(s) && Inv(s) && InvFixed(s)
  {
  }

  // As written

  lemma StepInv(s: Conn, x: Input)
    requires Inv(s)
    ensures Inv(Step(s, x))
  {
    if Enabled(s, x) && s.env.deletes == 0 && !s.env.afterFree {
      match x
      case Resolved(ec) => ResolveInv(s, ec);
      case TransportConnected(ec, named) => ConnectInv(s, ec, named);
      case TlsHandshaken(ec) => SslHandshakeInv(s, ec);
      case Upgraded(ec) => HandshakeInv(s, ec);
      case ReadDone(ec, frame) => ReadInv(s, ec, frame);
      case WriteDone(ec) => SideInv(s, x);
      case CloseDone(ec) => SideInv(s, x);
      case UserWrite(bytes) => SideInv(s, x);
      case UserClose => SideInv(s, x);
      case Abandon => SideInv(s, x);
    }
  }

  lemma ResolveInv(s: Conn, ec: ErrorCode)
    requires LiveInv(s) && s.env.awaiting == Resolving && s.env.deletes == 0
    ensures LiveInv(Step(s, Resolved(ec)))
  {
  }

  lemma ConnectInv(s: Conn, ec: ErrorCode, named: bool)
    requires LiveInv(s) && s.env.awaiting == Connecting && s.env.deletes == 0
    ensures LiveInv(Step(s, TransportConnected(ec, named)))
  {
    var t := OnConnect(s, ec, named);
    assert Step(s, TransportConnected(ec, named)) == t;
    if ec != Success {
      assert t == ChainFailed(s);
    } else if !named {
      assert Disconnects(t.env.fired) <= 1;
    }
  }

  lemma SslHandshakeInv(s: Conn, ec: ErrorCode)
    requires LiveInv(s) && s.env.awaiting == TlsHandshaking && s.env.deletes == 0
    ensures LiveInv(Step(s, TlsHandshaken(ec)))
  {
  }

  lemma HandshakeInv(s: Conn, ec: ErrorCode)
    requires LiveInv(s) && s.env.awaiting == Upgrading && s.env.deletes == 0
    ensures LiveInv(Step(s, Upgraded(ec)))
  {
  }

  lemma ReadInv(s: Conn, ec: ErrorCode, frame: seq<Byte>)
    requires LiveInv(s) && s.env.awaiting == Reading && s.env.deletes == 0
    ensures LiveInv(Step(s, ReadDone(ec, frame)))
  {
    if ec == Success {
      assert (s.buffer + frame)[|frame|..] == [];
    }
  }

  /** Write and close completions and owner calls; a failed close with `pending_delete` set writes after the delete. */
  lemma SideInv(s: Conn, x: Input)
    requires LiveInv(s) && Enabled(s, x) && s.env.deletes == 0
    requires x.WriteDone? || x.CloseDone? || x.UserWrite? || x.UserClose? || x.Abandon?
    ensures Inv(Step(s, x))
  {
  }

  lemma {:induction false} RunInv(s: Conn, xs: seq<Input>)
    requires Inv(s)
    ensures Inv(Run(s, xs)) && SameIdentity(s, Run(s, xs))
    decreases |xs|
  {
    if xs != [] {
      StepInv(s, xs[0]);
      RunInv(Step(s, xs[0]), xs[1..]);
    }
  }

  /**
    As written, as long as no handler has run on released memory, an attempt
    fires the connect callback at most once and the disconnect callback at
    most twice, neither before the TLS handshake is issued; with both
    installed, the read loop runs only after the connect callback fired and
    a finished chain has fired at least one of them; the deadline is armed through the transport connect and the
    TLS handshake and cleared from the upgrade on, with keep-alive pings
    applied; a live object with `wsconnect` set is reading, and the object has
    deleted itself at most once.
  */
  lemma AttemptNotifiesAtMostTwice(address: string, endpoint: string, port: Port, cbs: Callbacks, xs: seq<Input>)
    ensures var t := Run(Attempt(address, endpoint, port, cbs), xs);
      !t.env.afterFree ==>
        && Connects(t.env.fired) <= 1 && Disconnects(t.env.fired) <= 2 && t.env.deletes <= 1
        && (t.env.awaiting in {Resolving, Connecting} ==> Connects(t.env.fired) == 0 && Disconnects(t.env.fired) == 0)
        && (Installed(t.callbacks) && t.env.awaiting == Reading ==> Connects(t.env.fired) == 1)
        && (Installed(t.callbacks) && t.env.awaiting == Idle ==> Connects(t.env.fired) + Disconnects(t.env.fired) >= 1)
        && (t.env.awaiting in {Connecting, TlsHandshaking} ==> t.stream.timeout == Armed30)
        && (t.env.awaiting in {Upgrading, Reading} ==> t.stream.timeout == Never && t.stream.keepAlivePings)
        && (t.wsconnect && t.env.deletes == 0 ==> t.env.awaiting == Reading)
  {
    AttemptInv(address, endpoint, port, cbs);
    RunInv(Attempt(address, endpoint, port, cbs), xs);
  }

  lemma {:induction false} RunAppend(s: Conn, xs: seq<Input>, ys: seq<Input>)
    ensures Run(s, xs + ys) == Run(Run(s, xs), ys)
    decreases |xs|
  {
    if xs == [] {
      assert xs + ys == ys;
    } else {
      assert (xs + ys)[0] == xs[0] && (xs + ys)[1..] == xs[1..] + ys;
      RunAppend(Step(s, xs[0]), xs[1..], ys);
    }
  }

  /** A resolution and a transport connect whose server name is refused: the disconnect fires and the TLS handshake is outstanding. */
  lemma SniRefused(s: Conn)
    requires s.env.awaiting == Resolving && s.env.deletes == 0 && s.stream.serverName == None
    ensures var t := Run(s, [Resolved(Success), TransportConnected(Success, false)]);
      && t.env.awaiting == TlsHandshaking && t.env.fired == DisconnectFired(s.callbacks, s.env.fired)
      && t.callbacks == s.callbacks && t.stream.serverName == None && t.env.deletes == 0
  {
    var x0, x1 := Resolved(Success), TransportConnected(Success, false);
    var s1 := Step(s, x0);
    assert s1 == OnResolve(s, Success);
    var s2 := Step(s1, x1);
    assert s2 == OnConnect(s1, Success, false);
    assert [x0, x1][1..] == [x1] && [x1][1..] == [];
    assert Run(s, [x0, x1]) == Run(s1, [x1]) == s2;
  }

  /** From a refused server name, a failed TLS handshake reports the disconnect again. */
  lemma RefusedThenTlsFails(s: Conn, e: ErrorCode)
    requires s.env.awaiting == TlsHandshaking && s.env.deletes == 0 && e != Success
    ensures var t := Run(s, [TlsHandshaken(e)]);
      t.env.fired == DisconnectFired(s.callbacks, s.env.fired) && t.env.awaiting == Idle
  {
    var x := TlsHandshaken(e);
    var t := Step(s, x);
    assert t == OnSslHandshake(s, e);
    assert [x][1..] == [];
    assert Run(s, [x]) == t;
  }

  /** From a refused server name, both handshakes can still succeed and report the connection. */
  lemma RefusedThenUpgrades(s: Conn)
    requires s.env.awaiting == TlsHandshaking && s.env.deletes == 0 && s.stream.serverName == None
    ensures var t := Run(s, [TlsHandshaken(Success), Upgraded(Success)]);
      && t.env.fired == ConnectFired(s.callbacks, s.env.fired) && t.wsconnect && t.env.awaiting == Reading
      && t.stream.serverName == None
  {
    var x2, x3 := TlsHandshaken(Success), Upgraded(Success);
    var s3 := Step(s, x2);
    assert s3 == OnSslHandshake(s, Success);
    var s4 := Step(s3, x3);
    assert s4 == OnHandshake(s3, Success);
    assert [x2, x3][1..] == [x3] && [x3][1..] == [];
    assert Run(s, [x2, x3]) == Run(s3, [x3]) == s4;
  }

  /**
    The missing return, shown on one attempt: the server name cannot be set, the
    disconnect callback fires, the TLS handshake is issued anyway and fails, and
    the disconnect callback fires a second time.
  */
  lemma SniFailureNotifiesTwice(address: string, endpoint: string, port: Port, h: Handler, e: ErrorCode)
    requires e != Success
    ensures var t := Run(Attempt(address, endpoint, port, Callbacks(None, Some(h), None)),
                         [Resolved(Success), TransportConnected(Success, false), TlsHandshaken(e)]);
      t.env.fired == [Disconnected(h), Disconnected(h)] && t.env.awaiting == Idle
  {
    var x0, x1, x2 := Resolved(Success), TransportConnected(Success, false), TlsHandshaken(e);
    var cbs := Callbacks(None, Some(h), None);
    var s0 := Attempt(address, endpoint, port, cbs);
    var s2 := Run(s0, [x0, x1]);
    SniRefused(s0);
    RefusedThenTlsFails(s2, e);
    assert Run(s0, [x0, x1, x2]) == Run(s2, [x2]) by {
      assert [x0, x1] + [x2] == [x0, x1, x2];
      RunAppend(s0, [x0, x1], [x2]);
    }
  }

  /**
    The same missing return also lets an attempt report both outcomes: after
    the disconnect callback for the server name, the handshakes succeed, the
    connect callback fires and `wsconnect` ends up set, with no server name.
  */
  lemma SniFailureConnectsAfterDisconnect(address: string, endpoint: string, port: Port, c: Handler, d: Handler)
    ensures var t := Run(Attempt(address, endpoint, port, Callbacks(Some(c), Some(d), None)),
                         [Resolved(Success), TransportConnected(Success, false), TlsHandshaken(Success), Upgraded(Success)]);
      && t.env.fired == [Disconnected(d), Connected(c)] && t.wsconnect && t.env.awaiting == Reading
      && t.stream.serverName == None
  {
    var x0, x1, x2, x3 := Resolved(Success), TransportConnected(Success, false), TlsHandshaken(Success), Upgraded(Success);
    var cbs := Callbacks(Some(c), Some(d), None);
    var s0 := Attempt(address, endpoint, port, cbs);
    var s2 := Run(s0, [x0, x1]);
    SniRefused(s0);
    RefusedThenUpgrades(s2);
    assert Run(s0, [x0, x1, x2, x3]) == Run(s2, [x2, x3]) by {
      assert [x0, x1] + [x2, x3] == [x0, x1, x2, x3];
      RunAppend(s0, [x0, x1], [x2, x3]);
    }
  }

  /**
    The write after delete, shown on one close: with `pending_delete` set, a
    failed close deletes the object and then clears `wsconnect` in it.
  */
  lemma CloseErrorWritesAfterDelete(s: Conn, e: ErrorCode)
    requires s.env.deletes == 0 && s.env.closes > 0 && s.pendingDelete && e != Success
    ensures var t := Step(s, CloseDone(e)); t.env.deletes == 1 && t.env.afterFree
  {
  }

  /**
    Letting go of a connection during its read loop, as written: with
    `pending_delete` set and a close outstanding, a failed read and a failed
    close both delete the object, in either order; the second of them runs on
    released memory and deletes it again.
  */
  lemma ReleaseDeletesTwice(s: Conn, e: ErrorCode, r: ErrorCode)
    requires s.env.awaiting == Reading && s.env.deletes == 0 && s.pendingDelete && s.env.closes > 0
    requires e != Success && r != Success
    ensures var t := Run(s, [ReadDone(r, []), CloseDone(e)]); t.env.afterFree && t.env.deletes == 2
    ensures var t := Run(s, [CloseDone(e), ReadDone(r, [])]); t.env.afterFree && t.env.deletes == 2
  {
    var u1 := Step(s, ReadDone(r, []));
    assert u1.env.deletes == 1 && u1.env.closes > 0 && u1.pendingDelete;
    var v1 := Step(u1, CloseDone(e));
    assert [ReadDone(r, []), CloseDone(e)][1..] == [CloseDone(e)];
    assert Run(u1, [CloseDone(e)]) == Run(v1, []);
    var u2 := Step(s, CloseDone(e));
    assert u2.env.deletes == 1 && u2.env.awaiting == Reading && u2.pendingDelete;
    var v2 := Step(u2, ReadDone(r, []));
    assert [CloseDone(e), ReadDone(r, [])][1..] == [ReadDone(r, [])];
    assert Run(u2, [ReadDone(r, [])]) == Run(v2, []);
  }

  // Corrected

  lemma StepInvFixed(s: Conn, x: Input)
    requires InvFixed(s)
    ensures InvFixed(StepFixed(s, x)) && SameIdentity(s, StepFixed(s, x))
  {
    if Enabled(s, x) && s.env.deletes == 0 {
      match x
      case Resolved(ec) => ResolveInvFixed(s, ec);
      case TransportConnected(ec, named) => ConnectInvFixed(s, ec, named);
      case TlsHandshaken(ec) => SslHandshakeInvFixed(s, ec);
      case Upgraded(ec) => HandshakeInvFixed(s, ec);
      case ReadDone(ec, frame) => ReadInvFixed(s, ec, frame);
      case WriteDone(ec) => SideInvFixed(s, x);
      case CloseDone(ec) => SideInvFixed(s, x);
      case UserWrite(bytes) => SideInvFixed(s, x);
      case UserClose => SideInvFixed(s, x);
      case Abandon => SideInvFixed(s, x);
    }
  }

  lemma ResolveInvFixed(s: Conn, ec: ErrorCode)
    requires InvFixed(s) && s.env.awaiting == Resolving && s.env.deletes == 0
    ensures var t := StepFixed(s, Resolved(ec)); InvFixed(t) && SameIdentity(s, t)
  {
    var u := OnResolve(s, ec);
    assert StepFixed(s, Resolved(ec)) == Release(u);
    ReleaseKeepsInvFixed(u);
  }

  lemma ConnectInvFixed(s: Conn, ec: ErrorCode, named: bool)
    requires InvFixed(s) && s.env.awaiting == Connecting && s.env.deletes == 0
    ensures var t := StepFixed(s, TransportConnected(ec, named)); InvFixed(t) && SameIdentity(s, t)
  {
    var u := OnConnectFixed(s, ec, named);
    assert StepFixed(s, TransportConnected(ec, named)) == Release(u);
    if ec != Success || !named {
      assert u == ChainFailed(s);
    } else {
      assert ServerName(u) == ServerName(s);
      assert u.stream.serverName == Some(ServerName(s)) && u.env.fired == s.env.fired;
    }
    ReleaseKeepsInvFixed(u);
  }

  lemma SslHandshakeInvFixed(s: Conn, ec: ErrorCode)
    requires InvFixed(s) && s.env.awaiting == TlsHandshaking && s.env.deletes == 0
    ensures var t := StepFixed(s, TlsHandshaken(ec)); InvFixed(t) && SameIdentity(s, t)
  {
    var u := OnSslHandshake(s, ec);
    SslHandshakeKeepsFixed(s, ec);
    assert StepFixed(s, TlsHandshaken(ec)) == Release(u);
    ReleaseKeepsInvFixed(u);
  }

  lemma SslHandshakeKeepsFixed(s: Conn, ec: ErrorCode)
    requires InvFixed(s) && s.env.awaiting == TlsHandshaking && s.env.deletes == 0
    ensures var u := OnSslHandshake(s, ec);
      StreamInv(u) && NotifyInvFixed(u) && !u.env.afterFree && u.env.deletes == 0
  {
    var u := OnSslHandshake(s, ec);
    if ec != Success {
      assert u == ChainFailed(s);
    } else {
      assert ServerName(u) == ServerName(s);
      assert u.env.fired == s.env.fired;
    }
  }

  lemma HandshakeInvFixed(s: Conn, ec: ErrorCode)
    requires InvFixed(s) && s.env.awaiting == Upgrading && s.env.deletes == 0
    ensures var t := StepFixed(s, Upgraded(ec)); InvFixed(t) && SameIdentity(s, t)
  {
    var u := OnHandshake(s, ec);
    assert StepFixed(s, Upgraded(ec)) == Release(u);
    if ec != Success {
      assert u == ChainFailed(s);
    } else {
      assert ServerName(u) == ServerName(s);
      assert u.env.fired == ConnectFired(s.callbacks, s.env.fired);
    }
    ReleaseKeepsInvFixed(u);
  }

  /** Deleting a quiescent object the owner has let go of keeps the corrected invariant. */
  lemma ReleaseKeepsInvFixed(u: Conn)
    requires StreamInv(u) && NotifyInvFixed(u) && !u.env.afterFree && u.env.deletes == 0
    ensures InvFixed(Release(u))
  {
    var t := Release(u);
    assert t.env.fired == u.env.fired && t.env.awaiting == u.env.awaiting && t.stream == u.stream;
    assert ServerName(t) == ServerName(u);
  }

  lemma ReadInvFixed(s: Conn, ec: ErrorCode, frame: seq<Byte>)
    requires InvFixed(s) && s.env.awaiting == Reading && s.env.deletes == 0
    ensures var t := StepFixed(s, ReadDone(ec, frame)); InvFixed(t) && SameIdentity(s, t)
  {
    if ec == Success {
      assert (s.buffer + frame)[|frame|..] == [];
    }
  }

  lemma SideInvFixed(s: Conn, x: Input)
    requires InvFixed(s) && Enabled(s, x) && s.env.deletes == 0
    requires x.WriteDone? || x.CloseDone? || x.UserWrite? || x.UserClose? || x.Abandon?
    ensures var t := StepFixed(s, x); InvFixed(t) && SameIdentity(s, t)
  {
  }

  lemma {:induction false} RunInvFixed(s: Conn, xs: seq<Input>)
    requires InvFixed(s)
    ensures InvFixed(RunFixed(s, xs)) && SameIdentity(s, RunFixed(s, xs))
    decreases |xs|
  {
    if xs != [] {
      StepInvFixed(s, xs[0]);
      RunInvFixed(StepFixed(s, xs[0]), xs[1..]);
    }
  }

  /**
    With the corrected handlers an attempt notifies as the plain variant does:
    each callback at most once, nothing while the chain runs, one outcome once
    it has ended with both installed; the TLS handshake never runs without the
    server name; and no handler runs on released memory, the object being
    deleted once, exactly when the owner has let go of it and nothing is
    outstanding.
  */
  lemma FixedAttemptNotifiesOnce(address: string, endpoint: string, port: Port, cbs: Callbacks, xs: seq<Input>)
    ensures var t := RunFixed(Attempt(address, endpoint, port, cbs), xs);
      && Connects(t.env.fired) <= 1 && Disconnects(t.env.fired) <= 1
      && (t.env.awaiting in {Resolving, Connecting, TlsHandshaking, Upgrading} ==>
            Connects(t.env.fired) == 0 && Disconnects(t.env.fired) == 0)
      && (Installed(cbs) && t.env.awaiting == Idle ==> Connects(t.env.fired) + Disconnects(t.env.fired) >= 1)
      && (t.env.awaiting in {TlsHandshaking, Upgrading, Reading} ==>
            t.stream.serverName == Some(address + ":" + Decimal(port)))
      && !t.env.afterFree && t.env.deletes <= 1
      && (t.env.deletes == 1 <==> t.pendingDelete && Quiescent(t))
  {
    AttemptInv(address, endpoint, port, cbs);
    RunInvFixed(Attempt(address, endpoint, port, cbs), xs);
  }

  /**
    The corrected close handler clears `wsconnect` and retires the close; the
    object is then deleted, with nothing written to it afterwards, exactly
    when the owner has let go of it and nothing else is outstanding.
  */
  lemma OnCloseFixedNoWriteAfterDelete(s: Conn, e: ErrorCode)
    requires s.env.deletes == 0 && s.env.closes > 0 && s.pendingDelete
    ensures var t := StepFixed(s, CloseDone(e));
      && t.env.afterFree == s.env.afterFree && !t.wsconnect
      && t == s.(wsconnect := false, env := s.env.(closes := s.env.closes - 1, deletes := t.env.deletes))
      && (t.env.deletes == 1 <==> Quiescent(t))
      && t.env.deletes <= 1
  {
  }

  // ---------------------------------------------------------------------------
  // Single handlers

  /**
    The server name is the address, then a colon, then digits that denote the
    port and have no leading zero.
  */
  lemma ServerNameEncodesPort(s: Conn)
    ensures var n := ServerName(s);
      && n[..|s.address|] == s.address && n[|s.address|] == ':'
      && AllDigits(n[|s.address| + 1..]) && DigitsValue(n[|s.address| + 1..]) == s.port
      && (n[|s.address| + 1] == '0' ==> s.port == 0)
  {
    var n := ServerName(s);
    assert n[|s.address| + 1..] == Decimal(s.port);
    DecimalRoundTrip(s.port);
  }

  /**
    A successful transport connect with the server name set re-arms the
    deadline, sets the name to `address:port` and issues exactly the TLS
    handshake, firing nothing.
  */
  lemma ConnectSetsServerName(s: Conn)
    requires s.env.awaiting == Connecting && s.env.deletes == 0
    ensures var t := Step(s, TransportConnected(Success, true));
      && t.stream.timeout == Armed30 && t.stream.serverName == Some(s.address + ":" + Decimal(s.port))
      && t.env.ops == s.env.ops + [TlsHandshakeOp] && t.env.awaiting == TlsHandshaking
      && t.env.fired == s.env.fired && t.wsconnect == s.wsconnect
  {
  }

  /**
    Every failure of the handshake chain fires the disconnect callback if it is
    installed, clears `wsconnect` and issues nothing further.
  */
  lemma ChainFailureClearsWsconnect(s: Conn, x: Input)
    requires s.env.deletes == 0 && Enabled(s, x)
    requires x.Resolved? || x.TransportConnected? || x.TlsHandshaken? || x.Upgraded?
    requires x.ec != Success
    ensures var t := Step(s, x);
      && !t.wsconnect && t.env.ops == s.env.ops && t.env.awaiting == Idle
      && t.env.fired == DisconnectFired(s.callbacks, s.env.fired) && t.buffer == s.buffer
  {
  }

  /**
    During the read loop every frame is delivered, byte for byte, to the read
    callback, the buffer is left empty and exactly one new read is issued; a
    failed read deletes the object silently when the owner has let go of it,
    and otherwise notifies and clears `wsconnect`.
  */
  lemma ReadLoop(s: Conn, ec: ErrorCode, frame: seq<Byte>)
    requires StreamInv(s) && s.env.awaiting == Reading && s.env.deletes == 0
    ensures var t := Step(s, ReadDone(ec, frame));
      && (ec == Success ==>
            && t.buffer == [] && t.env.awaiting == Reading && t.env.ops == s.env.ops + [ReadOp]
            && t.env.fired == ReadFired(s.callbacks, s.env.fired, frame) && t.wsconnect == s.wsconnect)
      && (ec != Success ==> t.env.ops == s.env.ops && t.env.awaiting == Idle)
      && (ec != Success && s.pendingDelete ==> t.env.deletes == 1 && t.env.fired == s.env.fired)
      && (ec != Success && !s.pendingDelete ==>
            t.env.deletes == 0 && !t.wsconnect && t.env.fired == DisconnectFired(s.callbacks, s.env.fired))
  {
    assert (s.buffer + frame)[..|frame|] == frame;
    assert (s.buffer + frame)[|frame|..] == [];
  }
}

module TlsConnection {
  import opened ConnectionBase
  import TlsSpec

  class Connection {
    const address: string
    const endpoint: string
    const port: Port
    var callbacks: Callbacks
    var buffer: seq<Byte>
    var pendingDelete: bool
    var wsconnect: bool
    var stream: StreamOptions
    ghost var env: Env

    ghost function State(): Conn
      reads this
    {
      Conn(address, endpoint, port, callbacks, buffer, pendingDelete, wsconnect, stream, env)
    }

    constructor(address: string, endpoint: string, port: Port)
      ensures State() == Init(address, endpoint, port)
    {
      this.address, this.endpoint, this.port := address, endpoint, port;
      callbacks, buffer, pendingDelete, wsconnect := NoCallbacks, [], false, false;
      stream := StreamOptions(Never, false, false, None);
      env := Env(Idle, 0, 0, [], [], 0, false);
    }

    method SetCallbacks(cbs: Callbacks)
      modifies this
      ensures State() == old(State()).(callbacks := cbs)
    {
      callbacks := cbs;
    }

    method Abandon()
      modifies this
      ensures State() == old(State()).(pendingDelete := true)
    {
      pendingDelete := true;
    }

    method Connect()
      requires env.deletes == 0
      modifies this
      ensures State() == ConnectionBase.Connect(old(State()))
      ensures env.ops == old(env.ops) + [ResolveOp(address, Decimal(port))]
    {
      env := env.(ops := env.ops + [ResolveOp(address, Decimal(port))], awaiting := Resolving);
    }

    method OnResolve(ec: ErrorCode)
      requires env.deletes == 0 && env.awaiting == Resolving
      modifies this
      ensures State() == TlsSpec.OnResolve(old(State()), ec)
      ensures ec != Success ==> !wsconnect && env.ops == old(env.ops) && env.awaiting == Idle
      ensures ec == Success ==>
        stream.timeout == Armed30 && env.ops == old(env.ops) + [ConnectOp] && env.fired == old(env.fired)
    {
      if ec != Success {
        NotifyDisconnect();
        wsconnect := false;
        env := env.(awaiting := Idle);
        return;
      }
      stream := stream.(timeout := Armed30);
      env := env.(ops := env.ops + [ConnectOp], awaiting := Connecting);
    }

    /** `serverNameSet` is whether the TLS layer accepted the server name. */
    method OnConnect(ec: ErrorCode, serverNameSet: bool)
      requires env.deletes == 0 && env.awaiting == Connecting
      modifies this
      ensures State() == TlsSpec.OnConnect(old(State()), ec, serverNameSet)
      ensures ec != Success ==> !wsconnect && env.ops == old(env.ops) && env.awaiting == Idle
      ensures ec == Success ==> stream.timeout == Armed30 && env.ops == old(env.ops) + [TlsHandshakeOp]
      ensures ec == Success && serverNameSet ==>
        stream.serverName == Some(address + ":" + Decimal(port)) && env.fired == old(env.fired)
      ensures ec == Success && !serverNameSet ==>
        !wsconnect && env.fired == DisconnectFired(callbacks, old(env.fired))
    {
      if ec != Success {
        NotifyDisconnect();
        wsconnect := false;
        env := env.(awaiting := Idle);
        return;
      }
      var host := address + ":" + Decimal(port);
      stream := stream.(timeout := Armed30);
      if serverNameSet {
        stream := stream.(serverName := Some(host));
      } else {
        NotifyDisconnect();
        wsconnect := false;
      }
      env := env.(ops := env.ops + [TlsHandshakeOp], awaiting := TlsHandshaking);
    }

    method OnSslHandshake(ec: ErrorCode)
      requires env.deletes == 0 && env.awaiting == TlsHandshaking
      modifies this
      ensures State() == TlsSpec.OnSslHandshake(old(State()), ec)
      ensures ec != Success ==> !wsconnect && env.ops == old(env.ops) && env.awaiting == Idle
      ensures ec == Success ==>
        && stream.timeout == Never && stream.keepAlivePings && stream.decorator
        && env.ops == old(env.ops) + [UpgradeOp(address, endpoint)] && env.fired == old(env.fired)
    {
      if ec != Success {
        NotifyDisconnect();
        wsconnect := false;
        env := env.(awaiting := Idle);
        return;
      }
      stream := stream.(timeout := Never);
      stream := stream.(keepAlivePings := true);
      stream := stream.(decorator := true);
      env := env.(ops := env.ops + [UpgradeOp(address, endpoint)], awaiting := Upgrading);
    }

    method OnHandshake(ec: ErrorCode)
      requires env.deletes == 0 && env.awaiting == Upgrading
      modifies this
      ensures State() == TlsSpec.OnHandshake(old(State()), ec)
      ensures ec != Success ==> !wsconnect && env.ops == old(env.ops) && env.awaiting == Idle
      ensures ec == Success ==>
        && buffer == [] && wsconnect && env.ops == old(env.ops) + [ReadOp]
        && env.fired == ConnectFired(callbacks, old(env.fired))
    {
      if ec != Success {
        NotifyDisconnect();
        wsconnect := false;
        env := env.(awaiting := Idle);
        return;
      }
      buffer := [];
      env := env.(fired := ConnectFired(callbacks, env.fired));
      env := env.(ops := env.ops + [ReadOp], awaiting := Reading);
      wsconnect := true;
    }

    method OnWrite(ec: ErrorCode)
      requires env.deletes == 0 && env.writes > 0
      modifies this
      ensures State() == ConnectionBase.OnWrite(old(State()), ec)
      ensures State() == old(State()).(env := old(env).(writes := old(env.writes) - 1))
    {
      env := env.(writes := env.writes - 1);
    }

    method OnRead(ec: ErrorCode, bytesTransferred: nat)
      requires env.deletes == 0 && env.awaiting == Reading
      requires bytesTransferred <= |buffer|
      modifies this
      ensures State() == TlsSpec.OnRead(old(State()), ec, bytesTransferred)
      ensures ec == Success ==>
        && buffer == old(buffer)[bytesTransferred..] && env.ops == old(env.ops) + [ReadOp]
        && env.fired == ReadFired(callbacks, old(env.fired), old(buffer)[..bytesTransferred])
      ensures ec != Success ==> env.ops == old(env.ops) && env.awaiting == Idle
      ensures ec != Success && old(pendingDelete) ==> env.deletes == 1 && env.fired == old(env.fired)
      ensures ec != Success && !old(pendingDelete) ==>
        env.deletes == 0 && !wsconnect && env.fired == DisconnectFired(callbacks, old(env.fired))
    {
      if ec != Success {
        if pendingDelete {
          env := env.(deletes := env.deletes + 1);
        } else {
          NotifyDisconnect();
          wsconnect := false;
        }
        env := env.(awaiting := Idle);
        return;
      }
      var copy := buffer[..bytesTransferred];
      env := env.(fired := ReadFired(callbacks, env.fired, copy));
      buffer := buffer[bytesTransferred..];
      env := env.(ops := env.ops + [ReadOp]);
    }

    method OnClose(ec: ErrorCode)
      requires env.deletes == 0 && env.closes > 0
      modifies this
      ensures State() == TlsSpec.OnClose(old(State()), ec)
      ensures !wsconnect && env.fired == old(env.fired) && env.ops == old(env.ops)
      ensures env.deletes == (if ec != Success && pendingDelete then 1 else 0)
      ensures env.afterFree == (old(env.afterFree) || (ec != Success && pendingDelete))
    {
      env := env.(closes := env.closes - 1);
      if ec != Success {
        if pendingDelete {
          env := env.(deletes := env.deletes + 1);
        }
      }
      if env.deletes > 0 {
        // the object is gone: the write below lands in released memory
        env := env.(afterFree := true);
      }
      wsconnect := false;
    }

    method Write(bytes: seq<Byte>)
      requires env.deletes == 0
      modifies this
      ensures State() == ConnectionBase.Write(old(State()), bytes)
      ensures env.ops == old(env.ops) + [WriteOp(bytes)]
    {
      env := env.(writes := env.writes + 1, ops := env.ops + [WriteOp(bytes)]);
    }

    method Close()
      requires env.deletes == 0
      modifies this
      ensures State() == ConnectionBase.Close(old(State()))
      ensures env.ops == old(env.ops) + [CloseOp(NormalClosure)]
    {
      env := env.(closes := env.closes + 1, ops := env.ops + [CloseOp(NormalClosure)]);
    }

    /** Invokes the disconnect callback if one is installed. */
    method NotifyDisconnect()
      modifies this`env
      ensures env == old(env).(fired := DisconnectFired(callbacks, old(env.fired)))
    {
      if callbacks.onDisconnect.Some? {
        env := env.(fired := env.fired + [Disconnected(callbacks.onDisconnect.value)]);
      }
    }
  }
}
