/**
  The plain-TCP WebSocket connection.

  `PlainSpec` gives each completion handler as a function on the connection's
  state record, drives them with `Step` and `Run`, and proves what an attempt
  that starts with `connect()` can and cannot do. `PlainConnection` is the
  connection object itself: one method per handler, each tied to its function.
*/
module PlainSpec {
  import opened ConnectionBase

  /** A failed resolve ends the attempt; a successful one arms the 30-second deadline and connects. */
  function OnResolve(s: Conn, ec: ErrorCode): (t: Conn)
    ensures Untouched(s, t) && t.buffer == s.buffer && t.wsconnect == s.wsconnect
    ensures ec != Success ==> FailedChain(s, t) && t.stream == s.stream
    ensures ec == Success ==> Continued(s, t, Connecting, ConnectOp) && t.stream.timeout == Armed30
  {
    if ec != Success then
      s.(env := s.env.(fired := DisconnectFired(s.callbacks, s.env.fired), awaiting := Idle))
    else
      s.(stream := s.stream.(timeout := Armed30),
         env := s.env.(awaiting := Connecting, ops := s.env.ops + [ConnectOp]))
  }

  /**
    On success the deadline is cleared and the header decorator installed; the
    keep-alive timeout settings are computed but never applied to the stream.
  */
  function OnConnect(s: Conn, ec: ErrorCode): (t: Conn)
    ensures Untouched(s, t) && t.buffer == s.buffer && t.wsconnect == s.wsconnect
    ensures t.stream.keepAlivePings == s.stream.keepAlivePings && t.stream.serverName == s.stream.serverName
    ensures ec != Success ==> FailedChain(s, t) && t.stream == s.stream
    ensures ec == Success ==>
      Continued(s, t, Upgrading, UpgradeOp(s.address, s.endpoint)) && t.stream.timeout == Never && t.stream.decorator
  {
    if ec != Success then
      s.(env := s.env.(fired := DisconnectFired(s.callbacks, s.env.fired), awaiting := Idle))
    else
      s.(stream := s.stream.(timeout := Never, decorator := true),
         env := s.env.(awaiting := Upgrading, ops := s.env.ops + [UpgradeOp(s.address, s.endpoint)]))
  }

  /** A successful upgrade clears the buffer, reports the connection and starts the read loop. */
  function OnHandshake(s: Conn, ec: ErrorCode): (t: Conn)
    ensures Untouched(s, t) && t.stream == s.stream && t.wsconnect == s.wsconnect
    ensures ec != Success ==> FailedChain(s, t) && t.buffer == s.buffer
    ensures ec == Success ==>
      && t.buffer == [] && t.env.awaiting == Reading && t.env.ops == s.env.ops + [ReadOp]
      && t.env.fired == ConnectFired(s.callbacks, s.env.fired)
  {
    if ec != Success then
      s.(env := s.env.(fired := DisconnectFired(s.callbacks, s.env.fired), awaiting := Idle))
    else
      s.(buffer := [],
         env := s.env.(fired := ConnectFired(s.callbacks, s.env.fired), awaiting := Reading,
                       ops := s.env.ops + [ReadOp]))
  }

  /**
    `n` is the number of bytes the completed read left at the front of the
    buffer. A successful read hands a copy of them to the read callback and
    reads again; a failed one deletes the object when the owner has let go of
    it, and notifies otherwise.
  */
  function OnRead(s: Conn, ec: ErrorCode, n: nat): (t: Conn)
    requires n <= |s.buffer|
    ensures SameIdentity(s, t) && t.stream == s.stream && t.wsconnect == s.wsconnect
    ensures t.pendingDelete == s.pendingDelete && t.env.afterFree == s.env.afterFree
    ensures ec == Success ==>
      && t.buffer == s.buffer[n..] && t.env.awaiting == s.env.awaiting && t.env.ops == s.env.ops + [ReadOp]
      && t.env.fired == ReadFired(s.callbacks, s.env.fired, s.buffer[..n]) && t.env.deletes == s.env.deletes
    ensures ec != Success ==> t.env.awaiting == Idle && t.env.ops == s.env.ops && t.buffer == s.buffer
    ensures ec != Success && s.pendingDelete ==> t.env.deletes == s.env.deletes + 1 && t.env.fired == s.env.fired
    ensures ec != Success && !s.pendingDelete ==>
      t.env.deletes == s.env.deletes && t.env.fired == DisconnectFired(s.callbacks, s.env.fired)
  {
    if ec != Success then
      if s.pendingDelete then s.(env := s.env.(deletes := s.env.deletes + 1, awaiting := Idle))
      else s.(env := s.env.(fired := DisconnectFired(s.callbacks, s.env.fired), awaiting := Idle))
    else
      s.(buffer := s.buffer[n..],
         env := s.env.(fired := ReadFired(s.callbacks, s.env.fired, s.buffer[..n]),
                       ops := s.env.ops + [ReadOp]))
  }

  /** A close completion retires the close and deletes the object exactly when it failed with `pending_delete` set. */
  function OnClose(s: Conn, ec: ErrorCode): (t: Conn)
    requires s.env.closes > 0
    ensures t.env.closes + 1 == s.env.closes
    ensures t.env.deletes == s.env.deletes + (if ec != Success && s.pendingDelete then 1 else 0)
    ensures t.(env := t.env.(closes := s.env.closes, deletes := s.env.deletes)) == s
  {
    if ec != Success && s.pendingDelete then
      s.(env := s.env.(closes := s.env.closes - 1, deletes := s.env.deletes + 1))
    else
      s.(env := s.env.(closes := s.env.closes - 1))
  }

  /**
    One input. A completion for an operation that is not outstanding never
    arrives. One that arrives after the object deleted itself runs its handler
    on released memory (see `Freed`); the attempt then has undefined behaviour,
    and every property below is stated for runs where that has not happened.
  */
  function Step(s: Conn, x: Input): (t: Conn)
    ensures SameIdentity(s, t)
    ensures !Enabled(s, x) ==> t == s
    ensures Enabled(s, x) && s.env.deletes > 0 ==> t.env.afterFree
    ensures Enabled(s, x) && s.env.deletes > 0 && !x.CloseDone? && !x.ReadDone? ==> t.env.deletes == s.env.deletes
  {
    if !Enabled(s, x) then s
    else if s.env.deletes > 0 then Freed(Handle(s, x))
    else Handle(s, x)
  }

  /** The handler an enabled input runs. */
  function Handle(s: Conn, x: Input): (t: Conn)
    requires Enabled(s, x)
    ensures SameIdentity(s, t) && t.env.afterFree == s.env.afterFree
  {
    match x
    case Resolved(ec) => OnResolve(s, ec)
    case TransportConnected(ec, _) => OnConnect(s, ec)
    case TlsHandshaken(_) => s
    case Upgraded(ec) => OnHandshake(s, ec)
    case ReadDone(ec, frame) =>
      if ec == Success then OnRead(s.(buffer := s.buffer + frame), ec, |frame|)
      else OnRead(s, ec, 0)
    case WriteDone(ec) => OnWrite(s, ec)
    case CloseDone(ec) => OnClose(s, ec)
    case UserWrite(bytes) => Write(s, bytes)
    case UserClose => Close(s)
    case Abandon => s.(pendingDelete := true)
  }

  function Run(s: Conn, xs: seq<Input>): Conn
    decreases |xs|
  {
    if xs == [] then s else Run(Step(s, xs[0]), xs[1..])
  }

  // ---------------------------------------------------------------------------
  // Corrected deletion

  /** Corrected: a failed read with `pending_delete` set ends the read loop silently and leaves the deletion to `Release`. */
  function OnReadFixed(s: Conn, ec: ErrorCode, n: nat): (t: Conn)
    requires n <= |s.buffer|
    ensures t.env.deletes == s.env.deletes
    ensures !(ec != Success && s.pendingDelete) ==> t == OnRead(s, ec, n)
    ensures ec != Success && s.pendingDelete ==>
      t.(env := t.env.(deletes := s.env.deletes + 1)) == OnRead(s, ec, n)
  {
    if ec != Success && s.pendingDelete then s.(env := s.env.(awaiting := Idle)) else OnRead(s, ec, n)
  }

  /** Corrected: a close completion only retires the close and leaves the deletion to `Release`. */
  function OnCloseFixed(s: Conn, ec: ErrorCode): (t: Conn)
    requires s.env.closes > 0
    ensures t.env.deletes == s.env.deletes
    ensures t.(env := t.env.(deletes := OnClose(s, ec).env.deletes)) == OnClose(s, ec)
  {
    s.(env := s.env.(closes := s.env.closes - 1))
  }

  /**
    The corrected handlers: the same as written, except that no handler deletes
    the object itself; after every input it is deleted once the owner has let
    go of it and nothing is outstanding.
  */
  function HandleFixed(s: Conn, x: Input): (t: Conn)
    requires Enabled(s, x)
    ensures t.(env := t.env.(deletes := Handle(s, x).env.deletes)) == Handle(s, x)
    ensures s.env.deletes == 0 ==> t.env.deletes == (if t.pendingDelete && Quiescent(t) then 1 else 0)
  {
    Release(
      match x
      case ReadDone(ec, frame) =>
        if ec == Success then Handle(s, x) else OnReadFixed(s, ec, 0)
      case CloseDone(ec) => OnCloseFixed(s, ec)
      case _ => Handle(s, x))
  }

  function StepFixed(s: Conn, x: Input): Conn {
    if !Enabled(s, x) then s
    else if s.env.deletes > 0 then Freed(HandleFixed(s, x))
    else HandleFixed(s, x)
  }

  function RunFixed(s: Conn, xs: seq<Input>): Conn
    decreases |xs|
  {
    if xs == [] then s else RunFixed(StepFixed(s, xs[0]), xs[1..])
  }

  /** A connection created with the given callbacks, right after `connect()`. */
  function Attempt(address: string, endpoint: string, port: Port, cbs: Callbacks): Conn {
    Connect(Init(address, endpoint, port).(callbacks := cbs))
  }

  /** The deadline, the stream options and the read buffer agree with the outstanding stage. */
  ghost predicate StreamInv(s: Conn) {
    && s.env.deletes <= 1
    && s.env.awaiting != TlsHandshaking
    && (s.env.awaiting == Connecting ==> s.stream.timeout == Armed30)
    && (s.env.awaiting in {Upgrading, Reading} ==> s.stream.timeout == Never && s.stream.decorator)
    && (s.env.awaiting == Reading ==> s.buffer == [])
  }

  /**
    At most one connect and one disconnect notification have fired, none while
    the handshake chain is still running, no disconnect while the read loop
    runs, and, when both are installed, a finished chain has fired one of them.
  */
  ghost predicate NotifyInv(s: Conn) {
    var c, d := Connects(s.env.fired), Disconnects(s.env.fired);
    && c <= 1 && d <= 1
    && (s.env.awaiting in {Resolving, Connecting, Upgrading} ==> c == 0 && d == 0)
    && (s.env.awaiting == Reading ==> d == 0)
    && (Installed(s.callbacks) && s.env.awaiting == Reading ==> c == 1)
    && (Installed(s.callbacks) && s.env.awaiting == Idle ==> c + d >= 1)
  }

  ghost predicate LiveInv(s: Conn) {
    StreamInv(s) && NotifyInv(s)
  }

  /** The invariant holds until a handler has run on released memory. */
  ghost predicate Inv(s: Conn) {
    s.env.afterFree || LiveInv(s)
  }

  lemma AttemptInv(address: string, endpoint: string, port: Port, cbs: Callbacks)
    ensures var s := Attempt(address, endpoint, port, cbs); LiveInv(s) && Inv(s) && !s.env.afterFree
  {
  }

  lemma StepInv(s: Conn, x: Input)
    requires Inv(s)
    ensures Inv(Step(s, x))
  {
    if Enabled(s, x) && s.env.deletes == 0 && !s.env.afterFree {
      match x
      case Resolved(ec) => ResolveInv(s, ec);
      case TransportConnected(ec, tls) => ConnectInv(s, ec, tls);
      case TlsHandshaken(_) =>
      case Upgraded(ec) => HandshakeInv(s, ec);
      case ReadDone(ec, frame) => ReadInv(s, ec, frame);
      case WriteDone(ec) => SideInv(s, x);
      case CloseDone(ec) => SideInv(s, x);
      case UserWrite(bytes) => SideInv(s, x);
      case UserClose => SideInv(s, x);
      case Abandon => SideInv(s, x);
    }
  }

  lemma ResolveInv(s: Conn, ec: ErrorCode)
    requires LiveInv(s) && s.env.awaiting == Resolving && s.env.deletes == 0
    ensures LiveInv(Step(s, Resolved(ec)))
  {
  }

  lemma ConnectInv(s: Conn, ec: ErrorCode, serverNameSet: bool)
    requires LiveInv(s) && s.env.awaiting == Connecting && s.env.deletes == 0
    ensures LiveInv(Step(s, TransportConnected(ec, serverNameSet)))
  {
  }

  lemma HandshakeInv(s: Conn, ec: ErrorCode)
    requires LiveInv(s) && s.env.awaiting == Upgrading && s.env.deletes == 0
    ensures LiveInv(Step(s, Upgraded(ec)))
  {
  }

  lemma ReadInv(s: Conn, ec: ErrorCode, frame: seq<Byte>)
    requires LiveInv(s) && s.env.awaiting == Reading && s.env.deletes == 0
    ensures LiveInv(Step(s, ReadDone(ec, frame)))
  {
    if ec == Success {
      assert (s.buffer + frame)[|frame|..] == [];
    }
  }

  /** Write and close completions and the owner's calls leave the chain, the buffer and the trace alone. */
  lemma SideInv(s: Conn, x: Input)
    requires LiveInv(s) && Enabled(s, x) && s.env.deletes == 0
    requires x.WriteDone? || x.CloseDone? || x.UserWrite? || x.UserClose? || x.Abandon?
    ensures var t := Step(s, x);
      && t.env.awaiting == s.env.awaiting && t.env.fired == s.env.fired && t.buffer == s.buffer
      && t.stream == s.stream && t.env.deletes <= 1 && LiveInv(t)
  {
  }

  lemma {:induction false} RunInv(s: Conn, xs: seq<Input>)
    requires Inv(s)
    ensures Inv(Run(s, xs))
    ensures SameIdentity(s, Run(s, xs))
    decreases |xs|
  {
    if xs != [] {
      StepInv(s, xs[0]);
      RunInv(Step(s, xs[0]), xs[1..]);
    }
  }

  /**
    Whatever completions and owner calls follow `connect()`, as long as no
    handler has run on released memory: the connect and the disconnect callback
    each fire at most once, nothing fires while the chain is still handshaking,
    the object has deleted itself at most once, and, with both callbacks
    installed, an attempt whose chain has ended has fired one of them.
  */
  lemma AttemptNotifiesOnce(address: string, endpoint: string, port: Port, cbs: Callbacks, xs: seq<Input>)
    ensures var t := Run(Attempt(address, endpoint, port, cbs), xs);
      !t.env.afterFree ==>
        && Connects(t.env.fired) <= 1 && Disconnects(t.env.fired) <= 1
        && t.env.deletes <= 1
        && (t.env.awaiting in {Resolving, Connecting, Upgrading} ==>
              Connects(t.env.fired) == 0 && Disconnects(t.env.fired) == 0)
        && (Installed(cbs) && t.env.awaiting == Idle ==>
              Connects(t.env.fired) + Disconnects(t.env.fired) >= 1)
  {
    AttemptInv(address, endpoint, port, cbs);
    RunInv(Attempt(address, endpoint, port, cbs), xs);
  }

  /**
    In every state an attempt reaches before a handler runs on released
    memory, the connect deadline is armed while the transport connect is
    outstanding, and is cleared, with the decorator installed, while the
    upgrade or the read loop runs.
  */
  lemma AttemptTimeout(address: string, endpoint: string, port: Port, cbs: Callbacks, xs: seq<Input>)
    ensures var t := Run(Attempt(address, endpoint, port, cbs), xs);
      !t.env.afterFree ==>
        && (t.env.awaiting == Connecting ==> t.stream.timeout == Armed30)
        && (t.env.awaiting in {Upgrading, Reading} ==> t.stream.timeout == Never && t.stream.decorator)
  {
    AttemptInv(address, endpoint, port, cbs);
    RunInv(Attempt(address, endpoint, port, cbs), xs);
  }

  /**
    During the read loop every frame is delivered, byte for byte, to the read
    callback, the buffer is left empty and exactly one new read is issued.
  */
  lemma ReadDeliversFrame(s: Conn, frame: seq<Byte>)
    requires StreamInv(s) && s.env.awaiting == Reading && s.env.deletes == 0
    ensures var t := Step(s, ReadDone(Success, frame));
      && t.buffer == [] && t.env.awaiting == Reading && t.env.ops == s.env.ops + [ReadOp]
      && t.env.fired == s.env.fired + (if s.callbacks.onRead.Some? then [Received(s.callbacks.onRead.value, frame)] else [])
  {
    assert (s.buffer + frame)[..|frame|] == frame;
    assert (s.buffer + frame)[|frame|..] == [];
  }

  lemma StepLeavesTlsStateAlone(s: Conn, x: Input)
    ensures var t := Step(s, x);
      t.wsconnect == s.wsconnect && t.stream.keepAlivePings == s.stream.keepAlivePings
      && t.stream.serverName == s.stream.serverName
  {
  }

  /** The plain variant never writes `wsconnect`, never enables keep-alive pings and never sets a server name. */
  lemma {:induction false} RunLeavesTlsStateAlone(s: Conn, xs: seq<Input>)
    ensures var t := Run(s, xs);
      t.wsconnect == s.wsconnect && t.stream.keepAlivePings == s.stream.keepAlivePings
      && t.stream.serverName == s.stream.serverName
    decreases |xs|
  {
    if xs != [] {
      StepLeavesTlsStateAlone(s, xs[0]);
      RunLeavesTlsStateAlone(Step(s, xs[0]), xs[1..]);
    }
  }

  /**
    Letting go of a connection during its read loop: the owner has set
    `pending_delete` and closed. When the aborted read completes first, it
    deletes the object without a callback; the close completion then runs on
    released memory, and, if the close failed, deletes the object a second time.
  */
  lemma ReadDeleteThenCloseRunsOnFreed(s: Conn, e: ErrorCode, closeResult: ErrorCode)
    requires s.env.awaiting == Reading && s.env.deletes == 0 && s.pendingDelete && s.env.closes > 0
    requires e != Success
    ensures var t := Run(s, [ReadDone(e, []), CloseDone(closeResult)]);
      && t.env.afterFree && t.env.fired == s.env.fired
      && t.env.deletes == (if closeResult != Success then 2 else 1)
  {
    var xs := [ReadDone(e, []), CloseDone(closeResult)];
    var u := Step(s, xs[0]);
    assert u.env.deletes == 1 && u.env.closes > 0 && u.env.fired == s.env.fired && u.pendingDelete;
    assert xs[1..] == [CloseDone(closeResult)];
    var v := Step(u, CloseDone(closeResult));
    assert v == Freed(OnClose(u, closeResult));
    assert Run(u, xs[1..]) == Run(v, []);
  }

  /**
    The other order: the failed close deletes the object first. The read
    completion then runs on released memory: a failed read deletes the object
    again; a completed one hands the frame to the read callback and reads again.
  */
  lemma CloseDeleteThenReadRunsOnFreed(s: Conn, e: ErrorCode, r: ErrorCode, frame: seq<Byte>)
    requires s.env.awaiting == Reading && s.env.deletes == 0 && s.pendingDelete && s.env.closes > 0
    requires s.buffer == [] && e != Success
    ensures var t := Run(s, [CloseDone(e), ReadDone(r, frame)]);
      && t.env.afterFree
      && (r != Success ==> t.env.deletes == 2 && t.env.fired == s.env.fired)
      && (r == Success ==>
            t.env.deletes == 1 && t.env.ops == s.env.ops + [ReadOp]
            && t.env.fired == ReadFired(s.callbacks, s.env.fired, frame))
  {
    var xs := [CloseDone(e), ReadDone(r, frame)];
    var u := Step(s, xs[0]);
    assert u == s.(env := s.env.(closes := s.env.closes - 1, deletes := 1));
    assert xs[1..] == [ReadDone(r, frame)];
    var v := Step(u, ReadDone(r, frame));
    assert Run(u, xs[1..]) == Run(v, []);
    if r == Success {
      assert (u.buffer + frame)[..|frame|] == frame;
    }
  }

  lemma StepFixedInv(s: Conn, x: Input)
    requires LiveInv(s) && ReleaseInv(s)
    ensures LiveInv(StepFixed(s, x)) && ReleaseInv(StepFixed(s, x))
    ensures SameIdentity(s, StepFixed(s, x))
  {
    if Enabled(s, x) && s.env.deletes == 0 {
      StepInv(s, x);
      LiveInvIgnoresDeletes(Handle(s, x), HandleFixed(s, x));
    }
  }

  /** The live invariant does not depend on how often the object has been deleted, past the bound. */
  lemma LiveInvIgnoresDeletes(u: Conn, t: Conn)
    requires LiveInv(u) && t.(env := t.env.(deletes := u.env.deletes)) == u && t.env.deletes <= 1
    ensures LiveInv(t)
  {
    assert Connects(t.env.fired) == Connects(u.env.fired) && Disconnects(t.env.fired) == Disconnects(u.env.fired);
  }

  lemma {:induction false} RunFixedInv(s: Conn, xs: seq<Input>)
    requires LiveInv(s) && ReleaseInv(s)
    ensures LiveInv(RunFixed(s, xs)) && ReleaseInv(RunFixed(s, xs))
    ensures SameIdentity(s, RunFixed(s, xs))
    decreases |xs|
  {
    if xs != [] {
      StepFixedInv(s, xs[0]);
      RunFixedInv(StepFixed(s, xs[0]), xs[1..]);
    }
  }

  /**
    With the corrected deletion, whatever completions and owner calls follow
    `connect()`: no handler ever runs on released memory, the object is
    deleted at most once, exactly once the owner has let go of it and nothing
    is outstanding, and the notifications keep their bounds.
  */
  lemma FixedAttemptReleasesOnce(address: string, endpoint: string, port: Port, cbs: Callbacks, xs: seq<Input>)
    ensures var t := RunFixed(Attempt(address, endpoint, port, cbs), xs);
      && !t.env.afterFree && t.env.deletes <= 1
      && (t.env.deletes == 1 <==> t.pendingDelete && Quiescent(t))
      && Connects(t.env.fired) <= 1 && Disconnects(t.env.fired) <= 1
      && (Installed(cbs) && t.env.awaiting == Idle ==> Connects(t.env.fired) + Disconnects(t.env.fired) >= 1)
  {
    AttemptInv(address, endpoint, port, cbs);
    RunFixedInv(Attempt(address, endpoint, port, cbs), xs);
  }
}

module PlainConnection {
  import opened ConnectionBase
  import PlainSpec

  class Connection {
    const address: string
    const endpoint: string
    const port: Port
    var callbacks: Callbacks
    var buffer: seq<Byte>
    var pendingDelete: bool
    var wsconnect: bool
    var stream: StreamOptions
    ghost var env: Env

    ghost function State(): Conn
      reads this
    {
      Conn(address, endpoint, port, callbacks, buffer, pendingDelete, wsconnect, stream, env)
    }

    constructor(address: string, endpoint: string, port: Port)
      ensures State() == Init(address, endpoint, port)
    {
      this.address, this.endpoint, this.port := address, endpoint, port;
      callbacks, buffer, pendingDelete, wsconnect := NoCallbacks, [], false, false;
      stream := StreamOptions(Never, false, false, None);
      env := Env(Idle, 0, 0, [], [], 0, false);
    }

    /** The owner replaces the callback slots. */
    method SetCallbacks(cbs: Callbacks)
      modifies this
      ensures State() == old(State()).(callbacks := cbs)
    {
      callbacks := cbs;
    }

    /** The owner asks the object to delete itself when its read loop or close fails. */
    method Abandon()
      modifies this
      ensures State() == old(State()).(pendingDelete := true)
    {
      pendingDelete := true;
    }

    method Connect()
      requires env.deletes == 0
      modifies this
      ensures State() == ConnectionBase.Connect(old(State()))
      ensures env.ops == old(env.ops) + [ResolveOp(address, Decimal(port))]
    {
      env := env.(ops := env.ops + [ResolveOp(address, Decimal(port))], awaiting := Resolving);
    }

    method OnResolve(ec: ErrorCode)
      requires env.deletes == 0 && env.awaiting == Resolving
      modifies this
      ensures State() == PlainSpec.OnResolve(old(State()), ec)
      ensures ec != Success ==> env.ops == old(env.ops) && env.awaiting == Idle
      ensures ec != Success ==>
        Disconnects(env.fired) == Disconnects(old(env.fired)) + (if callbacks.onDisconnect.Some? then 1 else 0)
      ensures ec == Success ==>
        stream.timeout == Armed30 && env.ops == old(env.ops) + [ConnectOp] && env.fired == old(env.fired)
    {
      if ec != Success {
        NotifyDisconnect();
        env := env.(awaiting := Idle);
        return;
      }
      stream := stream.(timeout := Armed30);
      env := env.(ops := env.ops + [ConnectOp], awaiting := Connecting);
    }

    method OnConnect(ec: ErrorCode)
      requires env.deletes == 0 && env.awaiting == Connecting
      modifies this
      ensures State() == PlainSpec.OnConnect(old(State()), ec)
      ensures ec != Success ==> env.ops == old(env.ops) && env.awaiting == Idle
      ensures ec == Success ==>
        && stream.timeout == Never && stream.decorator && stream.keepAlivePings == old(stream.keepAlivePings)
        && env.ops == old(env.ops) + [UpgradeOp(address, endpoint)] && env.fired == old(env.fired)
    {
      if ec != Success {
        NotifyDisconnect();
        env := env.(awaiting := Idle);
        return;
      }
      stream := stream.(timeout := Never);
      // the suggested client timeouts with keep-alive pings are computed at this
      // point but never handed to the stream; only the decorator is installed
      stream := stream.(decorator := true);
      env := env.(ops := env.ops + [UpgradeOp(address, endpoint)], awaiting := Upgrading);
    }

    method OnHandshake(ec: ErrorCode)
      requires env.deletes == 0 && env.awaiting == Upgrading
      modifies this
      ensures State() == PlainSpec.OnHandshake(old(State()), ec)
      ensures ec != Success ==> env.ops == old(env.ops) && env.awaiting == Idle && buffer == old(buffer)
      ensures ec == Success ==>
        && buffer == [] && env.ops == old(env.ops) + [ReadOp]
        && env.fired == old(env.fired) + (if callbacks.onConnect.Some? then [Connected(callbacks.onConnect.value)] else [])
    {
      if ec != Success {
        NotifyDisconnect();
        env := env.(awaiting := Idle);
        return;
      }
      buffer := [];
      env := env.(fired := ConnectFired(callbacks, env.fired));
      env := env.(ops := env.ops + [ReadOp], awaiting := Reading);
    }

    method OnWrite(ec: ErrorCode)
      requires env.deletes == 0 && env.writes > 0
      modifies this
      ensures State() == ConnectionBase.OnWrite(old(State()), ec)
      ensures State() == old(State()).(env := old(env).(writes := old(env.writes) - 1))
    {
      env := env.(writes := env.writes - 1);
    }

    method OnRead(ec: ErrorCode, bytesTransferred: nat)
      requires env.deletes == 0 && env.awaiting == Reading
      requires bytesTransferred <= |buffer|
      modifies this
      ensures State() == PlainSpec.OnRead(old(State()), ec, bytesTransferred)
      ensures ec == Success ==>
        && buffer == old(buffer)[bytesTransferred..] && env.ops == old(env.ops) + [ReadOp]
        && env.fired == old(env.fired) + (if callbacks.onRead.Some?
                                          then [Received(callbacks.onRead.value, old(buffer)[..bytesTransferred])]
                                          else [])
      ensures ec != Success ==> env.ops == old(env.ops) && env.awaiting == Idle
      ensures ec != Success && old(pendingDelete) ==> env.deletes == 1 && env.fired == old(env.fired)
      ensures ec != Success && !old(pendingDelete) ==> env.deletes == 0
      ensures ec != Success && !old(pendingDelete) ==>
        env.fired == old(env.fired) + (if callbacks.onDisconnect.Some? then [Disconnected(callbacks.onDisconnect.value)] else [])
    {
      if ec != Success {
        if pendingDelete {
          env := env.(deletes := env.deletes + 1);
        } else {
          NotifyDisconnect();
        }
        env := env.(awaiting := Idle);
        return;
      }
      var copy := buffer[..bytesTransferred];
      env := env.(fired := ReadFired(callbacks, env.fired, copy));
      buffer := buffer[bytesTransferred..];
      env := env.(ops := env.ops + [ReadOp]);
    }

    method OnClose(ec: ErrorCode)
      requires env.deletes == 0 && env.closes > 0
      modifies this
      ensures State() == PlainSpec.OnClose(old(State()), ec)
      ensures env.deletes == (if ec != Success && pendingDelete then 1 else 0)
      ensures env.fired == old(env.fired) && env.ops == old(env.ops) && buffer == old(buffer)
    {
      env := env.(closes := env.closes - 1);
      if ec != Success {
        if pendingDelete {
          env := env.(deletes := env.deletes + 1);
        }
      }
    }

    method Write(bytes: seq<Byte>)
      requires env.deletes == 0
      modifies this
      ensures State() == ConnectionBase.Write(old(State()), bytes)
      ensures env.ops == old(env.ops) + [WriteOp(bytes)]
    {
      env := env.(writes := env.writes + 1, ops := env.ops + [WriteOp(bytes)]);
    }

    method Close()
      requires env.deletes == 0
      modifies this
      ensures State() == ConnectionBase.Close(old(State()))
      ensures env.ops == old(env.ops) + [CloseOp(NormalClosure)]
    {
      env := env.(closes := env.closes + 1, ops := env.ops + [CloseOp(NormalClosure)]);
    }

    /** Invokes the disconnect callback if one is installed. */
    method NotifyDisconnect()
      modifies this`env
      ensures env == old(env).(fired := DisconnectFired(callbacks, old(env.fired)))
    {
      if callbacks.onDisconnect.Some? {
        env := env.(fired := env.fired + [Disconnected(callbacks.onDisconnect.value)]);
      }
    }
  }
}
