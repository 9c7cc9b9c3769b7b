/**
  What the plain and the TLS WebSocket connection have in common: the bytes and
  ports they handle, the record of a connection's state that both variants'
  completion handlers transform, the asynchronous operations a handler can issue,
  the callbacks it can fire, and the inputs (completions and owner calls) that
  drive a connection.
*/
module ConnectionBase {

  type Byte = x: int | 0 <= x < 256

  /** The connection's port is a `uint16_t`. */
  type Port = x: int | 0 <= x < 0x1_0000

  datatype Option<+T> = None | Some(value: T)

  /** WebSocket close code "normal closure" (the only code `close()` sends). */
  const NormalClosure: nat := 1000

  // ---------------------------------------------------------------------------
  // Decimal rendering, as `snprintf("%hu")` and `std::to_string` produce it

  predicate IsDigit(c: char) { '0' <= c <= '9' }

  predicate AllDigits(s: string) { forall i :: 0 <= i < |s| ==> IsDigit(s[i]) }

  function DigitChar(d: nat): (c: char)
    requires d < 10
    ensures IsDigit(c) && c as int - '0' as int == d
  {
    (d + '0' as int) as char
  }

  /** The shortest decimal numeral for `n`. */
  function Decimal(n: nat): (r: string)
    ensures |r| >= 1 && AllDigits(r)
    ensures r[0] == '0' ==> r == "0"
  {
    if n < 10 then [DigitChar(n)] else Decimal(n / 10) + [DigitChar(n % 10)]
  }

  /** The number a string of decimal digits denotes. */
  function DigitsValue(s: string): nat
    requires AllDigits(s)
  {
    if s == [] then 0
    else DigitsValue(s[..|s| - 1]) * 10 + (s[|s| - 1] as int - '0' as int)
  }

  lemma {:induction false} DecimalRoundTrip(n: nat)
    ensures DigitsValue(Decimal(n)) == n
  {
    var r := Decimal(n);
    if n < 10 {
      assert r[..|r| - 1] == [];
    } else {
      assert r[..|r| - 1] == Decimal(n / 10);
      DecimalRoundTrip(n / 10);
    }
  }

  // ---------------------------------------------------------------------------
  // Callbacks

  /** How the host adapter turns delivered bytes into a script value. */
  datatype ReadMode = Json | Text

  /** An installed connect or disconnect closure: the script function and its user data. */
  datatype Handler = Handler(script: nat, data: int)

  /** An installed read closure. */
  datatype ReadHandler = ReadHandler(mode: ReadMode, script: nat, data: int)

  /** The three optional callback slots of a connection. */
  datatype Callbacks = Callbacks(
    onConnect: Option<Handler>,
    onDisconnect: Option<Handler>,
    onRead: Option<ReadHandler>)

  const NoCallbacks := Callbacks(None, None, None)

  /** One invocation of an installed callback; `Received` carries the owned copy it was given. */
  datatype Event =
    | Connected(handler: Handler)
    | Disconnected(handler: Handler)
    | Received(reader: ReadHandler, bytes: seq<Byte>)

  function Connects(trace: seq<Event>): nat {
    if trace == [] then 0
    else Connects(trace[..|trace| - 1]) + (if trace[|trace| - 1].Connected? then 1 else 0)
  }

  function Disconnects(trace: seq<Event>): nat {
    if trace == [] then 0
    else Disconnects(trace[..|trace| - 1]) + (if trace[|trace| - 1].Disconnected? then 1 else 0)
  }

  // ---------------------------------------------------------------------------
  // The connection's state

  /**
    The value of the error code a completion handler receives; as with
    `boost::system::error_code`, zero means success and anything else is an error.
  */
  type ErrorCode = int

  const Success: ErrorCode := 0

  /** The deadline on the lowest (TCP) layer of the stream. */
  datatype Timeout = Never | Armed30

  /** Which completion of the handshake chain or read loop is outstanding, if any. */
  datatype Stage = Idle | Resolving | Connecting | TlsHandshaking | Upgrading | Reading

  /** An operation issued on the resolver, the stream or its TLS layer. */
  datatype Op =
    | ResolveOp(host: string, service: string)
    | ConnectOp
    | TlsHandshakeOp
    | UpgradeOp(host: string, target: string)
    | ReadOp
    | WriteOp(bytes: seq<Byte>)
    | CloseOp(code: nat)

  /** The settings the handlers apply to the stream and to its TLS layer. */
  datatype StreamOptions = StreamOptions(
    timeout: Timeout,
    keepAlivePings: bool,
    decorator: bool,
    serverName: Option<string>)

  /**
    What the environment sees of a connection: which chain completion is
    outstanding, how many writes and closes are outstanding, the log of issued
    operations and fired callbacks, how often the object deleted itself, and
    whether anything ran on it or wrote to it after that.
  */
  datatype Env = Env(
    awaiting: Stage,
    writes: nat,
    closes: nat,
    ops: seq<Op>,
    fired: seq<Event>,
    deletes: nat,
    afterFree: bool)

  /** The state of one connection, as both variants' handlers see it. */
  datatype Conn = Conn(
    address: string,
    endpoint: string,
    port: Port,
    callbacks: Callbacks,
    buffer: seq<Byte>,
    pendingDelete: bool,
    wsconnect: bool,
    stream: StreamOptions,
    env: Env)

  /** A newly constructed connection: nothing issued, nothing installed. */
  function Init(address: string, endpoint: string, port: Port): Conn {
    Conn(address, endpoint, port, NoCallbacks, [], false, false,
         StreamOptions(Never, false, false, None), Env(Idle, 0, 0, [], [], 0, false))
  }

  /** `t` is the same connection as `s`: same target and same callback slots. */
  predicate SameIdentity(s: Conn, t: Conn) {
    t.address == s.address && t.endpoint == s.endpoint && t.port == s.port && t.callbacks == s.callbacks
  }

  // ---------------------------------------------------------------------------
  // What both variants do alike

  /**
    `connect()`: one resolve of the address, with the port in decimal as the
    service; the handshake chain starts.
  */
  function Connect(s: Conn): (t: Conn)
    ensures SameIdentity(s, t) && t.buffer == s.buffer && t.stream == s.stream && t.env.fired == s.env.fired
    ensures t.env.awaiting == Resolving && t.env.ops == s.env.ops + [ResolveOp(s.address, Decimal(s.port))]
  {
    s.(env := s.env.(awaiting := Resolving, ops := s.env.ops + [ResolveOp(s.address, Decimal(s.port))]))
  }

  /** A write completion, failed or not (a failure is only logged), only retires the write. */
  function OnWrite(s: Conn, ec: ErrorCode): (t: Conn)
    requires s.env.writes > 0
    ensures t.env.writes + 1 == s.env.writes
    ensures t.(env := t.env.(writes := s.env.writes)) == s
  {
    s.(env := s.env.(writes := s.env.writes - 1))
  }

  /** `write()`: one more write of `bytes` is outstanding; nothing else changes. */
  function Write(s: Conn, bytes: seq<Byte>): (t: Conn)
    ensures t.env.writes == s.env.writes + 1 && |t.env.ops| == |s.env.ops| + 1
    ensures t.env.ops[..|s.env.ops|] == s.env.ops && t.env.ops[|s.env.ops|] == WriteOp(bytes)
    ensures t.(env := t.env.(writes := s.env.writes, ops := s.env.ops)) == s
  {
    s.(env := s.env.(writes := s.env.writes + 1, ops := s.env.ops + [WriteOp(bytes)]))
  }

  /** `close()`: one more close, with the normal-closure code, is outstanding; nothing else changes. */
  function Close(s: Conn): (t: Conn)
    ensures t.env.closes == s.env.closes + 1 && |t.env.ops| == |s.env.ops| + 1
    ensures t.env.ops[..|s.env.ops|] == s.env.ops && t.env.ops[|s.env.ops|] == CloseOp(NormalClosure)
    ensures t.(env := t.env.(closes := s.env.closes, ops := s.env.ops)) == s
  {
    s.(env := s.env.(closes := s.env.closes + 1, ops := s.env.ops + [CloseOp(NormalClosure)]))
  }

  /**
    A handler that runs after the object has deleted itself reads and writes
    released memory. The model lets it act on the object's last contents and
    records that it ran there.
  */
  function Freed(t: Conn): Conn {
    t.(env := t.env.(afterFree := true))
  }

  /** No completion can still arrive: no chain or read step, no write and no close is outstanding. */
  predicate Quiescent(s: Conn) {
    s.env.awaiting == Idle && s.env.writes == 0 && s.env.closes == 0
  }

  /**
    Corrected deletion: the object deletes itself once the owner has let go of
    it and nothing is outstanding any more, and not before.
  */
  function Release(t: Conn): (r: Conn)
    ensures r.env.deletes == (if t.env.deletes == 0 && t.pendingDelete && Quiescent(t) then 1 else t.env.deletes)
    ensures r.(env := r.env.(deletes := t.env.deletes)) == t
  {
    if t.env.deletes == 0 && t.pendingDelete && Quiescent(t) then t.(env := t.env.(deletes := 1)) else t
  }

  /**
    What the corrected deletion keeps: nothing runs on released memory, the
    object is deleted at most once, and it is deleted exactly when the owner
    has let go of it and nothing is outstanding.
  */
  ghost predicate ReleaseInv(s: Conn) {
    && !s.env.afterFree && s.env.deletes <= 1
    && (s.env.deletes == 1 <==> s.pendingDelete && Quiescent(s))
  }

  /** A handler took `s` to `t` without touching the target, the callbacks, the flags or the deletion record. */
  predicate Untouched(s: Conn, t: Conn) {
    && SameIdentity(s, t) && t.pendingDelete == s.pendingDelete
    && t.env.deletes == s.env.deletes && t.env.afterFree == s.env.afterFree
  }

  /** `t` ends the handshake chain of `s` on a failure: the disconnect callback, if installed, and nothing issued. */
  predicate FailedChain(s: Conn, t: Conn) {
    t.env.awaiting == Idle && t.env.ops == s.env.ops && t.env.fired == DisconnectFired(s.callbacks, s.env.fired)
  }

  /** `t` goes on from `s` to stage `next` by issuing exactly `op`, firing nothing. */
  predicate Continued(s: Conn, t: Conn, next: Stage, op: Op) {
    t.env.awaiting == next && t.env.ops == s.env.ops + [op] && t.env.fired == s.env.fired
  }

  /** Both callbacks that report the outcome of a handshake are installed. */
  predicate Installed(c: Callbacks) {
    c.onConnect.Some? && c.onDisconnect.Some?
  }

  /** The trace after the disconnect callback, if one is installed, has been invoked. */
  function DisconnectFired(c: Callbacks, trace: seq<Event>): (r: seq<Event>)
    ensures c.onDisconnect.None? ==> r == trace
    ensures c.onDisconnect.Some? ==> r == trace + [Disconnected(c.onDisconnect.value)]
    ensures Connects(r) == Connects(trace)
    ensures Disconnects(r) == Disconnects(trace) + (if c.onDisconnect.Some? then 1 else 0)
  {
    if c.onDisconnect.None? then trace
    else
      var r := trace + [Disconnected(c.onDisconnect.value)];
      assert r[..|r| - 1] == trace;
      r
  }

  /** The trace after the connect callback, if one is installed, has been invoked. */
  function ConnectFired(c: Callbacks, trace: seq<Event>): (r: seq<Event>)
    ensures c.onConnect.None? ==> r == trace
    ensures c.onConnect.Some? ==> r == trace + [Connected(c.onConnect.value)]
    ensures Connects(r) == Connects(trace) + (if c.onConnect.Some? then 1 else 0)
    ensures Disconnects(r) == Disconnects(trace)
  {
    if c.onConnect.None? then trace
    else
      var r := trace + [Connected(c.onConnect.value)];
      assert r[..|r| - 1] == trace;
      r
  }

  /** The trace after the read callback, if one is installed, has been handed its own copy of `bytes`. */
  function ReadFired(c: Callbacks, trace: seq<Event>, bytes: seq<Byte>): (r: seq<Event>)
    ensures c.onRead.None? ==> r == trace
    ensures c.onRead.Some? ==> r == trace + [Received(c.onRead.value, bytes)]
    ensures Connects(r) == Connects(trace)
    ensures Disconnects(r) == Disconnects(trace)
  {
    if c.onRead.None? then trace
    else
      var r := trace + [Received(c.onRead.value, bytes)];
      assert r[..|r| - 1] == trace;
      r
  }

  // ---------------------------------------------------------------------------
  // Inputs

  /**
    What can happen to a connection once `connect()` has been called: the
    completion of an outstanding operation (`ReadDone` carries the frame the
    stream appended to the buffer), or a call by the owner. `Abandon` is the
    owner setting `pending_delete`.
  */
  datatype Input =
    | Resolved(ec: ErrorCode)
    | TransportConnected(ec: ErrorCode, serverNameSet: bool)
    | TlsHandshaken(ec: ErrorCode)
    | Upgraded(ec: ErrorCode)
    | ReadDone(ec: ErrorCode, frame: seq<Byte>)
    | WriteDone(ec: ErrorCode)
    | CloseDone(ec: ErrorCode)
    | UserWrite(bytes: seq<Byte>)
    | UserClose
    | Abandon

  /**
    A completion arrives only for an operation that is outstanding; the owner
    calls in only while the object exists.
  */
  predicate Enabled(s: Conn, x: Input) {
    match x
    case Resolved(_) => s.env.awaiting == Resolving
    case TransportConnected(_, _) => s.env.awaiting == Connecting
    case TlsHandshaken(_) => s.env.awaiting == TlsHandshaking
    case Upgraded(_) => s.env.awaiting == Upgrading
    case ReadDone(_, _) => s.env.awaiting == Reading
    case WriteDone(_) => s.env.writes > 0
    case CloseDone(_) => s.env.closes > 0
    case UserWrite(_) => s.env.deletes == 0
    case UserClose => s.env.deletes == 0
    case Abandon => s.env.deletes == 0
  }
}
