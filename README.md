# WebSocket connections of a SourceMod extension, in Dafny

This project models the core of a SourceMod extension that gives plugin
scripts WebSocket client connections over plain TCP and over TLS:

- the two connection state machines (`websocket_connection`, `websocket_connection_ssl`);
- the script natives that create a connection from a URL, install the read
  callback and write text.

A connection works through a chain of asynchronous completion handlers, in order:

- resolve the host;
- connect the transport, with a 30-second deadline;
- for TLS, set the server name and run the TLS handshake;
- upgrade to WebSocket, with a header decorator and, for TLS, keep-alive pings;
- run a read loop that re-issues itself.

Every handler may fire the connect, disconnect or read callback. On an error
with `pending_delete` set, the read and close handlers delete their own object.

Files:

- `connection_base.dfy` (`ConnectionBase`): what both variants share.
  - The connection's state record `Conn`. It holds the fields the handlers
    change, plus the environment's view: which completion is outstanding, the
    log of issued operations, the trace of fired callbacks, and how often the
    object deleted itself.
  - The inputs that drive a connection: completions and the owner's calls.
  - The callback-firing helpers and decimal rendering of the port.
- `websocket_connection.dfy`: the plain variant.
  - `PlainSpec` gives each handler as a function on `Conn`. `Step` and `Run`
    apply them to a sequence of inputs. Invariants are proved over every
    sequence of inputs after `connect()`.
  - `PlainConnection.Connection` is the object itself: a class with one method
    per handler, each proved equal to its function.
- `websocket_connection_ssl.dfy`: the TLS variant, with the same layout
  (`TlsSpec`, `TlsConnection.Connection`).
- Both variant files also give corrected handlers for the defects listed under
  Findings, and prove the invariants the corrected handlers keep.
- `websocket_native.dfy` (`Native`):
  - how `WebSocket(url)` derives the request path, the variant and the port from
    the parsed URL (a function, and the method with the native's loop);
  - `std::stoi` and the `uint16_t` conversion;
  - the read-callback dispatch and the other callback setters;
  - which bytes the read adapters and the writers hand on.

Some behaviours of the code are easy to miss; the model follows the code:

- The plain variant computes the keep-alive ping settings but never applies them.
- The TLS variant keeps the connect deadline armed through the TLS handshake.
- A server name that cannot be set does not end the attempt.
- A scheme other than `ws` or `wss` creates nothing, yet reports no error.
- The read adapters copy every received byte, but the script's text
  (`PushString`) and the JSON parser (`json_loads`) both read that copy as a C
  string, so what they see ends at the first zero byte.

The third and fourth are listed under Findings. So are two defects in how a
connection deletes itself: a completion can run after its object was deleted
and delete it again, and the TLS close handler writes to the object after
deleting it. The fifth row is `Write`, which hands a failed JSON serialisation
(a null pointer) to `strlen`.

## Model

| member | source | states |
|---|---|---|
| ConnectionBase.Decimal | src/websocket_connection.cpp:13-14 | the port rendered as `%hu` does: at least one digit, all digits, no leading zero |
| ConnectionBase.DecimalRoundTrip | src/websocket_connection.cpp:13-15 | the digits given to the resolver as the service denote exactly the port |
| ConnectionBase.DisconnectFired | src/websocket_connection.cpp:25-27 | the disconnect callback is invoked only if installed; it appends exactly one `Disconnected` event and leaves the connect count alone |
| ConnectionBase.ConnectFired | src/websocket_connection.cpp:67-69 | the connect callback is invoked only if installed; it appends exactly one `Connected` event and leaves the disconnect count alone |
| ConnectionBase.ReadFired | src/websocket_connection.cpp:95-100 | the read callback, if installed, receives exactly the given bytes; notification counts unchanged |
| ConnectionBase.Connect | src/websocket_connection.cpp:11-19 | `connect()` issues exactly one resolve, of the address with the port's decimal digits as service; buffer, stream options and trace are unchanged |
| ConnectionBase.OnWrite | src/websocket_connection.cpp:75-80 | a write completion, failed or not, retires one outstanding write and changes nothing else |
| ConnectionBase.Write | src/websocket_connection.cpp:115-117 | `write()` issues exactly one write of the given bytes and changes nothing else but the outstanding write count |
| ConnectionBase.Close | src/websocket_connection.cpp:119-121 | `close()` issues exactly one close with code 1000 and changes nothing else but the outstanding close count |
| ConnectionBase.Release | src/websocket_connection.cpp:82-113 | corrected deletion: the object is deleted exactly when it has not been deleted yet, the owner has let go of it and no completion is outstanding; nothing else changes |
| PlainSpec.OnResolve | src/websocket_connection.cpp:21-33 | error: disconnect fired if installed, the chain ends, nothing issued; success: deadline armed, exactly one transport connect, nothing fired; `pending_delete` and deletions untouched |
| PlainSpec.OnConnect | src/websocket_connection.cpp:35-54 | error: disconnect, the chain ends; success: deadline cleared, decorator installed, exactly one upgrade to address and endpoint; keep-alive pings and server name never changed |
| PlainSpec.OnHandshake | src/websocket_connection.cpp:56-73 | error: disconnect, buffer untouched; success: buffer cleared, connect fired if installed, exactly one read |
| PlainSpec.OnRead | src/websocket_connection.cpp:82-104 | success: the callback gets `buffer[..n]`, the buffer becomes `buffer[n..]`, one new read; error with `pending_delete`: one more deletion, nothing fired; error otherwise: disconnect fired, not deleted; no read after an error |
| PlainSpec.OnClose | src/websocket_connection.cpp:106-113 | retires the close; deletes exactly when the close failed with `pending_delete` set; nothing else changes |
| PlainSpec.Handle | src/websocket_connection.cpp:21-121 | every handler keeps the connection's identity and whether it has run on released memory |
| PlainSpec.Step | src/websocket_connection.cpp:21-121 | a completion for nothing outstanding never arrives; one after a deletion runs its handler on released memory, which is flagged, and only the read and close handlers can then delete again |
| PlainSpec.AttemptInv | src/websocket_connection.cpp:11-17 | right after `connect()` the invariant holds |
| PlainSpec.ResolveInv | src/websocket_connection.cpp:21-33 | the resolve handler keeps the invariant and the connection's identity |
| PlainSpec.ConnectInv | src/websocket_connection.cpp:35-54 | the transport-connect handler keeps the invariant (deadline cleared and decorator set before the upgrade) |
| PlainSpec.HandshakeInv | src/websocket_connection.cpp:56-73 | the upgrade handler keeps the invariant (connect fires at most once, buffer cleared before the read) |
| PlainSpec.ReadInv | src/websocket_connection.cpp:82-104 | the read handler keeps the invariant, whether it delivers, deletes or notifies |
| PlainSpec.SideInv | src/websocket_connection.cpp:75-121 | write and close completions and the owner's calls change neither stage, buffer, stream options nor trace, and delete at most once |
| PlainSpec.StepInv | src/websocket_connection.cpp:21-121 | every input keeps the invariant, which holds until a handler has run on released memory |
| PlainSpec.RunInv | src/websocket_connection.cpp:21-121 | every sequence of inputs keeps the invariant and the identity |
| PlainSpec.AttemptNotifiesOnce | src/websocket_connection.cpp:21-93 | after `connect()` and any sequence of inputs in which no handler has run on released memory: each of the connect and disconnect callbacks fires at most once; nothing fires before the chain ends; the object has deleted itself at most once; with both callbacks installed, an ended chain has fired one of them |
| PlainSpec.AttemptTimeout | src/websocket_connection.cpp:30-44 | until a handler runs on released memory, the 30-second deadline is armed while the transport connect is outstanding, and cleared with the decorator installed during the upgrade and the read loop |
| PlainSpec.ReadDeliversFrame | src/websocket_connection.cpp:95-103 | a successful read hands the read callback exactly the frame, leaves the buffer empty and issues exactly one new read |
| PlainSpec.StepLeavesTlsStateAlone | src/websocket_connection.cpp:44-52 | no plain handler touches `wsconnect`, keep-alive pings or a server name |
| PlainSpec.RunLeavesTlsStateAlone | src/websocket_connection.cpp:46-52 | over any run, the computed keep-alive ping setting is never applied and `wsconnect` is never written |
| PlainSpec.ReadDeleteThenCloseRunsOnFreed | src/websocket_connection.cpp:82-113 | with `pending_delete` set and a close outstanding, a read error deletes silently; the close completion then runs on the released object, and a failed close deletes it a second time |
| PlainSpec.CloseDeleteThenReadRunsOnFreed | src/websocket_connection.cpp:82-113 | the other order: the failed close deletes the object; the read completion then runs on released memory and deletes it again if the read failed, or calls the read callback with the frame and reads again |
| PlainSpec.OnReadFixed | src/websocket_connection.cpp:82-93 | corrected: a failed read with `pending_delete` set ends the read loop silently without deleting; every other case is the handler as written |
| PlainSpec.OnCloseFixed | src/websocket_connection.cpp:106-113 | corrected: the close handler as written, except that it never deletes |
| PlainSpec.HandleFixed | src/websocket_connection.cpp:82-113 | corrected: the handlers as written up to deletion; a live object is deleted exactly when the owner has let go of it and nothing is outstanding |
| PlainSpec.StepFixedInv | src/websocket_connection.cpp:21-121 | every corrected input keeps the invariant, the identity and the deletion protocol |
| PlainSpec.RunFixedInv | src/websocket_connection.cpp:21-121 | every sequence of corrected inputs keeps them |
| PlainSpec.FixedAttemptReleasesOnce | src/websocket_connection.cpp:82-113 | with the corrected deletion, after `connect()` and any inputs: no handler runs on released memory; the object is deleted at most once, and exactly when the owner has let go of it and nothing is outstanding; each callback fires at most once, and an ended chain with both installed has fired one |
| PlainConnection.Connection.constructor | src/websocket_connection.cpp:5-9 | a new connection has nothing installed, nothing issued and the timeout cleared |
| PlainConnection.Connection.SetCallbacks | src/websocket_native.cpp:88 | the owner replaces the callback slots and nothing else |
| PlainConnection.Connection.Abandon | src/websocket_connection.cpp:84 | the owner sets `pending_delete`, which the error paths consult, and nothing else |
| PlainConnection.Connection.Connect | src/websocket_connection.cpp:11-19 | exactly one resolve of the address with the decimal port as service |
| PlainConnection.Connection.OnResolve | src/websocket_connection.cpp:21-33 | error: disconnect once if installed, no connect issued; success: deadline armed, exactly one transport connect, nothing fired |
| PlainConnection.Connection.OnConnect | src/websocket_connection.cpp:35-54 | error: disconnect, no upgrade; success: deadline cleared, decorator installed, ping setting unchanged, exactly one upgrade to address and endpoint |
| PlainConnection.Connection.OnHandshake | src/websocket_connection.cpp:56-73 | error: disconnect, no read, buffer untouched; success: buffer cleared, connect fired if installed, exactly one read |
| PlainConnection.Connection.OnWrite | src/websocket_connection.cpp:75-80 | a write completion, failed or not, changes nothing but the outstanding write count |
| PlainConnection.Connection.OnRead | src/websocket_connection.cpp:82-104 | success: callback gets `buffer[..n]`, buffer becomes `buffer[n..]`, one new read; error with `pending_delete`: deleted, nothing fired; error otherwise: disconnect fired, not deleted; no read after an error |
| PlainConnection.Connection.OnClose | src/websocket_connection.cpp:106-113 | deleted exactly when the close failed with `pending_delete` set; nothing fired or issued |
| PlainConnection.Connection.Write | src/websocket_connection.cpp:115-117 | exactly one write of the given bytes is issued |
| PlainConnection.Connection.Close | src/websocket_connection.cpp:119-121 | exactly one close with code 1000 is issued |
| PlainConnection.Connection.NotifyDisconnect | src/websocket_connection.cpp:25-27 | the disconnect callback is invoked if installed, and nothing else changes |
| TlsSpec.ChainFailed | src/websocket_connection_ssl.cpp:24-33 | a chain failure fires disconnect if installed, clears `wsconnect`, ends the chain and issues nothing |
| TlsSpec.OnResolve | src/websocket_connection_ssl.cpp:22-37 | error: a chain failure; success: deadline armed, exactly one transport connect, nothing fired, `wsconnect` unchanged |
| TlsSpec.OnConnect | src/websocket_connection_ssl.cpp:39-70 | as written: error: a chain failure; success: deadline re-armed and exactly the TLS handshake issued; name accepted: it is `address:port` and nothing fires; name refused: disconnect fired and `wsconnect` cleared, the handshake issued all the same |
| TlsSpec.OnConnectFixed | src/websocket_connection_ssl.cpp:39-70 | corrected: a refused server name ends the attempt like any chain failure; otherwise the handler as written |
| TlsSpec.OnSslHandshake | src/websocket_connection_ssl.cpp:72-95 | error: a chain failure; success: deadline cleared, keep-alive pings and decorator applied, exactly one upgrade; server name kept |
| TlsSpec.OnHandshake | src/websocket_connection_ssl.cpp:97-119 | error: a chain failure; success: buffer cleared, connect fired if installed, exactly one read, `wsconnect` set |
| TlsSpec.OnRead | src/websocket_connection_ssl.cpp:130-160 | success: the callback gets `buffer[..n]`, the buffer becomes `buffer[n..]`, one new read; error with `pending_delete`: one more deletion, nothing fired; error otherwise: disconnect and `wsconnect` cleared |
| TlsSpec.OnClose | src/websocket_connection_ssl.cpp:162-173 | as written: `wsconnect` cleared on every path; deleted exactly when the close failed with `pending_delete` set, and then the clearing is flagged as a write to released memory |
| TlsSpec.OnReadFixed | src/websocket_connection_ssl.cpp:130-148 | corrected: a failed read with `pending_delete` set clears `wsconnect` and ends the loop silently, without deleting; every other case is the handler as written |
| TlsSpec.OnCloseFixed | src/websocket_connection_ssl.cpp:162-173 | corrected: the close handler as written, except that it never deletes and so never writes to released memory |
| TlsSpec.Handle | src/websocket_connection_ssl.cpp:22-183 | every handler keeps the identity; once a handler has run on released memory that stays so |
| TlsSpec.HandleFixed | src/websocket_connection_ssl.cpp:22-183 | corrected: identity kept, nothing runs on released memory, and a live object is deleted exactly when the owner has let go of it and nothing is outstanding |
| TlsSpec.Step | src/websocket_connection_ssl.cpp:22-183 | a completion for nothing outstanding never arrives; one after a deletion runs its handler on released memory, which is flagged |
| TlsSpec.AttemptInv | src/websocket_connection_ssl.cpp:12-20 | right after `connect()` both the as-written and the corrected invariant hold |
| TlsSpec.ResolveInv | src/websocket_connection_ssl.cpp:22-37 | the resolve handler keeps the as-written invariant |
| TlsSpec.ConnectInv | src/websocket_connection_ssl.cpp:39-70 | the transport-connect handler, server-name failure included, keeps the as-written invariant (deadline re-armed, at most one disconnect before the TLS handshake) |
| TlsSpec.SslHandshakeInv | src/websocket_connection_ssl.cpp:72-95 | the TLS handshake handler keeps the as-written invariant |
| TlsSpec.HandshakeInv | src/websocket_connection_ssl.cpp:97-119 | the upgrade handler keeps the as-written invariant (`wsconnect` set only on entering the read loop) |
| TlsSpec.ReadInv | src/websocket_connection_ssl.cpp:130-160 | the read handler keeps the as-written invariant |
| TlsSpec.SideInv | src/websocket_connection_ssl.cpp:121-183 | write and close completions and owner calls keep the as-written invariant |
| TlsSpec.StepInv | src/websocket_connection_ssl.cpp:22-183 | every input keeps the as-written invariant, which holds until a handler has run on released memory |
| TlsSpec.RunInv | src/websocket_connection_ssl.cpp:22-183 | every sequence of inputs keeps the as-written invariant |
| TlsSpec.AttemptNotifiesAtMostTwice | src/websocket_connection_ssl.cpp:22-160 | as written, in runs where no handler has run on released memory: connect fires at most once and disconnect at most twice per attempt, neither before the TLS handshake is issued; with both callbacks installed, the read loop runs only after connect fired, and an ended chain has fired at least one of them; deadline armed through transport connect and TLS handshake, cleared with pings on from the upgrade on; a live object with `wsconnect` set is reading; at most one deletion |
| TlsSpec.SniFailureNotifiesTwice | src/websocket_connection_ssl.cpp:54-82 | server name not set, then TLS handshake error: the disconnect callback fires twice in one attempt |
| TlsSpec.SniFailureConnectsAfterDisconnect | src/websocket_connection_ssl.cpp:54-117 | server name not set, then the handshakes succeed: disconnect and then connect both fire, `wsconnect` ends up set, with no server name |
| TlsSpec.CloseErrorWritesAfterDelete | src/websocket_connection_ssl.cpp:162-173 | a failed close with `pending_delete` set deletes the object and then writes `wsconnect` in it |
| TlsSpec.ReleaseDeletesTwice | src/websocket_connection_ssl.cpp:130-173 | with `pending_delete` set and a close outstanding, a failed read and a failed close each delete, in either order; the second runs on released memory and deletes the object again |
| TlsSpec.ResolveInvFixed | src/websocket_connection_ssl.cpp:22-37 | the resolve handler keeps the corrected invariant |
| TlsSpec.ConnectInvFixed | src/websocket_connection_ssl.cpp:39-70 | the corrected transport-connect handler keeps the corrected invariant, and the server name is set when the TLS handshake starts |
| TlsSpec.SslHandshakeInvFixed | src/websocket_connection_ssl.cpp:72-95 | the TLS handshake handler keeps the corrected invariant |
| TlsSpec.HandshakeInvFixed | src/websocket_connection_ssl.cpp:97-119 | the upgrade handler keeps the corrected invariant |
| TlsSpec.ReadInvFixed | src/websocket_connection_ssl.cpp:130-160 | the read handler keeps the corrected invariant |
| TlsSpec.SideInvFixed | src/websocket_connection_ssl.cpp:121-183 | write completions, the corrected close handler and owner calls keep the corrected invariant |
| TlsSpec.StepInvFixed | src/websocket_connection_ssl.cpp:22-183 | every input keeps the corrected invariant |
| TlsSpec.RunInvFixed | src/websocket_connection_ssl.cpp:22-183 | every sequence of inputs keeps the corrected invariant |
| TlsSpec.FixedAttemptNotifiesOnce | src/websocket_connection_ssl.cpp:39-70 | with the corrected handlers: each callback at most once, nothing before the chain ends, one outcome after it with both installed; the TLS handshake and everything after it run only with the server name `address:port` set; no handler runs on released memory, and the object is deleted at most once, exactly when the owner has let go of it and nothing is outstanding |
| TlsSpec.OnCloseFixedNoWriteAfterDelete | src/websocket_connection_ssl.cpp:162-173 | the corrected close handler clears `wsconnect`, retires the close and changes nothing else; the object is deleted after it, once, exactly when nothing else is outstanding, and never written to afterwards |
| TlsSpec.ServerNameEncodesPort | src/websocket_connection_ssl.cpp:52 | the server name is the address, `:`, then digits without leading zero denoting the port |
| TlsSpec.ConnectSetsServerName | src/websocket_connection_ssl.cpp:52-69 | a successful connect with the name accepted re-arms the deadline, sets the name to `address:port`, issues exactly the TLS handshake and fires nothing |
| TlsSpec.ChainFailureClearsWsconnect | src/websocket_connection_ssl.cpp:24-107 | every failure of resolve, connect, TLS handshake or upgrade fires disconnect if installed, clears `wsconnect` and issues nothing further |
| TlsSpec.ReadLoop | src/websocket_connection_ssl.cpp:130-160 | success: the frame is delivered exactly, buffer emptied, one new read; error with `pending_delete`: silent deletion; error otherwise: disconnect and `wsconnect` cleared; no read after an error |
| TlsConnection.Connection.constructor | src/websocket_connection_ssl.cpp:5-10 | a new connection has nothing installed, nothing issued and `wsconnect` clear |
| TlsConnection.Connection.SetCallbacks | src/websocket_native.cpp:103 | the owner replaces the callback slots and nothing else |
| TlsConnection.Connection.Abandon | src/websocket_connection_ssl.cpp:134 | the owner sets `pending_delete` and nothing else |
| TlsConnection.Connection.Connect | src/websocket_connection_ssl.cpp:12-20 | exactly one resolve of the address with the decimal port as service |
| TlsConnection.Connection.OnResolve | src/websocket_connection_ssl.cpp:22-37 | error: disconnect, `wsconnect` cleared, nothing issued; success: deadline armed, exactly one transport connect |
| TlsConnection.Connection.OnConnect | src/websocket_connection_ssl.cpp:39-70 | error: disconnect, `wsconnect` cleared, nothing issued; success: deadline re-armed and the TLS handshake issued; name accepted: it is `address:port` and nothing fired; name refused: disconnect fired and `wsconnect` cleared all the same |
| TlsConnection.Connection.OnSslHandshake | src/websocket_connection_ssl.cpp:72-95 | error: disconnect, `wsconnect` cleared; success: deadline cleared, keep-alive pings and decorator applied, exactly one upgrade |
| TlsConnection.Connection.OnHandshake | src/websocket_connection_ssl.cpp:97-119 | error: disconnect, `wsconnect` cleared; success: buffer cleared, connect fired, one read, `wsconnect` set |
| TlsConnection.Connection.OnWrite | src/websocket_connection_ssl.cpp:121-128 | a write completion changes nothing but the outstanding write count |
| TlsConnection.Connection.OnRead | src/websocket_connection_ssl.cpp:130-160 | success: callback gets `buffer[..n]`, buffer becomes `buffer[n..]`, one new read; error with `pending_delete`: deleted silently; error otherwise: disconnect and `wsconnect` cleared |
| TlsConnection.Connection.OnClose | src/websocket_connection_ssl.cpp:162-173 | `wsconnect` cleared on every path; deleted exactly when the close failed with `pending_delete` set, and then the clearing is a write to released memory |
| TlsConnection.Connection.Write | src/websocket_connection_ssl.cpp:175-178 | exactly one write of the given bytes is issued |
| TlsConnection.Connection.Close | src/websocket_connection_ssl.cpp:180-183 | exactly one close with code 1000 is issued |
| TlsConnection.Connection.NotifyDisconnect | src/websocket_connection_ssl.cpp:27-30 | the disconnect callback is invoked if installed, and nothing else changes |
| Native.JoinPairsSnoc | src/websocket_native.cpp:244-258 | joining one more pair appends `&` and that pair |
| Native.QuerySuffixSnoc | src/websocket_native.cpp:246-257 | iteration `i` appends `?` (first) or `&` (later) and `key=val` of pair `i` |
| Native.QuerySuffixIsQueryString | src/websocket_native.cpp:244-258 | the loop's text equals the usual query string: nothing for no pairs, else `?` and the pairs joined by `&` in index order |
| Native.QuerySuffix | src/websocket_native.cpp:244-258 | the appended text is empty exactly when there are no query pairs, and otherwise starts with `?` |
| Native.RequestPath | src/websocket_native.cpp:237-258 | without query pairs the request path is the URL's path, `/` when empty |
| Native.QueryNotEncoded | src/websocket_native.cpp:254-257 | keys and values are appended verbatim, so two different queries give the same path |
| Native.SkipSpace | src/websocket_native.cpp:267 | `stoi` skips a leading run of white space: every character dropped is white space, and what remains does not start with one |
| Native.DigitPrefix | src/websocket_native.cpp:267 | `stoi` reads the longest run of digits |
| Native.Stoi | src/websocket_native.cpp:267 | a value `stoi` returns is within `int`; what it returns on each input is stated by `Native.StoiNumeral` and `Native.StoiNoDigits` |
| Native.SignedNumeral | src/websocket_native.cpp:267 | after the white space, the value read (optional sign, then digits) is within `int` |
| Native.Signed | src/websocket_native.cpp:267 | a value given to the digits with their sign is within `int` |
| Native.StoiNumeral | src/websocket_native.cpp:267 | white space, an optional `+` or `-`, at least one digit and then a non-digit: `stoi` returns the signed value of the digits when it fits `int` and throws otherwise; what follows the digits is ignored |
| Native.StoiNoDigits | src/websocket_native.cpp:267 | white space and an optional sign not followed by a digit: `stoi` throws |
| Native.DigitPrefixOfDigits | src/websocket_native.cpp:267 | a string of digits is read entirely |
| Native.StoiDecimal | src/websocket_native.cpp:267 | `stoi` reads back the decimal numeral of every non-negative `int` |
| Native.ToPort | src/websocket_native.cpp:267 | the `uint16_t` parameter receives the value modulo 2^16, unchanged when in range |
| Native.Build | src/websocket_native.cpp:261-276 | building a variant either creates a connection or reports an invalid URL |
| Native.Derive | src/websocket_native.cpp:229-285 | as written: a connection is created only for `ws` or `wss`, the TLS variant exactly for `wss`; the pointer is left unassigned exactly when the URL parses with another scheme |
| Native.DeriveChecked | src/websocket_native.cpp:261-284 | corrected: never an unassigned pointer, and otherwise the outcome as written |
| Native.AppendQuery | src/websocket_native.cpp:244-258 | the loop appends exactly the query suffix to the path |
| Native.NativeWebSocket | src/websocket_native.cpp:229-285 | the native's body computes the derivation as written |
| Native.SchemeSelectsVariant | src/websocket_native.cpp:261-276 | `wss` creates the TLS variant on port 443 and `ws` the plain one on port 80 when the URL has no port, for the URL's host and request path |
| Native.ExplicitPort | src/websocket_native.cpp:263-275 | a decimal port in the URL is connected to modulo 2^16, and exactly when below 65536 |
| Native.InvalidPortOrUrl | src/websocket_native.cpp:280-284 | a URL the parser rejects, or a port `stoi` rejects, gives handle 0 |
| Native.OtherSchemeLeavesUnassigned | src/websocket_native.cpp:261-278 | as written, any other scheme creates a handle without creating a connection |
| Native.DeriveCheckedNeverUnassigned | src/websocket_native.cpp:261-284 | corrected: never an unassigned connection; the same connections as written, for `ws`/`wss` only; everything else is an invalid URL |
| Native.SetReadCallback | src/websocket_native.cpp:67-117 | the read setter never touches the connect and disconnect slots |
| Native.SetReadCallbackDispatch | src/websocket_native.cpp:85-115 | type 0 installs the JSON adapter and type 1 the string adapter with the given function and data; an invalid handle or callback, or any other type, leaves the callbacks unchanged |
| Native.SetConnectCallback | src/websocket_native.cpp:147-173 | a valid handle and callback install the connect slot and nothing else; otherwise nothing changes |
| Native.SetDisconnectCallback | src/websocket_native.cpp:119-145 | a valid handle and callback install the disconnect slot and nothing else; otherwise nothing changes |
| Native.Message | src/websocket_native.cpp:90 | the adapter's message has exactly `size` characters, byte for byte, zeros included |
| Native.CString | src/websocket_native.cpp:110 | a C string read from the message stops at its first zero |
| Native.ZeroCutsDeliveredText | src/websocket_native.cpp:88-113 | the message keeps all bytes, but the text the script receives stops at the first zero byte |
| Native.CStringLength | src/websocket_native.cpp:194 | `strlen` is the index of the first zero |
| Native.WritePayload | src/websocket_native.cpp:210 | the bytes sent are the prefix before the first zero, none of them zero |
| Native.WriteString | src/websocket_native.cpp:198-212 | a valid handle issues exactly one write of the string's `strlen` bytes and changes nothing else; an invalid one changes nothing |
| Native.WriteJson | src/websocket_native.cpp:175-196 | as written: with a valid handle and a serialised object, exactly one write of the text up to its first zero byte and nothing else; an invalid handle or no object changes nothing; a failed serialisation (and only that) is undefined |
| Native.WriteJsonDumpFailureUndefined | src/websocket_native.cpp:190-194 | as written, a value `json_dumps` cannot serialise reaches `strlen` with a null pointer |
| Native.WriteJsonChecked | src/websocket_native.cpp:175-196 | corrected: one write of the serialised text for a valid handle and a serialised object; nothing changes otherwise, a failed serialisation included |
| Native.WriteJsonCheckedDefined | src/websocket_native.cpp:175-196 | corrected: a failed serialisation changes nothing, and everywhere the native is defined as written the corrected one agrees |
| Native.WriteStopsAtZero | src/websocket_native.cpp:194 | a buffer with a zero inside is sent only up to that zero |

## Left out

- Boost.Asio and Beast I/O (resolver results, endpoints, TCP and WebSocket framing, buffers' capacity): each completion is an input with an error code, and a successful read brings the frame it appended to the buffer. `bytes_transferred` of a read is that frame's length.
- The event loop, strands and `io_context::work`: handlers of one connection run one at a time, and other connections are not modelled.
- OpenSSL: whether `SSL_set_tlsext_host_name` succeeds is an input of the transport-connect completion; the error code it produces is only logged.
- Real time: the deadline is `Armed30` or `Never`.
- Logging, `socketopen` (`websocket_connection_ssl.cpp:185-188`), and `socket_open`, declared in `websocket_connection.h` and defined nowhere.
- `websocket_connection_base.h` is not part of this model. The callback setters become `SetCallbacks`. Setting `pending_delete` becomes `Abandon`. `add_headers` and the `SetHeader` native are left out, because the header store lives in that file. The decorator is a flag.
- The Handle system, `websocket_read_handle`, `GetJSONFromHandle` and `GetFunctionById` are booleans and optional function ids.
- `g_RipExt.Defer`: a fired callback is an event in the trace at the moment the handler invokes it. The script call it defers is not modelled. For the same reason, the order of the connect callback and `wsconnect := true` in the TLS upgrade handler is not visible in the model.
- `json_loads`, `json_dumps` and URL parsing are external. Their results are inputs, and a URL the parser rejects is `None`.
- Native.WriteJson: the text `json_dumps` allocates is never freed (`websocket_native.cpp:192-194`); memory is not modelled, so the leak is not shown.
- The `malloc`/`memcpy`/`free` of the read copy: the callback receives the copied bytes as a value.
- `native_Connect` and `native_Close` (`websocket_native.cpp:43-65`) only check the handle and call `connect()` or `close()`, which the classes model. The handle check is not modelled.
- A completion for an operation that is not outstanding is not an input. A completion that arrives after the object deleted itself runs its handler on the object's last contents and sets `afterFree`; what released memory would really hold is not modelled. This exists only in the spec functions (`Step`, `Run`); the class handler methods require `deletes == 0`, so the classes model only the live object.
- PlainSpec.AttemptNotifiesOnce: stated only for runs in which no handler has run on released memory (`afterFree` clear); after that, the program's behaviour is undefined and the bounds need not hold (see Findings).
- PlainSpec.AttemptNotifiesOnce: the callback slots are those installed before `connect()`. The setters (`websocket_native.cpp:67-173`) can replace them at any later time, and no completion input does that, so the clause "an ended chain with both callbacks installed fired one of them" is about the slots installed at `connect()`.
- PlainSpec.FixedAttemptReleasesOnce: the callback slots are fixed from `connect()` on, as for `PlainSpec.AttemptNotifiesOnce`; replacing them during a run is not modelled.
- TlsSpec.FixedAttemptNotifiesOnce: the callback slots are fixed from `connect()` on, as for `PlainSpec.AttemptNotifiesOnce`; replacing them during a run is not modelled.
- PlainSpec.AttemptTimeout: stated only for runs in which no handler has run on released memory, for the same reason.
- TlsSpec.AttemptNotifiesAtMostTwice: stated only for runs in which no handler has run on released memory, for the same reason.
- TlsSpec.AttemptNotifiesAtMostTwice: the callback slots are fixed from `connect()` on, as for `PlainSpec.AttemptNotifiesOnce`; the clauses about installed callbacks are about the slots installed at `connect()`.
- ConnectionBase.Connect: `connect()` is modelled once per object, on a connection with nothing outstanding. `native_Connect` (`websocket_native.cpp:43-53`) lets a script call it again at any time; a second resolve chain beside a pending completion is not modelled. The same holds for `PlainConnection.Connection.Connect` and `TlsConnection.Connection.Connect`.
- ConnectionBase.Write: the bytes are recorded by value when `write()` is called. The source hands Beast a non-owning `const_buffer` over the script's string (`websocket_native.cpp:208-210`), which may change or be released before the write runs; that is not modelled. Beast allows one outstanding `async_write` at a time, but overlapping writes are only counted in `writes`, not flagged. The same holds for `PlainConnection.Connection.Write` and `TlsConnection.Connection.Write`.
- `native_WebSocket` treats only the URL parser and `stoi` as able to throw; `url.path("/")` and `url.port(...)` are taken not to throw.

## Findings

| source | as written | input that shows it | evidently intended | confidence | as-written member | corrected member |
|---|---|---|---|---|---|---|
| src/websocket_native.cpp:261-278 | for a scheme other than `ws` or `wss` neither branch assigns `connection`, and a handle is created for the uninitialised pointer | the URL `http://example.com/` | report an invalid URL and return handle 0 | not executed | Native.OtherSchemeLeavesUnassigned | Native.DeriveCheckedNeverUnassigned |
| src/websocket_connection_ssl.cpp:54-69 | when the server name cannot be set the handler fires disconnect and clears `wsconnect` but does not return, so the TLS handshake is still issued | server name refused, then the TLS handshake fails (disconnect fires twice) or succeeds (disconnect, then connect) | return after notifying, as every other chain failure does | not executed | TlsSpec.SniFailureNotifiesTwice | TlsSpec.FixedAttemptNotifiesOnce |
| src/websocket_connection.cpp:82-113 | with `pending_delete` set, a failed read and a failed close each `delete this`; both can be outstanding at once, so the later completion runs on the released object and it can delete it again | `pending_delete` set and `close()` called during the read loop; the read fails, then the close fails (or the other way round) | delete the object once, after its last outstanding completion | not executed | PlainSpec.ReadDeleteThenCloseRunsOnFreed | PlainSpec.FixedAttemptReleasesOnce |
| src/websocket_connection_ssl.cpp:130-173 | the TLS read and close handlers delete in the same way, with the same double deletion | `pending_delete` set and `close()` called during the read loop; the read and the close both fail, in either order | delete the object once, after its last outstanding completion | not executed | TlsSpec.ReleaseDeletesTwice | TlsSpec.FixedAttemptNotifiesOnce |
| src/websocket_native.cpp:190-194 | the result of `json_dumps` is passed to `strlen` without a null check | a JSON handle whose value `json_dumps` cannot serialise, so that it returns a null pointer | return without writing | not executed | Native.WriteJsonDumpFailureUndefined | Native.WriteJsonChecked |
| src/websocket_connection_ssl.cpp:162-173 | after `delete this` on a failed close, `wsconnect = false` writes to the released object | a close that fails while `pending_delete` is set | touch nothing after deleting | not executed | TlsSpec.CloseErrorWritesAfterDelete | TlsSpec.OnCloseFixedNoWriteAfterDelete |
