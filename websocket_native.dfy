/**
  The script-facing natives of the extension, as far as they compute
  something: how `WebSocket(url)` turns the parsed URL into a connection
  (request path, variant, port), how `SetReadCallback` picks the read adapter,
  which bytes the read adapters hand on and which bytes `Write` and
  `WriteString` send (and when `Write` is undefined).

  URL parsing is external: its result arrives as `Option<UrlParts>`, `None`
  meaning that the parser threw.
*/
module Native {
  import opened ConnectionBase

  // ---------------------------------------------------------------------------
  // Parsed URL and request path

  datatype KeyVal = KeyVal(key: string, val: string)

  /** The components of a parsed URL that the native reads; `port` is empty when the URL has none. */
  datatype UrlParts = UrlParts(scheme: string, host: string, path: string, query: seq<KeyVal>, port: string)

  function Pair(kv: KeyVal): string {
    kv.key + "=" + kv.val
  }

  /**
    The text the loop appends for the first `|q|` query pairs: `?` before the
    first pair, `&` before every later one, each pair verbatim.
  */
  function QuerySuffix(q: seq<KeyVal>): (r: string)
    ensures q == [] <==> r == []
    ensures q != [] ==> r[0] == '?'
  {
    if q == [] then ""
    else QuerySuffix(q[..|q| - 1]) + (if |q| == 1 then "?" else "&") + Pair(q[|q| - 1])
  }

  /** The pairs joined with `&`, first to last. */
  function JoinPairs(q: seq<KeyVal>): string {
    if q == [] then ""
    else if |q| == 1 then Pair(q[0])
    else Pair(q[0]) + "&" + JoinPairs(q[1..])
  }

  /** A query string as usually written: nothing for no pairs, else `?` and the joined pairs. */
  function QueryString(q: seq<KeyVal>): string {
    if q == [] then "" else "?" + JoinPairs(q)
  }

  lemma {:induction false} JoinPairsSnoc(q: seq<KeyVal>, kv: KeyVal)
    requires q != []
    ensures JoinPairs(q + [kv]) == JoinPairs(q) + "&" + Pair(kv)
    decreases |q|
  {
    var qk := q + [kv];
    assert qk[0] == q[0];
    if |q| == 1 {
      assert qk[1..] == [kv];
    } else {
      assert qk[1..] == q[1..] + [kv];
      calc {
        JoinPairs(qk);
        Pair(q[0]) + "&" + JoinPairs(q[1..] + [kv]);
        { JoinPairsSnoc(q[1..], kv); }
        Pair(q[0]) + "&" + (JoinPairs(q[1..]) + "&" + Pair(kv));
        (Pair(q[0]) + "&" + JoinPairs(q[1..])) + "&" + Pair(kv);
      }
    }
  }

  /** The loop builds exactly the usual query string. */
  lemma {:induction false} QuerySuffixIsQueryString(q: seq<KeyVal>)
    ensures QuerySuffix(q) == QueryString(q)
    decreases |q|
  {
    if |q| > 1 {
      var init, last := q[..|q| - 1], q[|q| - 1];
      assert init + [last] == q;
      calc {
        QuerySuffix(q);
        QuerySuffix(init) + "&" + Pair(last);
        { QuerySuffixIsQueryString(init); }
        "?" + JoinPairs(init) + "&" + Pair(last);
        "?" + (JoinPairs(init) + "&" + Pair(last));
        { JoinPairsSnoc(init, last); }
        "?" + JoinPairs(q);
      }
    } else if |q| == 1 {
      assert q[..0] == [];
    }
  }

  lemma QuerySuffixSnoc(q: seq<KeyVal>, i: nat)
    requires i < |q|
    ensures QuerySuffix(q[..i + 1]) == QuerySuffix(q[..i]) + ((if i == 0 then "?" else "&") + Pair(q[i]))
  {
    assert q[..i + 1][..i] == q[..i];
  }

  /** The request path: the URL's path, `/` when it is empty, followed by the query suffix. */
  function RequestPath(url: UrlParts): (r: string)
    ensures url.query == [] ==> r == (if url.path == "" then "/" else url.path)
  {
    (if url.path == "" then "/" else url.path) + QuerySuffix(url.query)
  }

  /** Keys and values are not encoded, so different queries can produce the same request path. */
  lemma QueryNotEncoded()
    ensures QuerySuffix([KeyVal("a", "b&c=d")]) == QuerySuffix([KeyVal("a", "b"), KeyVal("c", "d")])
  {
    var two := [KeyVal("a", "b"), KeyVal("c", "d")];
    assert two[..1] == [KeyVal("a", "b")];
    assert [KeyVal("a", "b")][..0] == [];
    assert [KeyVal("a", "b&c=d")][..0] == [];
  }

  // ---------------------------------------------------------------------------
  // std::stoi and the conversion to uint16_t

  const IntMin: int := -0x8000_0000
  const IntMax: int := 0x7FFF_FFFF

  /** The characters `isspace` accepts in the C locale. */
  predicate IsSpace(c: char) {
    c == ' ' || '\t' <= c <= '\r'
  }

  function SkipSpace(s: string): (r: string)
    ensures |r| <= |s| && r == s[|s| - |r|..]
    ensures forall i :: 0 <= i < |s| - |r| ==> IsSpace(s[i])
    ensures r != [] ==> !IsSpace(r[0])
  {
    if s != [] && IsSpace(s[0]) then SkipSpace(s[1..]) else s
  }

  /** The longest prefix of decimal digits. */
  function DigitPrefix(s: string): (r: string)
    ensures AllDigits(r) && |r| <= |s| && r == s[..|r|]
    ensures |r| < |s| ==> !IsDigit(s[|r|])
  {
    if s == [] || !IsDigit(s[0]) then [] else [s[0]] + DigitPrefix(s[1..])
  }

  /**
    `std::stoi` in base 10: leading white space, an optional sign, then as many
    digits as follow; trailing characters are ignored. No digits, or a value
    outside `int`, throws, which is `None` here.
  */
  function Stoi(s: string): (r: Option<int>)
    ensures r.Some? ==> IntMin <= r.value <= IntMax
  {
    SignedNumeral(SkipSpace(s))
  }

  /** `stoi` after the white space: an optional sign, then the digits. */
  function SignedNumeral(t: string): (r: Option<int>)
    ensures r.Some? ==> IntMin <= r.value <= IntMax
  {
    var negative := t != [] && t[0] == '-';
    var rest := if t != [] && (t[0] == '-' || t[0] == '+') then t[1..] else t;
    Signed(negative, DigitPrefix(rest))
  }

  /** The value of the digits with the sign applied; no digits, or a value outside `int`, throws. */
  function Signed(negative: bool, digits: string): (r: Option<int>)
    requires AllDigits(digits)
    ensures r.Some? ==> IntMin <= r.value <= IntMax
  {
    if digits == [] then None
    else
      var v: int := if negative then -(DigitsValue(digits) as int) else DigitsValue(digits);
      if IntMin <= v <= IntMax then Some(v) else None
  }

  lemma {:induction false} DigitPrefixOfDigits(s: string)
    requires AllDigits(s)
    ensures DigitPrefix(s) == s
    decreases |s|
  {
    if s != [] {
      DigitPrefixOfDigits(s[1..]);
      assert [s[0]] + s[1..] == s;
    }
  }

  /** Blanks in front of text that does not start with one are skipped, and nothing more. */
  lemma {:induction false} SkipBlanks(blanks: string, t: string)
    requires forall i :: 0 <= i < |blanks| ==> IsSpace(blanks[i])
    requires t != [] ==> !IsSpace(t[0])
    ensures SkipSpace(blanks + t) == t
    decreases |blanks|
  {
    if blanks != [] {
      assert (blanks + t)[0] == blanks[0] && (blanks + t)[1..] == blanks[1..] + t;
      SkipBlanks(blanks[1..], t);
    } else {
      assert blanks + t == t;
    }
  }

  /** A run of digits followed by a non-digit is read up to that non-digit. */
  lemma {:induction false} DigitPrefixStops(digits: string, rest: string)
    requires AllDigits(digits) && (rest != [] ==> !IsDigit(rest[0]))
    ensures DigitPrefix(digits + rest) == digits
    decreases |digits|
  {
    if digits != [] {
      assert (digits + rest)[0] == digits[0] && (digits + rest)[1..] == digits[1..] + rest;
      DigitPrefixStops(digits[1..], rest);
      assert [digits[0]] + digits[1..] == digits;
    } else {
      assert digits + rest == rest;
    }
  }

  /** The optional sign `stoi` accepts before the digits. */
  predicate IsSign(sign: string) {
    sign == "" || sign == "+" || sign == "-"
  }

  /**
    What `stoi` makes of a numeral: white space, an optional sign, at least one
    digit and then anything that is not a digit give the signed value of the
    digits when it fits an `int`, and throw otherwise; the rest is ignored.
  */
  lemma StoiNumeral(blanks: string, sign: string, digits: string, rest: string)
    requires forall i :: 0 <= i < |blanks| ==> IsSpace(blanks[i])
    requires IsSign(sign) && digits != [] && AllDigits(digits) && (rest != [] ==> !IsDigit(rest[0]))
    ensures var v := if sign == "-" then -(DigitsValue(digits) as int) else DigitsValue(digits);
      Stoi(blanks + sign + digits + rest) == (if IntMin <= v <= IntMax then Some(v) else None)
  {
    var t := sign + digits + rest;
    assert blanks + sign + digits + rest == blanks + t;
    assert IsDigit(digits[0]);
    assert t[0] == (if sign == "" then digits[0] else sign[0]);
    SkipBlanks(blanks, t);
    SignedDigits(sign, digits, rest);
  }

  /** Proof step of `StoiNumeral`: the part after the white space. */
  lemma SignedDigits(sign: string, digits: string, rest: string)
    requires IsSign(sign) && digits != [] && AllDigits(digits) && (rest != [] ==> !IsDigit(rest[0]))
    ensures var v := if sign == "-" then -(DigitsValue(digits) as int) else DigitsValue(digits);
      SignedNumeral(sign + digits + rest) == (if IntMin <= v <= IntMax then Some(v) else None)
  {
    var u := digits + rest;
    var t := sign + u;
    assert sign + digits + rest == t;
    DigitPrefixStops(digits, rest);
    assert u[0] == digits[0] && IsDigit(u[0]);
    var unsigned := if t != [] && (t[0] == '-' || t[0] == '+') then t[1..] else t;
    if sign == "" {
      assert t == u;
    } else {
      assert t[0] == sign[0] && t[1..] == u;
    }
    assert unsigned == u && ((t != [] && t[0] == '-') <==> sign == "-");
    assert SignedNumeral(t) == Signed(sign == "-", digits);
    SignedValue(sign == "-", digits);
  }

  /** Proof step of `SignedDigits`: `Signed` on a nonempty run of digits. */
  lemma SignedValue(negative: bool, digits: string)
    requires digits != [] && AllDigits(digits)
    ensures var v := if negative then -(DigitsValue(digits) as int) else DigitsValue(digits);
      Signed(negative, digits) == (if IntMin <= v <= IntMax then Some(v) else None)
  {
  }

  /** Without a digit after the white space and the optional sign, `stoi` throws. */
  lemma StoiNoDigits(blanks: string, sign: string, rest: string)
    requires forall i :: 0 <= i < |blanks| ==> IsSpace(blanks[i])
    requires IsSign(sign) && (rest != [] ==> !IsDigit(rest[0]))
    requires sign == "" && rest != [] ==> !IsSpace(rest[0]) && rest[0] != '+' && rest[0] != '-'
    ensures Stoi(blanks + sign + rest).None?
  {
    var t := sign + rest;
    assert blanks + sign + rest == blanks + t;
    assert t != [] ==> t[0] == (if sign == "" then rest[0] else sign[0]);
    SkipBlanks(blanks, t);
    SignNoDigits(sign, rest);
  }

  /** Proof step of `StoiNoDigits`: the part after the white space. */
  lemma SignNoDigits(sign: string, rest: string)
    requires IsSign(sign) && (rest != [] ==> !IsDigit(rest[0]))
    requires sign == "" && rest != [] ==> rest[0] != '+' && rest[0] != '-'
    ensures SignedNumeral(sign + rest).None?
  {
    var t := sign + rest;
    DigitPrefixStops([], rest);
    assert [] + rest == rest;
    if sign == "" {
      assert t == rest;
    } else {
      assert t[0] == sign[0] && t[1..] == rest;
    }
  }

  /** `stoi` reads back every decimal numeral of a non-negative `int`. */
  lemma StoiDecimal(n: nat)
    requires n <= IntMax
    ensures Stoi(Decimal(n)) == Some(n)
  {
    DecimalRoundTrip(n);
    StoiDigits(Decimal(n));
  }

  /** Proof step of `StoiDecimal`: an unsigned run of digits within `int`. */
  lemma StoiDigits(d: string)
    requires d != [] && AllDigits(d) && DigitsValue(d) <= IntMax
    ensures Stoi(d) == Some(DigitsValue(d) as int)
  {
    assert [] + "" + d + [] == d;
    StoiNumeral([], "", d, []);
  }

  /** The value passed to the constructor's `uint16_t` parameter: the `int` reduced modulo 2^16. */
  function ToPort(v: int): (p: Port)
    ensures 0 <= v < 0x1_0000 ==> p == v
    ensures (p - v) % 0x1_0000 == 0
  {
    v % 0x1_0000
  }

  // ---------------------------------------------------------------------------
  // native_WebSocket

  datatype Variant = Plain | Tls

  /**
    What `WebSocket(url)` returns: a handle to a new connection of the given
    variant, handle 0 after reporting an invalid URL, or (as written) a handle
    to a pointer that was never assigned, for a scheme that is neither `ws` nor `wss`.
  */
  datatype Outcome =
    | Created(variant: Variant, host: string, endpoint: string, port: Port)
    | InvalidUrl
    | Unassigned

  function DefaultPort(v: Variant): string {
    if v == Tls then "443" else "80"
  }

  /** Builds the connection of variant `v` for `url`, with `stoi` possibly throwing. */
  function Build(url: UrlParts, v: Variant): (r: Outcome)
    ensures r.Created? || r == InvalidUrl
  {
    var port := if url.port == "" then DefaultPort(v) else url.port;
    match Stoi(port)
    case None => InvalidUrl
    case Some(p) => Created(v, url.host, RequestPath(url), ToPort(p))
  }

  /** The native as written. */
  function Derive(parsed: Option<UrlParts>): (r: Outcome)
    ensures r.Created? ==>
      parsed.Some? && parsed.value.scheme in {"ws", "wss"} && r.variant == (if parsed.value.scheme == "wss" then Tls else Plain)
    ensures r == Unassigned <==> parsed.Some? && parsed.value.scheme != "ws" && parsed.value.scheme != "wss"
  {
    match parsed
    case None => InvalidUrl
    case Some(url) =>
      if url.scheme == "wss" then Build(url, Tls)
      else if url.scheme == "ws" then Build(url, Plain)
      else Unassigned
  }

  /** Corrected: a scheme that is neither `ws` nor `wss` is reported as an invalid URL. */
  function DeriveChecked(parsed: Option<UrlParts>): (r: Outcome)
    ensures r != Unassigned
    ensures Derive(parsed) != Unassigned ==> r == Derive(parsed)
  {
    match Derive(parsed)
    case Unassigned => InvalidUrl
    case r => r
  }

  /** The loop of the native's body: append the query pairs to `base`, in index order. */
  method AppendQuery(base: string, query: seq<KeyVal>) returns (path: string)
    ensures path == base + QuerySuffix(query)
  {
    path := base;
    for i := 0 to |query|
      invariant path == base + QuerySuffix(query[..i])
    {
      ghost var before := path;
      if i == 0 {
        path := path + "?";
      } else {
        path := path + "&";
      }
      var q := query[i];
      path := path + q.key;
      path := path + "=";
      path := path + q.val;
      QuerySuffixSnoc(query, i);
      assert path == before + ((if i == 0 then "?" else "&") + Pair(q));
    }
    assert query[..|query|] == query;
  }

  /**
    The native's body: default the path, append the query, then default the
    port by the scheme and convert it.
  */
  method NativeWebSocket(parsed: Option<UrlParts>) returns (r: Outcome)
    ensures r == Derive(parsed)
  {
    if parsed.None? {
      return InvalidUrl;
    }
    var url := parsed.value;
    if url.path == "" {
      url := url.(path := "/");
    }
    var path := AppendQuery(url.path, url.query);
    var host := url.host;
    if url.scheme == "wss" {
      if url.port == "" {
        url := url.(port := "443");
      }
      var p := Stoi(url.port);
      if p.None? {
        return InvalidUrl;
      }
      return Created(Tls, host, path, ToPort(p.value));
    } else if url.scheme == "ws" {
      if url.port == "" {
        url := url.(port := "80");
      }
      var p := Stoi(url.port);
      if p.None? {
        return InvalidUrl;
      }
      return Created(Plain, host, path, ToPort(p.value));
    }
    return Unassigned;
  }

  /**
    `wss` builds the TLS variant and `ws` the plain one, for the URL's host, with
    the request path; without a port in the URL they connect to 443 and 80.
  */
  lemma SchemeSelectsVariant(url: UrlParts)
    requires url.scheme in {"ws", "wss"} && url.port == ""
    ensures Derive(Some(url)) ==
      if url.scheme == "wss" then Created(Tls, url.host, RequestPath(url), 443)
      else Created(Plain, url.host, RequestPath(url), 80)
  {
    assert Decimal(443) == "443" && Decimal(80) == "80";
    StoiDecimal(443);
    StoiDecimal(80);
  }

  /**
    A port written in the URL as a decimal numeral is read back by `stoi` and
    reduced modulo 2^16: below 65536 it is the port connected to, and a larger
    one wraps around instead of being rejected.
  */
  lemma ExplicitPort(url: UrlParts, n: nat)
    requires url.scheme in {"ws", "wss"} && url.port == Decimal(n) && n <= IntMax
    ensures Derive(Some(url)).Created? && Derive(Some(url)).port == n % 0x1_0000
    ensures n < 0x1_0000 ==> Derive(Some(url)).port == n
  {
    StoiDecimal(n);
  }

  /** A port that `stoi` rejects, and a URL the parser rejects, give handle 0. */
  lemma InvalidPortOrUrl(url: UrlParts)
    requires url.scheme in {"ws", "wss"} && url.port != "" && Stoi(url.port).None?
    ensures Derive(Some(url)) == InvalidUrl && Derive(None) == InvalidUrl
  {
  }

  /** As written, any other scheme returns a handle although no connection was created. */
  lemma OtherSchemeLeavesUnassigned(url: UrlParts)
    requires url.scheme != "ws" && url.scheme != "wss"
    ensures Derive(Some(url)) == Unassigned
  {
  }

  /**
    The corrected native never returns a handle to an unassigned connection,
    creates exactly the connections the native as written creates, and reports
    everything else as an invalid URL.
  */
  lemma DeriveCheckedNeverUnassigned(parsed: Option<UrlParts>)
    ensures DeriveChecked(parsed).Created? || DeriveChecked(parsed) == InvalidUrl
    ensures DeriveChecked(parsed).Created? <==> Derive(parsed).Created?
    ensures DeriveChecked(parsed).Created? ==> DeriveChecked(parsed) == Derive(parsed)
    ensures DeriveChecked(parsed).Created? ==> parsed.Some? && parsed.value.scheme in {"ws", "wss"}
  {
  }

  // ---------------------------------------------------------------------------
  // native_SetReadCallback and the other callback setters

  /** `WebSocket_JSON` and `Websocket_STRING`. */
  const ReadJson: nat := 0
  const ReadString: nat := 1

  /**
    `handleValid` is whether the WebSocket handle reads back, `callback` the
    script function its id resolves to, if any; `callbackType` is the cell,
    read as `uint32_t`. An invalid handle or callback is reported and installs
    nothing; an unknown type installs nothing silently.
  */
  function SetReadCallback(cbs: Callbacks, handleValid: bool, callbackType: int, callback: Option<nat>, data: int): (r: Callbacks)
    ensures r.onConnect == cbs.onConnect && r.onDisconnect == cbs.onDisconnect
  {
    var kind := callbackType % 0x1_0000_0000;
    if !handleValid || callback.None? then cbs
    else if kind == ReadJson then cbs.(onRead := Some(ReadHandler(Json, callback.value, data)))
    else if kind == ReadString then cbs.(onRead := Some(ReadHandler(Text, callback.value, data)))
    else cbs
  }

  /**
    The read slot is replaced exactly when the handle and the callback are
    valid and the type is 0 or 1; it then holds the adapter for that type with
    the given function and data, and is unchanged otherwise.
  */
  lemma SetReadCallbackDispatch(cbs: Callbacks, handleValid: bool, callbackType: int, callback: Option<nat>, data: int)
    requires IntMin <= callbackType <= IntMax
    ensures var r := SetReadCallback(cbs, handleValid, callbackType, callback, data);
      && (handleValid && callback.Some? && callbackType == 0 ==> r.onRead == Some(ReadHandler(Json, callback.value, data)))
      && (handleValid && callback.Some? && callbackType == 1 ==> r.onRead == Some(ReadHandler(Text, callback.value, data)))
      && (!(handleValid && callback.Some? && callbackType in {0, 1}) ==> r == cbs)
  {
  }

  function SetConnectCallback(cbs: Callbacks, handleValid: bool, callback: Option<nat>, data: int): (r: Callbacks)
    ensures r.onDisconnect == cbs.onDisconnect && r.onRead == cbs.onRead
    ensures handleValid && callback.Some? ==> r.onConnect == Some(Handler(callback.value, data))
    ensures !(handleValid && callback.Some?) ==> r == cbs
  {
    if handleValid && callback.Some? then cbs.(onConnect := Some(Handler(callback.value, data))) else cbs
  }

  function SetDisconnectCallback(cbs: Callbacks, handleValid: bool, callback: Option<nat>, data: int): (r: Callbacks)
    ensures r.onConnect == cbs.onConnect && r.onRead == cbs.onRead
    ensures handleValid && callback.Some? ==> r.onDisconnect == Some(Handler(callback.value, data))
    ensures !(handleValid && callback.Some?) ==> r == cbs
  {
    if handleValid && callback.Some? then cbs.(onDisconnect := Some(Handler(callback.value, data))) else cbs
  }

  // ---------------------------------------------------------------------------
  // The bytes handed on by the read adapters and sent by the writers

  function ByteChar(b: Byte): char {
    b as char
  }

  /** The `std::string` a read adapter builds: exactly the delivered bytes, zeros included. */
  function Message(bytes: seq<Byte>): (m: string)
    ensures |m| == |bytes|
    ensures forall i :: 0 <= i < |bytes| ==> m[i] == ByteChar(bytes[i])
  {
    if bytes == [] then [] else Message(bytes[..|bytes| - 1]) + [ByteChar(bytes[|bytes| - 1])]
  }

  /** The length `strlen` finds: the index of the first zero. */
  function CStringLength(mem: seq<Byte>): (n: nat)
    requires 0 in mem
    ensures n < |mem| && mem[n] == 0
    ensures forall i :: 0 <= i < n ==> mem[i] != 0
  {
    if mem[0] == 0 then 0 else 1 + CStringLength(mem[1..])
  }

  /** The bytes up to the first zero, or all of them when there is none (a C string read from the message). */
  function CString(m: string): (r: string)
    ensures r <= m
    ensures forall i :: 0 <= i < |r| ==> r[i] != '\0'
    ensures |r| < |m| ==> m[|r|] == '\0'
  {
    if m == [] || m[0] == '\0' then [] else [m[0]] + CString(m[1..])
  }

  /**
    What reaches the script for a delivered message: the string adapter pushes
    the message as a C string and the JSON adapter parses the text up to its
    first zero, so a message with an embedded zero is cut short there although
    the adapter built it from all `size` bytes.
  */
  lemma {:induction false} ZeroCutsDeliveredText(bytes: seq<Byte>, k: nat)
    requires k < |bytes| && bytes[k] == 0 && forall i :: 0 <= i < k ==> bytes[i] != 0
    ensures |Message(bytes)| == |bytes|
    ensures CString(Message(bytes)) == Message(bytes[..k])
  {
    var m := Message(bytes);
    forall i | 0 <= i < k ensures m[i] != '\0' {
      assert m[i] == ByteChar(bytes[i]);
    }
    CStringAtZero(m, k);
    var mk := Message(bytes[..k]);
    forall i | 0 <= i < k ensures mk[i] == m[i] {
      assert bytes[..k][i] == bytes[i];
    }
  }

  /** A C string read from `m` ends at its first zero. */
  lemma {:induction false} CStringAtZero(m: string, k: nat)
    requires k < |m| && m[k] == '\0' && forall i :: 0 <= i < k ==> m[i] != '\0'
    ensures CString(m) == m[..k]
    decreases k
  {
    if k > 0 {
      CStringAtZero(m[1..], k - 1);
      assert [m[0]] + m[1..][..k - 1] == m[..k];
    }
  }

  /**
    `Write` and `WriteString` send the bytes of the C string `mem` starts
    with: everything before its first zero, none of them zero.
  */
  function WritePayload(mem: seq<Byte>): (r: seq<Byte>)
    requires 0 in mem
    ensures |r| < |mem| && r == mem[..|r|] && mem[|r|] == 0
    ensures forall i :: 0 <= i < |r| ==> r[i] != 0
  {
    mem[..CStringLength(mem)]
  }

  /**
    `WriteString`: with a valid handle, one write of the string's bytes is
    issued on the connection's state; an invalid handle issues nothing.
  */
  function WriteString(s: Conn, handleValid: bool, mem: seq<Byte>): (t: Conn)
    requires 0 in mem
    ensures handleValid ==> t == Write(s, WritePayload(mem))
    ensures handleValid ==> t.env.ops == s.env.ops + [WriteOp(WritePayload(mem))] && t.env.writes == s.env.writes + 1
    ensures !handleValid ==> t == s
  {
    if handleValid then Write(s, WritePayload(mem)) else s
  }

  /**
    The JSON argument of `Write`: no object behind the handle, the text
    `json_dumps` made of the object, or a serialisation that failed (a null
    result).
  */
  datatype JsonArg = NoObject | Dumped(text: seq<Byte>) | DumpFailed

  /**
    `Write`, as written: like `WriteString` with the serialised JSON text. An
    invalid handle or a handle with no object issues nothing. A failed
    serialisation reaches `strlen` with a null pointer, whose behaviour is
    undefined: `None`.
  */
  function WriteJson(s: Conn, handleValid: bool, json: JsonArg): (r: Option<Conn>)
    requires json.Dumped? ==> 0 in json.text
    ensures r.None? <==> handleValid && json.DumpFailed?
    ensures handleValid && json.Dumped? ==> r == Some(Write(s, WritePayload(json.text)))
    ensures handleValid && json.Dumped? ==>
      r.value.env.ops == s.env.ops + [WriteOp(WritePayload(json.text))] && r.value.env.writes == s.env.writes + 1
    ensures !handleValid || json.NoObject? ==> r == Some(s)
  {
    if !handleValid || json.NoObject? then Some(s)
    else if json.DumpFailed? then None
    else Some(WriteString(s, true, json.text))
  }

  /** A JSON value `json_dumps` cannot serialise makes `Write` undefined. */
  lemma WriteJsonDumpFailureUndefined(s: Conn)
    ensures WriteJson(s, true, DumpFailed).None?
  {
  }

  /** `Write` corrected: a failed serialisation returns without writing. */
  function WriteJsonChecked(s: Conn, handleValid: bool, json: JsonArg): (t: Conn)
    requires json.Dumped? ==> 0 in json.text
    ensures handleValid && json.Dumped? ==> t == Write(s, WritePayload(json.text))
    ensures !(handleValid && json.Dumped?) ==> t == s
  {
    if handleValid && json.Dumped? then WriteString(s, true, json.text) else s
  }

  /**
    The corrected `Write` is defined on every argument and agrees with the one
    as written wherever that one is defined.
  */
  lemma WriteJsonCheckedDefined(s: Conn, handleValid: bool, json: JsonArg)
    requires json.Dumped? ==> 0 in json.text
    ensures WriteJson(s, handleValid, json).Some? ==> WriteJson(s, handleValid, json).value == WriteJsonChecked(s, handleValid, json)
    ensures json.DumpFailed? ==> WriteJsonChecked(s, handleValid, json) == s
  {
  }

  /** A written string shorter than its buffer loses everything from the first zero on. */
  lemma WriteStopsAtZero(prefix: seq<Byte>, rest: seq<Byte>)
    requires 0 !in prefix
    ensures 0 in prefix + [0] + rest
    ensures WritePayload(prefix + [0] + rest) == prefix
  {
    var mem := prefix + [0] + rest;
    assert mem[|prefix|] == 0;
    forall i | 0 <= i < |prefix| ensures mem[i] != 0 {
      assert mem[i] == prefix[i] && prefix[i] in prefix;
    }
    assert mem[..|prefix|] == prefix;
  }
}
