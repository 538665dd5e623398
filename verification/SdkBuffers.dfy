/**
 * Buffers of the C client: a growing escape buffer, fixed formatting buffers and a doubling receive
 * buffer. A C string is a sequence of byte-valued characters without NUL; sizes are unbounded and the
 * contracts bound every allocation.
 */
module SdkBuffers {
  import opened Wrappers
  import opened Text

  predicate IsCString(s: string) {
    forall i | 0 <= i < |s| :: 1 <= s[i] as int < 256
  }

  // JSON escaping

  function HexDigit(n: nat): (c: char)
    requires n < 16
    ensures 32 <= c as int < 256 && c != '"' && c != '\\'
  {
    if n < 10 then ('0' as int + n) as char else ('a' as int + n - 10) as char
  }

  function Replacement(c: char): (r: Option<string>)
    requires c as int < 256
    ensures r.Some? ==> 1 <= |r.value| <= 6
  {
    match c
    case '\\' => Some("\\\\")
    case '"' => Some("\\\"")
    case '\n' => Some("\\n")
    case '\r' => Some("\\r")
    case '\t' => Some("\\t")
    case _ => if (c as int) < 32 then Some(['\\', 'u', '0', '0', HexDigit(c as int / 16), HexDigit(c as int % 16)]) else None
  }

  function EscapeChar(c: char): (r: string)
    requires c as int < 256
    ensures 1 <= |r| <= 6
  {
    match Replacement(c)
    case None => [c]
    case Some(text) => text
  }

  function Escape(s: string): (r: string)
    requires IsCString(s)
    ensures |r| <= 6 * |s|
  {
    if s == [] then [] else Escape(s[..|s| - 1]) + EscapeChar(s[|s| - 1])
  }

  lemma EscapeNext(s: string, i: nat)
    requires IsCString(s) && i < |s|
    ensures Escape(s[..i + 1]) == Escape(s[..i]) + EscapeChar(s[i])
  {
    assert s[..i + 1][..i] == s[..i];
  }

  /** realloc to a larger capacity; the first `used` characters move along. */
  method Realloc(buffer: array<char>, used: nat, capacity: nat) returns (grown: array<char>)
    requires used <= buffer.Length && used <= capacity
    ensures fresh(grown) && grown.Length == capacity
    ensures grown[..used] == buffer[..used]
  {
    grown := new char[capacity];
    forall k | 0 <= k < used {
      grown[k] := buffer[k];
    }
  }

  /** memcpy of a text to an offset. */
  method CopyAt(buffer: array<char>, at: nat, text: string)
    requires at + |text| <= buffer.Length
    modifies buffer
    ensures buffer[..at + |text|] == old(buffer[..at]) + text
  {
    forall k | 0 <= k < |text| {
      buffer[at + k] := text[k];
    }
  }

  /** Adds a text behind the `used` characters, with room for a NUL, growing to twice the need. */
  method Put(buffer: array<char>, used: nat, text: string) returns (out: array<char>)
    requires used < buffer.Length
    modifies buffer
    ensures out == buffer || fresh(out)
    ensures used + |text| + 1 <= out.Length
    ensures out.Length == buffer.Length || out.Length == (used + |text| + 1) * 2
    ensures out[..used + |text|] == old(buffer[..used]) + text
  {
    out := buffer;
    if used + |text| + 1 > buffer.Length {
      out := Realloc(buffer, used, (used + |text| + 1) * 2);
    }
    CopyAt(out, used, text);
  }

  /** The reallocating loop of the client; the result is NUL-terminated inside its buffer. */
  method JsonEscape(input: Option<string>) returns (out: array<char>, used: nat)
    requires input.Some? ==> IsCString(input.value)
    ensures fresh(out)
    ensures used + 1 <= out.Length <= 12 * (if input.Some? then |input.value| else 0) + 2
    ensures out[..used] == Escape(if input.Some? then input.value else "")
    ensures out[used] == '\0'
  {
    var value := if input.Some? then input.value else "";
    var len := |value|;
    used := 0;
    out := new char[len * 2 + 1];
    assert value[..0] == [];
    for i := 0 to len
      invariant fresh(out)
      invariant used + 1 <= out.Length <= 12 * len + 2 && used <= 6 * i
      invariant out[..used] == Escape(value[..i])
    {
      var c := value[i];
      var replacement := Replacement(c);
      var text := if replacement.Some? then replacement.value else [c];
      out := Put(out, used, text);
      used := used + |text|;
      EscapeNext(value, i);
    }
    assert value[..len] == value;
    out[used] := '\0';
  }

  // Decoding, by section 7 of RFC 8259

  function HexValue(c: char): Option<nat> {
    if '0' <= c <= '9' then Some(c as int - '0' as int)
    else if 'a' <= c <= 'f' then Some(c as int - 'a' as int + 10)
    else if 'A' <= c <= 'F' then Some(c as int - 'A' as int + 10)
    else None
  }

  function Hex4(s: string): (r: Option<nat>)
    requires |s| == 4
    ensures r.Some? ==> r.value < 0x10000
  {
    var a, b, c, d := HexValue(s[0]), HexValue(s[1]), HexValue(s[2]), HexValue(s[3]);
    if a.Some? && b.Some? && c.Some? && d.Some?
    then Some(((a.value * 16 + b.value) * 16 + c.value) * 16 + d.value)
    else None
  }

  function Byte(n: nat): char
    requires n < 256
  {
    n as char
  }

  /** UTF-8 of one code point. */
  function Utf8(cp: nat): string
    requires cp < 0x110000
  {
    if cp < 0x80 then [Byte(cp)]
    else if cp < 0x800 then [Byte(0xC0 + cp / 64), Byte(0x80 + cp % 64)]
    else if cp < 0x10000 then [Byte(0xE0 + cp / 4096), Byte(0x80 + cp / 64 % 64), Byte(0x80 + cp % 64)]
    else [Byte(0xF0 + cp / 262144), Byte(0x80 + cp / 4096 % 64), Byte(0x80 + cp / 64 % 64), Byte(0x80 + cp % 64)]
  }

  function SimpleEscape(c: char): Option<char> {
    match c
    case '"' => Some('"')
    case '\\' => Some('\\')
    case '/' => Some('/')
    case 'b' => Some(8 as char)
    case 'f' => Some(12 as char)
    case 'n' => Some('\n')
    case 'r' => Some('\r')
    case 't' => Some('\t')
    case _ => None
  }

  /** One element at the head of a JSON string: its bytes and how much text it takes. */
  function DecodeHead(s: string): (r: Option<(string, nat)>)
    requires s != []
    ensures r.Some? ==> 1 <= r.value.1 <= |s|
  {
    if s[0] == '"' || (s[0] as int) < 32 then None
    else if s[0] != '\\' then Some(([s[0]], 1))
    else if |s| < 2 then None
    else if SimpleEscape(s[1]).Some? then Some(([SimpleEscape(s[1]).value], 2))
    else if s[1] != 'u' || |s| < 6 || Hex4(s[2..6]).None? then None
    else
      var unit := Hex4(s[2..6]).value;
      if unit < 0xD800 || unit > 0xDFFF then Some((Utf8(unit), 6))
      else if unit > 0xDBFF || |s| < 12 || s[6] != '\\' || s[7] != 'u' || Hex4(s[8..12]).None? then None
      else
        var low := Hex4(s[8..12]).value;
        if 0xDC00 <= low <= 0xDFFF then Some((Utf8(0x10000 + (unit - 0xD800) * 0x400 + (low - 0xDC00)), 12)) else None
  }

  function Decode(s: string): Option<string> {
    if s == [] then Some([])
    else
      match DecodeHead(s)
      case None => None
      case Some(head) =>
        match Decode(s[head.1..])
        case None => None
        case Some(rest) => Some(head.0 + rest)
  }

  lemma HexDigitValue(n: nat)
    requires n < 16
    ensures HexValue(HexDigit(n)) == Some(n)
  {
  }

  lemma DecodeEscapedChar(c: char, rest: string)
    requires c as int < 256
    ensures DecodeHead(EscapeChar(c) + rest) == Some(([c], |EscapeChar(c)|))
  {
    var e := EscapeChar(c);
    var s := e + rest;
    assert s[0] == e[0];
    if |e| == 2 {
      assert s[1] == e[1];
    } else if |e| == 6 {
      HexDigitValue(c as int / 16);
      HexDigitValue(c as int % 16);
      assert s[2..6] == ['0', '0', HexDigit(c as int / 16), HexDigit(c as int % 16)];
      assert s[1] == 'u';
    }
  }

  lemma EscapeLast(s: string)
    requires IsCString(s) && s != []
    ensures Escape(s) == Escape(s[..|s| - 1]) + EscapeChar(s[|s| - 1])
  {
  }

  lemma {:induction false} EscapeHead(s: string)
    requires IsCString(s) && s != []
    ensures Escape(s) == EscapeChar(s[0]) + Escape(s[1..])
  {
    EscapeLast(s);
    if |s| == 1 {
      assert s[..0] == [] && s[1..] == [];
    } else {
      var front, tail := s[..|s| - 1], s[1..];
      EscapeHead(front);
      EscapeLast(tail);
      assert tail[..|tail| - 1] == front[1..];
      Associates(EscapeChar(s[0]), Escape(front[1..]), EscapeChar(s[|s| - 1]));
    }
  }

  /** Decoding what the client escaped gives back the input, for every C string. */
  lemma {:induction false} DecodeEscapeRoundTrip(s: string)
    requires IsCString(s)
    ensures Decode(Escape(s)) == Some(s)
  {
    if s != [] {
      EscapeHead(s);
      DecodeEscapedChar(s[0], Escape(s[1..]));
      var e := EscapeChar(s[0]);
      assert (e + Escape(s[1..]))[|e|..] == Escape(s[1..]);
      DecodeEscapeRoundTrip(s[1..]);
      assert [s[0]] + s[1..] == s;
    }
  }

  /** Every quote is the second half of a backslash pair. */
  predicate NoRawQuote(s: string) {
    if s == [] then true
    else if s[0] == '\\' then |s| >= 2 && NoRawQuote(s[2..])
    else s[0] != '"' && NoRawQuote(s[1..])
  }

  predicate NoControl(s: string) {
    forall i | 0 <= i < |s| :: s[i] as int >= 32
  }

  lemma {:induction false} NoRawQuotePlain(plain: string, rest: string)
    requires '"' !in plain && '\\' !in plain
    ensures NoRawQuote(plain + rest) == NoRawQuote(rest)
  {
    if plain == [] {
      assert plain + rest == rest;
    } else {
      assert (plain + rest)[1..] == plain[1..] + rest;
      assert plain[0] in plain;
      NoRawQuotePlain(plain[1..], rest);
    }
  }

  lemma EscapedCharIsClean(c: char, rest: string)
    requires c as int < 256 && NoRawQuote(rest)
    ensures NoControl(EscapeChar(c)) && NoRawQuote(EscapeChar(c) + rest)
  {
    var e := EscapeChar(c);
    if |e| == 1 {
      NoRawQuotePlain(e, rest);
    } else {
      assert (e + rest)[2..] == e[2..] + rest;
      if |e| == 6 {
        assert e[2..] == ['0', '0', HexDigit(c as int / 16), HexDigit(c as int % 16)];
      } else {
        assert e[2..] == [];
      }
      NoRawQuotePlain(e[2..], rest);
    }
  }

  /** Escaped text never contains a raw quote or a control byte. */
  lemma {:induction false} EscapedIsClean(s: string)
    requires IsCString(s)
    ensures NoRawQuote(Escape(s)) && NoControl(Escape(s))
  {
    if s != [] {
      EscapeHead(s);
      EscapedIsClean(s[1..]);
      EscapedCharIsClean(s[0], Escape(s[1..]));
    }
  }

  // Formatting into a fixed buffer

  /** snprintf at an offset: never writes past the end, and reports the untruncated length. */
  method Snprintf(buffer: array<char>, at: nat, text: string) returns (written: nat)
    requires at < buffer.Length
    modifies buffer
    ensures written == |text|
    ensures buffer[..at] == old(buffer[..at])
    ensures written < buffer.Length - at ==> buffer[at..at + written] == text && buffer[at + written] == '\0'
  {
    var room := buffer.Length - at - 1;
    var n := if |text| <= room then |text| else room;
    forall k | 0 <= k < n {
      buffer[at + k] := text[k];
    }
    buffer[at + n] := '\0';
    written := |text|;
  }

  /** One formatted piece and its length check; on success the text so far has grown by the piece. */
  method Append(buffer: array<char>, used: nat, piece: string) returns (used': nat, fits: bool)
    requires used < buffer.Length
    modifies buffer
    ensures fits <==> used + |piece| < buffer.Length
    ensures fits ==> used' == used + |piece| && buffer[..used'] == old(buffer[..used]) + piece
  {
    var written := Snprintf(buffer, used, piece);
    fits := written < buffer.Length - used;
    used' := if fits then used + written else used;
    assert fits ==> buffer[..used'] == buffer[..used] + buffer[used..used'];
  }

  const BODY_SIZE: nat := 2048

  datatype SdkError = InvalidArgument | Network | Protocol

  function OpeningJson(protocol: string, localPort: nat): string {
    "{\"protocol\":\"" + protocol + "\",\"targetHost\":\"127.0.0.1\",\"targetPort\":" + Decimal(localPort)
  }

  function PublicPortJson(publicPort: nat): string {
    if publicPort != 0 then ",\"publicPort\":" + Decimal(publicPort) else ""
  }

  function HostnameJson(hostname: Option<string>): string
    requires hostname.Some? ==> IsCString(hostname.value)
  {
    if hostname.Some? && hostname.value != "" then ",\"hostname\":\"" + Escape(hostname.value) + "\"" else ""
  }

  function ClosingJson(autoDns: bool): string {
    ",\"autoDns\":" + (if autoDns then "true" else "false") + "}"
  }

  function TunnelJson(
      protocol: string, localPort: nat, publicPort: nat, hostname: Option<string>, autoDns: bool): string
    requires hostname.Some? ==> IsCString(hostname.value)
  {
    OpeningJson(protocol, localPort) + PublicPortJson(publicPort) + HostnameJson(hostname) + ClosingJson(autoDns)
  }

  /** A null client or protocol, or no local port, is refused before anything is built. */
  method CreateTunnelBody(
      client: bool, protocol: Option<string>, localPort: nat, publicPort: nat, hostname: Option<string>, autoDns: bool)
    returns (r: Result<string, SdkError>)
    requires hostname.Some? ==> IsCString(hostname.value)
    ensures !client || protocol.None? || localPort == 0 ==> r == Err(InvalidArgument)
    ensures client && protocol.Some? && localPort != 0 ==>
              r == if |TunnelJson(protocol.value, localPort, publicPort, hostname, autoDns)| < BODY_SIZE
                   then Ok(TunnelJson(protocol.value, localPort, publicPort, hostname, autoDns)) else Err(Protocol)
  {
    if !client || protocol.None? || localPort == 0 {
      return Err(InvalidArgument);
    }
    r := BuildTunnelBody(protocol.value, localPort, publicPort, hostname, autoDns);
  }

  /** The body is built piece by piece with a check after each; it succeeds exactly when the whole fits. */
  method BuildTunnelBody(protocol: string, localPort: nat, publicPort: nat, hostname: Option<string>, autoDns: bool)
    returns (r: Result<string, SdkError>)
    requires hostname.Some? ==> IsCString(hostname.value)
    ensures r == if |TunnelJson(protocol, localPort, publicPort, hostname, autoDns)| < BODY_SIZE
                 then Ok(TunnelJson(protocol, localPort, publicPort, hostname, autoDns)) else Err(Protocol)
  {
    var body := new char[BODY_SIZE];
    var used, fits := Append(body, 0, OpeningJson(protocol, localPort));
    if !fits {
      return Err(Protocol);
    }
    if publicPort != 0 {
      used, fits := Append(body, used, PublicPortJson(publicPort));
      if !fits {
        return Err(Protocol);
      }
    }
    assert body[..used] == OpeningJson(protocol, localPort) + PublicPortJson(publicPort);
    if hostname.Some? && hostname.value != "" {
      var escaped, length := JsonEscape(hostname);
      used, fits := Append(body, used, ",\"hostname\":\"" + escaped[..length] + "\"");
      if !fits {
        return Err(Protocol);
      }
    }
    assert body[..used] == OpeningJson(protocol, localPort) + PublicPortJson(publicPort) + HostnameJson(hostname);
    used, fits := Append(body, used, ClosingJson(autoDns));
    return if fits then Ok(body[..used]) else Err(Protocol);
  }

  // The request text

  function RequestHead(verb: string, path: string, host: string, port: nat): string {
    verb + " " + path + " HTTP/1.1\r\nHost: " + host + ":" + Decimal(port) + "\r\n"
  }

  function RequestText(
      verb: string, path: string, host: string, port: nat, token: string, body: Option<string>): string
  {
    var text := if body.Some? then body.value else "";
    RequestHead(verb, path, host, port)
    + "Authorization: Bearer " + token + "\r\nAccept: application/json\r\nConnection: close\r\n"
    + (if body.Some? then "Content-Type: application/json\r\n" else "")
    + "Content-Length: " + Decimal(|text|) + "\r\n\r\n" + text
  }

  function RequestCapacity(path: string, token: string, body: Option<string>): nat {
    (if body.Some? then |body.value| else 0) + |path| + |token| + 1024
  }

  /**
   * The fixed slack of 1024 always suffices: for texts below 2 GiB, whose length `snprintf` can report, the overflow
   * branch of the request never runs.
   */
  lemma RequestAlwaysFits(verb: string, path: string, host: string, port: nat, token: string, body: Option<string>)
    requires |verb| <= 6 && |host| < 256 && port < 0x10000
    requires body.Some? ==> |body.value| < 0x1_0000_0000_0000_0000
    ensures 0 < |RequestText(verb, path, host, port, token, body)| < RequestCapacity(path, token, body)
  {
    var length := if body.Some? then |body.value| else 0;
    assert Power10(5) == 10 * Power10(4) && Power10(4) == 10 * Power10(3) && Power10(3) == 10 * Power10(2)
           && Power10(2) == 10 * Power10(1) && Power10(1) == 10 * Power10(0);
    DecimalLength(port, 5, Power10(5));
    TwentyDigits();
    DecimalLength(length, 20, Power10(20));
    var head := RequestHead(verb, path, host, port);
    assert |head| <= |path| + 6 + 256 + 5 + 30;
  }

  lemma TwentyDigits()
    ensures Power10(20) > 0x1_0000_0000_0000_0000
  {
    assert Power10(5) == 100000 by {
      assert Power10(3) == 1000;
    }
    assert Power10(10) == 10000000000 by {
      assert Power10(8) == 100000000 by {
        assert Power10(7) == 100 * Power10(5);
      }
    }
    assert Power10(15) == 1000000000000000 by {
      assert Power10(13) == 1000 * Power10(10) by {
        assert Power10(12) == 100 * Power10(10);
      }
    }
    assert Power10(18) == 1000 * Power10(15) by {
      assert Power10(17) == 100 * Power10(15);
    }
    assert Power10(20) == 100 * Power10(18);
  }

  // The response

  const INITIAL_CAPACITY: nat := 8192
  const MAX_RESPONSE: nat := 32 * 1024 * 1024

  function Power2(k: nat): (p: nat)
    ensures p >= 1
  {
    if k == 0 then 1 else 2 * Power2(k - 1)
  }

  lemma {:induction false} Power2Grows(j: nat, k: nat)
    requires j <= k
    ensures Power2(j) <= Power2(k)
  {
    if j < k {
      Power2Grows(j, k - 1);
    }
  }

  /** How much the n-th recv delivers: at least one byte, never more than the room or what is left. */
  function Delivered(wanted: nat, room: nat, left: nat): (n: nat)
    requires room > 0 && left > 0
    ensures 1 <= n <= room && n <= left
  {
    var n := if wanted < 1 then 1 else wanted;
    var m := if n > room then room else n;
    if m > left then left else m
  }

  /**
   * The receive loop. The peer sends `stream`; `wanted(n)` is how much the n-th recv would deliver and
   * `fails(n)` whether it reports a socket error.
   */
  method ReceiveResponse(stream: string, wanted: nat -> nat, fails: nat -> bool)
    returns (r: Result<string, SdkError>, capacity: nat, ghost doublings: nat)
    ensures capacity == INITIAL_CAPACITY * Power2(doublings) && capacity <= MAX_RESPONSE
    ensures r.Ok? ==> r.value == stream && |stream| < MAX_RESPONSE && |stream| <= capacity
    ensures (forall n: nat :: !fails(n)) ==>
              r == if |stream| < MAX_RESPONSE then Ok(stream) else Err(Protocol)
    ensures r.Err? ==> r.error == Network || r.error == Protocol
    ensures r == Err(Network) ==> exists n: nat :: fails(n)
  {
    capacity, doublings := INITIAL_CAPACITY, 0;
    var used, n := 0, 0;
    var response := new char[capacity + 1];
    while true
      invariant used <= capacity <= MAX_RESPONSE && used <= |stream|
      invariant capacity == INITIAL_CAPACITY * Power2(doublings)
      invariant fresh(response) && response.Length == capacity + 1
      invariant response[..used] == stream[..used]
      decreases |stream| - used + 1, n == 0
    {
      if used == capacity {
        if capacity >= MAX_RESPONSE {
          return Err(Protocol), capacity, doublings;
        }
        DoublingStaysBelow(doublings);
        capacity, doublings := capacity * 2, doublings + 1;
        response := Realloc(response, used, capacity + 1);
      }
      if fails(n) {
        return Err(Network), capacity, doublings;
      }
      if used == |stream| {
        break;
      }
      var got := Delivered(wanted(n), capacity - used, |stream| - used);
      CopyAt(response, used, stream[used..used + got]);
      assert stream[..used] + stream[used..used + got] == stream[..used + got];
      used, n := used + got, n + 1;
    }
    response[used] := '\0';
    assert response[..used] == stream;
    return Ok(response[..used]), capacity, doublings;
  }

  lemma TwelveDoublings()
    ensures INITIAL_CAPACITY * Power2(12) == MAX_RESPONSE
  {
    assert Power2(6) == 64;
    assert Power2(10) == 1024;
  }

  /** Doubling a power-of-two multiple below the ceiling cannot step over it. */
  lemma DoublingStaysBelow(k: nat)
    requires INITIAL_CAPACITY * Power2(k) < MAX_RESPONSE
    ensures INITIAL_CAPACITY * Power2(k + 1) <= MAX_RESPONSE
  {
    TwelveDoublings();
    if k < 12 {
      Power2Grows(k + 1, 12);
    } else {
      Power2Grows(12, k);
    }
  }
}
