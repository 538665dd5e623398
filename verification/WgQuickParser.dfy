/**
 * The parser for WireGuard configuration text: one pass over the lines, a section committed when the next
 * header or the end arrives. What the WireGuard library does with keys, addresses and endpoints, and what
 * Unicode says about letters and case, are parameters.
 */
module WgQuickParser {
  import opened Wrappers
  import opened Text

  datatype Section = InterfaceSection | PeerSection

  datatype Key =
    PrivateKey | ListenPort | Address | Dns | Mtu | PublicKey | PresharedKey | AllowedIPs | Endpoint | PersistentKeepalive

  /** V stands for the values of the WireGuard library: keys, address ranges, servers and endpoints. */
  datatype Library<!V> = Library(
    privateKey: string -> Option<V>, publicKey: string -> Option<V>, preSharedKey: string -> Option<V>,
    address: string -> Option<V>, dnsServer: string -> Option<V>, endpoint: string -> Option<V>,
    base64: V -> string, isAlphanumeric: char -> bool, lower: string -> string)

  datatype Interface<V> = Interface(
    privateKey: V, listenPort: Option<nat>, addresses: seq<V>, dns: seq<V>, dnsSearch: seq<string>, mtu: Option<nat>)

  datatype Peer<V> = Peer(
    publicKey: V, preSharedKey: Option<V>, allowedIPs: seq<V>, endpoint: Option<V>, persistentKeepAlive: Option<nat>)

  datatype Configuration<V> = Configuration(interface: Interface<V>, peers: seq<Peer<V>>)

  datatype ParseError =
    | AttributeOutsideSection(line: nat)
    | InvalidLine(line: nat, content: string)
    | DuplicateInterface
    | MissingInterface
    | MissingPrivateKey
    | InvalidPrivateKey
    | InvalidListenPort(value: string)
    | InvalidAddress(value: string)
    | InvalidDNS(value: string)
    | InvalidMTU(value: string)
    | MissingPublicKey
    | InvalidPublicKey
    | InvalidPreSharedKey
    | InvalidAllowedIP(value: string)
    | InvalidEndpoint(value: string)
    | InvalidPersistentKeepAlive(value: string)
    | UnsupportedAttribute(section: Section, name: string)
    | DuplicateAttribute(name: string)
    | DuplicatePeerPublicKey

  function FindKey(name: string): Option<Key> {
    if name == "privatekey" then Some(PrivateKey)
    else if name == "listenport" then Some(ListenPort)
    else if name == "address" then Some(Address)
    else if name == "dns" then Some(Dns)
    else if name == "mtu" then Some(Mtu)
    else if name == "publickey" then Some(PublicKey)
    else if name == "presharedkey" then Some(PresharedKey)
    else if name == "allowedips" then Some(AllowedIPs)
    else if name == "endpoint" then Some(Endpoint)
    else if name == "persistentkeepalive" then Some(PersistentKeepalive)
    else None
  }

  function SectionOf(k: Key): Section {
    match k
    case PrivateKey | ListenPort | Address | Dns | Mtu => InterfaceSection
    case _ => PeerSection
  }

  /** The keys whose values add up when repeated. */
  predicate IsList(k: Key) {
    k.Address? || k.Dns? || k.AllowedIPs?
  }

  // Values

  /** The parts between commas, trimmed, without the empty ones. */
  function SplitCommaSeparated(value: string): seq<string> {
    Pieces(Split(value, ','))
  }

  function Pieces(parts: seq<string>): seq<string> {
    if parts == [] then []
    else if Trim(parts[0]) == "" then Pieces(parts[1..])
    else [Trim(parts[0])] + Pieces(parts[1..])
  }

  predicate IsLabel(alphanumeric: char -> bool, name: string) {
    && name != "" && |name| <= 63
    && name[0] != '-' && name[|name| - 1] != '-'
    && forall i | 0 <= i < |name| :: alphanumeric(name[i]) || name[i] == '-'
  }

  predicate IsValidSearchDomain(alphanumeric: char -> bool, value: string) {
    && value != "" && |value| <= 253
    && var labels := Split(value, '.');
       forall i | 0 <= i < |labels| :: IsLabel(alphanumeric, labels[i])
  }

  /** A 16-bit number as Swift reads it: an optional sign, then digits; only zero may be negative. */
  function UInt16(text: string): Option<nat> {
    var signed := text != "" && (text[0] == '+' || text[0] == '-');
    match DigitsValue(if signed then text[1..] else text)
    case None => None
    case Some(n) => if n < 0x1_0000 && (signed && text[0] == '-' ==> n == 0) then Some(n) else None
  }

  /** Every text through a parser; the first that does not parse is the error. */
  function ParseAll<V>(parse: string -> Option<V>, texts: seq<string>): Result<seq<V>, string> {
    if texts == [] then Ok([])
    else
      match parse(texts[0])
      case None => Err(texts[0])
      case Some(v) =>
        var rest :- ParseAll(parse, texts[1..]);
        Ok([v] + rest)
  }

  /** Servers and search domains, each in order. */
  function ParseDns<V>(lib: Library<V>, texts: seq<string>): Result<(seq<V>, seq<string>), string> {
    if texts == [] then Ok(([], []))
    else if lib.dnsServer(texts[0]).Some? then
      var rest :- ParseDns(lib, texts[1..]);
      Ok(([lib.dnsServer(texts[0]).value] + rest.0, rest.1))
    else if IsValidSearchDomain(lib.isAlphanumeric, texts[0]) then
      var rest :- ParseDns(lib, texts[1..]);
      Ok((rest.0, [texts[0]] + rest.1))
    else Err(texts[0])
  }

  type Attributes = map<Key, string>

  /** An attribute that may be absent. */
  function Optional<T>(attributes: Attributes, k: Key, parse: string -> Option<T>, error: string -> ParseError)
    : Result<Option<T>, ParseError>
  {
    if k !in attributes then Ok(None)
    else
      match parse(attributes[k])
      case None => Err(error(attributes[k]))
      case Some(v) => Ok(Some(v))
  }

  function Listed(attributes: Attributes, k: Key): seq<string> {
    if k in attributes then SplitCommaSeparated(attributes[k]) else []
  }

  function OrError<T>(r: Result<T, string>, error: string -> ParseError): Result<T, ParseError> {
    match r
    case Ok(v) => Ok(v)
    case Err(text) => Err(error(text))
  }

  function MakeInterface<V>(lib: Library<V>, attributes: Attributes): Result<Interface<V>, ParseError> {
    if PrivateKey !in attributes then Err(MissingPrivateKey)
    else if lib.privateKey(attributes[PrivateKey]).None? then Err(InvalidPrivateKey)
    else
      var listenPort :- Optional(attributes, ListenPort, UInt16, text => InvalidListenPort(text));
      var addresses :- OrError(ParseAll(lib.address, Listed(attributes, Address)), text => InvalidAddress(text));
      var dns :- OrError(ParseDns(lib, Listed(attributes, Dns)), text => InvalidDNS(text));
      var mtu :- Optional(attributes, Mtu, UInt16, text => InvalidMTU(text));
      Ok(Interface(lib.privateKey(attributes[PrivateKey]).value, listenPort, addresses, dns.0, dns.1, mtu))
  }

  function MakePeer<V>(lib: Library<V>, attributes: Attributes): Result<Peer<V>, ParseError> {
    if PublicKey !in attributes then Err(MissingPublicKey)
    else if lib.publicKey(attributes[PublicKey]).None? then Err(InvalidPublicKey)
    else
      var preSharedKey :- Optional(attributes, PresharedKey, lib.preSharedKey, _ => InvalidPreSharedKey);
      var allowedIPs :- OrError(ParseAll(lib.address, Listed(attributes, AllowedIPs)), text => InvalidAllowedIP(text));
      var endpoint :- Optional(attributes, Endpoint, lib.endpoint, text => InvalidEndpoint(text));
      var keepAlive :- Optional(attributes, PersistentKeepalive, UInt16, text => InvalidPersistentKeepAlive(text));
      Ok(Peer(lib.publicKey(attributes[PublicKey]).value, preSharedKey, allowedIPs, endpoint, keepAlive))
  }

  // Lines

  predicate IsNewline(c: char) {
    var u := c as int;
    10 <= u <= 13 || u == 0x85 || u == 0x2028 || u == 0x2029
  }

  /** The lines of a text; a carriage return with a line feed after it is one line end. */
  function Lines(s: string): (r: seq<string>)
    ensures |r| >= 1
  {
    if s == [] then [""]
    else if |s| > 1 && s[0] == '\r' && s[1] == '\n' then [""] + Lines(s[2..])
    else
      var rest := Lines(s[1..]);
      if IsNewline(s[0]) then [""] + rest else [[s[0]] + rest[0]] + rest[1..]
  }

  /** A line inside a section: a name with a value, or a line without an equals sign. */
  datatype Entry = Entry(name: string, value: string) | Unreadable(content: string)

  datatype Item = Nothing | Header(section: Section) | Line(entry: Entry)

  function WithoutComment(raw: string): string {
    match IndexOf(raw, '#')
    case None => raw
    case Some(i) => raw[..i]
  }

  function Classify<V>(lib: Library<V>, raw: string): Item {
    var line := Trim(WithoutComment(raw));
    if line == "" then Nothing
    else if lib.lower(line) == "[interface]" then Header(InterfaceSection)
    else if lib.lower(line) == "[peer]" then Header(PeerSection)
    else
      match IndexOf(line, '=')
      case None => Line(Unreadable(line))
      case Some(i) => Line(Entry(Trim(line[..i]), Trim(line[i + 1..])))
  }

  /** The key an entry sets in a section, if it sets any. */
  function KeyOf<V>(lib: Library<V>, section: Section, e: Entry): Option<Key> {
    if e.Unreadable? then None
    else
      var k := FindKey(lib.lower(e.name));
      if k.Some? && SectionOf(k.value) == section then k else None
  }

  // The pass over the lines

  datatype State<V> = State(
    section: Option<Section>, attributes: Attributes, interface: Option<Interface<V>>, peers: seq<Peer<V>>)

  function Initial<V>(): State<V> {
    State(None, map[], None, [])
  }

  function Commit<V>(lib: Library<V>, st: State<V>): Result<State<V>, ParseError> {
    match st.section
    case None => Ok(st.(attributes := map[]))
    case Some(InterfaceSection) =>
      if st.interface.Some? then Err(DuplicateInterface)
      else
        var i :- MakeInterface(lib, st.attributes);
        Ok(st.(interface := Some(i), attributes := map[]))
    case Some(PeerSection) =>
      var p :- MakePeer(lib, st.attributes);
      Ok(st.(peers := st.peers + [p], attributes := map[]))
  }

  function Add<V>(lib: Library<V>, section: Option<Section>, attributes: Attributes, number: nat, e: Entry)
    : Result<Attributes, ParseError>
  {
    if section.None? then Err(AttributeOutsideSection(number))
    else if e.Unreadable? then Err(InvalidLine(number, e.content))
    else
      match KeyOf(lib, section.value, e)
      case None => Err(UnsupportedAttribute(section.value, e.name))
      case Some(k) =>
        if k !in attributes then Ok(attributes[k := e.value])
        else if !IsList(k) then Err(DuplicateAttribute(e.name))
        else Ok(attributes[k := attributes[k] + "," + e.value])
  }

  function Step<V>(lib: Library<V>, st: State<V>, number: nat, raw: string): Result<State<V>, ParseError> {
    match Classify(lib, raw)
    case Nothing => Ok(st)
    case Header(section) =>
      var st' :- Commit(lib, st);
      Ok(st'.(section := Some(section)))
    case Line(e) =>
      var attributes :- Add(lib, st.section, st.attributes, number, e);
      Ok(st.(attributes := attributes))
  }

  function Run<V>(lib: Library<V>, st: State<V>, number: nat, lines: seq<string>): Result<State<V>, ParseError>
    decreases |lines|
  {
    if lines == [] then Ok(st)
    else
      var st' :- Step(lib, st, number, lines[0]);
      Run(lib, st', number + 1, lines[1..])
  }

  function PublicKeys<V>(lib: Library<V>, peers: seq<Peer<V>>): (r: seq<string>)
    ensures |r| == |peers|
    ensures forall i | 0 <= i < |peers| :: r[i] == lib.base64(peers[i].publicKey)
  {
    seq(|peers|, i requires 0 <= i < |peers| => lib.base64(peers[i].publicKey))
  }

  /** The checks after the last section. */
  function Conclude<V>(lib: Library<V>, st: State<V>): Result<Configuration<V>, ParseError> {
    var keys := PublicKeys(lib, st.peers);
    if st.interface.None? then Err(MissingInterface)
    else if |(set k | k in keys)| != |keys| then Err(DuplicatePeerPublicKey)
    else Ok(Configuration(st.interface.value, st.peers))
  }

  function Close<V>(lib: Library<V>, st: State<V>): Result<Configuration<V>, ParseError> {
    var st' :- Commit(lib, st);
    Conclude(lib, st')
  }

  /** The whole pass, left to right. */
  function Parsed<V>(lib: Library<V>, source: string): Result<Configuration<V>, ParseError> {
    var st :- Run(lib, Initial(), 1, Lines(source));
    Close(lib, st)
  }

  // As the source runs it

  /** Servers and domains found before the rest was read. */
  function Before<V>(servers: seq<V>, domains: seq<string>, rest: Result<(seq<V>, seq<string>), string>)
    : Result<(seq<V>, seq<string>), string>
  {
    match rest
    case Ok(found) => Ok((servers + found.0, domains + found.1))
    case Err(text) => Err(text)
  }

  lemma BeforeNothing<V>(rest: Result<(seq<V>, seq<string>), string>)
    ensures Before([], [], rest) == rest
  {
    if rest.Ok? {
      assert [] + rest.value.0 == rest.value.0 && [] + rest.value.1 == rest.value.1;
    }
  }

  lemma BeforeTwice<V>(s: seq<V>, d: seq<string>, t: seq<V>, e: seq<string>, rest: Result<(seq<V>, seq<string>), string>)
    ensures Before(s, d, Before(t, e, rest)) == Before(s + t, d + e, rest)
  {
    if rest.Ok? {
      assert s + (t + rest.value.0) == s + t + rest.value.0;
      assert d + (e + rest.value.1) == d + e + rest.value.1;
    }
  }

  lemma DnsStep<V>(lib: Library<V>, texts: seq<string>)
    requires texts != []
    ensures ParseDns(lib, texts)
            == var rest := ParseDns(lib, texts[1..]);
               if lib.dnsServer(texts[0]).Some? then Before([lib.dnsServer(texts[0]).value], [], rest)
               else if IsValidSearchDomain(lib.isAlphanumeric, texts[0]) then Before([], [texts[0]], rest)
               else Err(texts[0])
  {
    var rest := ParseDns(lib, texts[1..]);
    if rest.Ok? {
      assert [] + rest.value.0 == rest.value.0 && [] + rest.value.1 == rest.value.1;
    }
  }

  method ReadDns<V>(lib: Library<V>, texts: seq<string>) returns (r: Result<(seq<V>, seq<string>), string>)
    ensures r == ParseDns(lib, texts)
  {
    var servers: seq<V>, domains: seq<string> := [], [];
    var i := 0;
    assert texts[0..] == texts;
    BeforeNothing(ParseDns(lib, texts));
    while i < |texts|
      invariant 0 <= i <= |texts|
      invariant ParseDns(lib, texts) == Before(servers, domains, ParseDns(lib, texts[i..]))
    {
      var server := lib.dnsServer(texts[i]);
      assert texts[i..][1..] == texts[i + 1..];
      DnsStep(lib, texts[i..]);
      ghost var rest := ParseDns(lib, texts[i + 1..]);
      if server.Some? {
        BeforeTwice(servers, domains, [server.value], [], rest);
        assert domains + [] == domains;
        servers := servers + [server.value];
      } else if IsValidSearchDomain(lib.isAlphanumeric, texts[i]) {
        BeforeTwice(servers, domains, [], [texts[i]], rest);
        assert servers + [] == servers;
        domains := domains + [texts[i]];
      } else {
        return Err(texts[i]);
      }
      i := i + 1;
    }
    assert servers + [] == servers && domains + [] == domains;
    r := Ok((servers, domains));
  }

  method ReadInterface<V>(lib: Library<V>, attributes: Attributes) returns (r: Result<Interface<V>, ParseError>)
    ensures r == MakeInterface(lib, attributes)
  {
    if PrivateKey !in attributes {
      return Err(MissingPrivateKey);
    }
    var key := lib.privateKey(attributes[PrivateKey]);
    if key.None? {
      return Err(InvalidPrivateKey);
    }
    var configuration := Interface(key.value, None, [], [], [], None);
    var listenPort :- Optional(attributes, ListenPort, UInt16, text => InvalidListenPort(text));
    configuration := configuration.(listenPort := listenPort);
    var addresses :- OrError(ParseAll(lib.address, Listed(attributes, Address)), text => InvalidAddress(text));
    configuration := configuration.(addresses := addresses);
    var dns := ReadDns(lib, Listed(attributes, Dns));
    if dns.Err? {
      return Err(InvalidDNS(dns.error));
    }
    configuration := configuration.(dns := dns.value.0, dnsSearch := dns.value.1);
    var mtu :- Optional(attributes, Mtu, UInt16, text => InvalidMTU(text));
    r := Ok(configuration.(mtu := mtu));
  }

  lemma RunFrom<V>(lib: Library<V>, st: State<V>, lines: seq<string>, n: nat)
    requires n < |lines|
    ensures Run(lib, st, n + 1, lines[n..])
            == match Step(lib, st, n + 1, lines[n])
               case Err(e) => Err(e)
               case Ok(st') => Run(lib, st', n + 2, lines[n + 1..])
  {
    assert lines[n..][1..] == lines[n + 1..];
  }

  /** One pass over the lines, with the open section and its attributes at hand. */
  method Parse<V>(lib: Library<V>, source: string) returns (r: Result<Configuration<V>, ParseError>)
    ensures r == Parsed(lib, source)
  {
    var lines := Lines(source);
    var st := Initial();
    var n := 0;
    assert lines[0..] == lines;
    while n < |lines|
      invariant 0 <= n <= |lines|
      invariant Run(lib, st, n + 1, lines[n..]) == Run(lib, Initial(), 1, lines)
    {
      RunFrom(lib, st, lines, n);
      st :- TakeLine(lib, st, n + 1, lines[n]);
      n := n + 1;
    }
    assert lines[n..] == [];
    st :- CommitCurrentSection(lib, st);
    r := Conclude(lib, st);
  }

  /** One line: a header commits and opens a section, an attribute goes to the open one. */
  method TakeLine<V>(lib: Library<V>, st: State<V>, number: nat, raw: string) returns (r: Result<State<V>, ParseError>)
    ensures r == Step(lib, st, number, raw)
  {
    var item := Classify(lib, raw);
    if item.Header? {
      var st' :- CommitCurrentSection(lib, st);
      return Ok(st'.(section := Some(item.section)));
    }
    if item.Line? {
      var attributes :- Add(lib, st.section, st.attributes, number, item.entry);
      return Ok(st.(attributes := attributes));
    }
    r := Ok(st);
  }

  method CommitCurrentSection<V>(lib: Library<V>, st: State<V>) returns (r: Result<State<V>, ParseError>)
    ensures r == Commit(lib, st)
  {
    if st.section.None? {
      return Ok(st.(attributes := map[]));
    }
    if st.section.value.InterfaceSection? {
      if st.interface.Some? {
        return Err(DuplicateInterface);
      }
      var i :- ReadInterface(lib, st.attributes);
      return Ok(st.(interface := Some(i), attributes := map[]));
    }
    var p :- MakePeer(lib, st.attributes);
    r := Ok(st.(peers := st.peers + [p], attributes := map[]));
  }
}
