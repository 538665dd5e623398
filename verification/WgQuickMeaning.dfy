/**
 * What a WireGuard configuration text means, said without the pass: its lines are grouped under their headers,
 * and each group is read with repeated lists put one after the other. The parser accepts exactly the texts
 * that mean something, with that meaning.
 */
module WgQuickMeaning {
  import opened Wrappers
  import opened Text
  import opened WgQuickParser

  // Grouping

  /** A header and the entries up to the next header. */
  datatype Part = Part(section: Section, entries: seq<Entry>)

  datatype Grouped = Grouped(outside: seq<Entry>, parts: seq<Part>)

  function Group<V>(lib: Library<V>, lines: seq<string>): Grouped {
    if lines == [] then Grouped([], [])
    else
      var g := Group(lib, lines[1..]);
      match Classify(lib, lines[0])
      case Nothing => g
      case Header(section) => Grouped([], [Part(section, g.outside)] + g.parts)
      case Line(e) => Grouped([e] + g.outside, g.parts)
  }

  // One group

  /** The values an entry list gives a key, in order. */
  function Values<V>(lib: Library<V>, section: Section, entries: seq<Entry>, k: Key): seq<string> {
    if entries == [] then []
    else (if KeyOf(lib, section, entries[0]) == Some(k) then [entries[0].value] else [])
         + Values(lib, section, entries[1..], k)
  }

  /** The pieces of every value, one value after the other. */
  function AllPieces(values: seq<string>): seq<string> {
    if values == [] then [] else SplitCommaSeparated(values[0]) + AllPieces(values[1..])
  }

  predicate AllKeyed<V>(lib: Library<V>, section: Section, entries: seq<Entry>) {
    forall i | 0 <= i < |entries| :: KeyOf(lib, section, entries[i]).Some?
  }

  /** Every entry belongs to the section, and only lists repeat. */
  ghost predicate WellFormed<V>(lib: Library<V>, part: Part) {
    && AllKeyed(lib, part.section, part.entries)
    && forall k: Key | !IsList(k) :: |Values(lib, part.section, part.entries, k)| <= 1
  }

  predicate OptionMeans<T(==)>(values: seq<string>, parse: string -> Option<T>, v: Option<T>) {
    if values == [] then v == None else v.Some? && parse(values[0]) == v
  }

  predicate ListMeans<T(==)>(texts: seq<string>, parse: string -> Option<T>, vs: seq<T>) {
    |texts| == |vs| && forall i | 0 <= i < |texts| :: parse(texts[i]) == Some(vs[i])
  }

  function Servers<V>(lib: Library<V>, texts: seq<string>): seq<V> {
    if texts == [] then []
    else (if lib.dnsServer(texts[0]).Some? then [lib.dnsServer(texts[0]).value] else []) + Servers(lib, texts[1..])
  }

  function Domains<V>(lib: Library<V>, texts: seq<string>): seq<string> {
    if texts == [] then []
    else (if lib.dnsServer(texts[0]).Some? then [] else [texts[0]]) + Domains(lib, texts[1..])
  }

  predicate IsDnsText<V>(lib: Library<V>, text: string) {
    lib.dnsServer(text).Some? || IsValidSearchDomain(lib.isAlphanumeric, text)
  }

  predicate DnsMeans<V(==)>(lib: Library<V>, texts: seq<string>, servers: seq<V>, domains: seq<string>) {
    && (forall i | 0 <= i < |texts| :: IsDnsText(lib, texts[i]))
    && servers == Servers(lib, texts) && domains == Domains(lib, texts)
  }

  /** What the values of each key say of an interface. */
  predicate InterfaceSays<V(==)>(lib: Library<V>, key: seq<string>, port: seq<string>, addresses: seq<string>,
                                 dns: seq<string>, mtu: seq<string>, i: Interface<V>)
  {
    && key != [] && OptionMeans(key, lib.privateKey, Some(i.privateKey))
    && OptionMeans(port, UInt16, i.listenPort)
    && ListMeans(AllPieces(addresses), lib.address, i.addresses)
    && DnsMeans(lib, AllPieces(dns), i.dns, i.dnsSearch)
    && OptionMeans(mtu, UInt16, i.mtu)
  }

  predicate InterfaceMeans<V(==)>(lib: Library<V>, entries: seq<Entry>, i: Interface<V>) {
    InterfaceSays(lib, Values(lib, InterfaceSection, entries, PrivateKey),
                  Values(lib, InterfaceSection, entries, ListenPort), Values(lib, InterfaceSection, entries, Address),
                  Values(lib, InterfaceSection, entries, Dns), Values(lib, InterfaceSection, entries, Mtu), i)
  }

  /** What the values of each key say of a peer. */
  predicate PeerSays<V(==)>(lib: Library<V>, key: seq<string>, preShared: seq<string>, ips: seq<string>,
                            endpoint: seq<string>, keepAlive: seq<string>, p: Peer<V>)
  {
    && key != [] && OptionMeans(key, lib.publicKey, Some(p.publicKey))
    && OptionMeans(preShared, lib.preSharedKey, p.preSharedKey)
    && ListMeans(AllPieces(ips), lib.address, p.allowedIPs)
    && OptionMeans(endpoint, lib.endpoint, p.endpoint)
    && OptionMeans(keepAlive, UInt16, p.persistentKeepAlive)
  }

  predicate PeerMeans<V(==)>(lib: Library<V>, entries: seq<Entry>, p: Peer<V>) {
    PeerSays(lib, Values(lib, PeerSection, entries, PublicKey), Values(lib, PeerSection, entries, PresharedKey),
             Values(lib, PeerSection, entries, AllowedIPs), Values(lib, PeerSection, entries, Endpoint),
             Values(lib, PeerSection, entries, PersistentKeepalive), p)
  }

  // A whole text

  /** The groups under one kind of header, in order. */
  function Under(parts: seq<Part>, section: Section): seq<seq<Entry>> {
    if parts == [] then []
    else (if parts[0].section == section then [parts[0].entries] else []) + Under(parts[1..], section)
  }

  predicate PeersMean<V(==)>(lib: Library<V>, groups: seq<seq<Entry>>, peers: seq<Peer<V>>) {
    |groups| == |peers| && forall j | 0 <= j < |groups| :: PeerMeans(lib, groups[j], peers[j])
  }

  predicate Distinct<T(==)>(s: seq<T>) {
    forall i, j | 0 <= i < j < |s| :: s[i] != s[j]
  }

  ghost predicate AllWellFormed<V>(lib: Library<V>, parts: seq<Part>) {
    forall j | 0 <= j < |parts| :: WellFormed(lib, parts[j])
  }

  /**
   * Nothing stands before the first header, every group is well formed, exactly one is an interface, the
   * peers are those of the peer groups in order, and no two have the same key.
   */
  ghost predicate Means<V>(lib: Library<V>, source: string, c: Configuration<V>) {
    var g := Group(lib, Lines(source));
    && g.outside == [] && AllWellFormed(lib, g.parts)
    && |Under(g.parts, InterfaceSection)| == 1
    && InterfaceMeans(lib, Under(g.parts, InterfaceSection)[0], c.interface)
    && PeersMean(lib, Under(g.parts, PeerSection), c.peers)
    && Distinct(PublicKeys(lib, c.peers))
  }

  // Repeated lists

  lemma {:induction false} PiecesAppend(a: seq<string>, b: seq<string>)
    ensures Pieces(a + b) == Pieces(a) + Pieces(b)
  {
    if a == [] {
      assert a + b == b;
    } else {
      assert (a + b)[1..] == a[1..] + b;
      PiecesAppend(a[1..], b);
    }
  }

  /** Joining two comma lists with a comma and splitting gives the pieces of both, one after the other. */
  lemma SplitsAdd(a: string, b: string)
    ensures SplitCommaSeparated(a + "," + b) == SplitCommaSeparated(a) + SplitCommaSeparated(b)
  {
    SplitAppend(a, ',', b);
    PiecesAppend(Split(a, ','), Split(b, ','));
  }

  function Joined(values: seq<string>): string
    requires values != []
  {
    if |values| == 1 then values[0] else values[0] + "," + Joined(values[1..])
  }

  lemma JoinedFirst(a: string, b: string, rest: seq<string>)
    ensures Joined([a, b] + rest) == Joined([a + "," + b] + rest)
  {
    var two, one := [a, b] + rest, [a + "," + b] + rest;
    assert two[1..] == [b] + rest && one[1..] == rest;
    if rest == [] {
      assert two[1..] == [b];
    } else {
      assert ([b] + rest)[1..] == rest;
      assert a + "," + (b + "," + Joined(rest)) == a + "," + b + "," + Joined(rest);
    }
  }

  /** However many lines a list is spread over, its joined text splits into the pieces of each. */
  lemma {:induction false} JoinedSplits(values: seq<string>)
    requires values != []
    ensures SplitCommaSeparated(Joined(values)) == AllPieces(values)
  {
    if |values| == 1 {
      assert values[1..] == [];
      assert AllPieces(values) == SplitCommaSeparated(values[0]) + [];
    } else {
      SplitsAdd(values[0], Joined(values[1..]));
      JoinedSplits(values[1..]);
    }
  }

  // Collecting the entries of a section

  function Collect<V>(lib: Library<V>, section: Section, m: Attributes, entries: seq<Entry>): Option<Attributes>
    decreases |entries|
  {
    if entries == [] then Some(m)
    else
      match Add(lib, Some(section), m, 0, entries[0])
      case Err(_) => None
      case Ok(m') => Collect(lib, section, m', entries[1..])
  }

  ghost predicate Fits<V>(lib: Library<V>, section: Section, m: Attributes, entries: seq<Entry>, k: Key) {
    !IsList(k) ==> (if k in m then 1 else 0) + |Values(lib, section, entries, k)| <= 1
  }

  ghost predicate AllFit<V>(lib: Library<V>, section: Section, m: Attributes, entries: seq<Entry>) {
    forall k: Key :: Fits(lib, section, m, entries, k)
  }

  lemma ValuesStep<V>(lib: Library<V>, section: Section, entries: seq<Entry>, k: Key)
    requires entries != []
    ensures Values(lib, section, entries, k)
            == (if KeyOf(lib, section, entries[0]) == Some(k) then [entries[0].value] else [])
               + Values(lib, section, entries[1..], k)
  {
  }

  lemma KeyedStep<V>(lib: Library<V>, section: Section, entries: seq<Entry>)
    requires entries != []
    ensures AllKeyed(lib, section, entries)
            <==> KeyOf(lib, section, entries[0]).Some? && AllKeyed(lib, section, entries[1..])
  {
    if KeyOf(lib, section, entries[0]).Some? && AllKeyed(lib, section, entries[1..]) {
      forall i | 0 <= i < |entries| ensures KeyOf(lib, section, entries[i]).Some? {
        if i > 0 {
          assert entries[i] == entries[1..][i - 1];
        }
      }
    }
    if AllKeyed(lib, section, entries) {
      assert forall i | 0 <= i < |entries| - 1 :: entries[1..][i] == entries[i + 1];
    }
  }

  lemma FitsStep<V>(lib: Library<V>, section: Section, m: Attributes, entries: seq<Entry>, k0: Key, v: string)
    requires entries != [] && KeyOf(lib, section, entries[0]) == Some(k0)
    requires k0 !in m || IsList(k0)
    ensures AllFit(lib, section, m, entries) <==> AllFit(lib, section, m[k0 := v], entries[1..])
  {
    var m' := m[k0 := v];
    if AllFit(lib, section, m, entries) {
      forall k: Key ensures Fits(lib, section, m', entries[1..], k) {
        assert Fits(lib, section, m, entries, k);
        ValuesStep(lib, section, entries, k);
      }
    }
    if AllFit(lib, section, m', entries[1..]) {
      forall k: Key ensures Fits(lib, section, m, entries, k) {
        assert Fits(lib, section, m', entries[1..], k);
        ValuesStep(lib, section, entries, k);
      }
    }
  }

  /** Collecting succeeds exactly when every entry has a key and only lists repeat. */
  lemma {:induction false} CollectSucceeds<V>(lib: Library<V>, section: Section, m: Attributes, entries: seq<Entry>)
    ensures Collect(lib, section, m, entries).Some?
            <==> AllKeyed(lib, section, entries) && AllFit(lib, section, m, entries)
    decreases |entries|
  {
    if entries == [] {
      assert AllFit(lib, section, m, entries);
    } else {
      KeyedStep(lib, section, entries);
      var key := KeyOf(lib, section, entries[0]);
      if key.Some? {
        var k := key.value;
        ValuesStep(lib, section, entries, k);
        if k in m && !IsList(k) {
          assert !Fits(lib, section, m, entries, k);
        } else {
          var m' := Add(lib, Some(section), m, 0, entries[0]).value;
          FitsStep(lib, section, m, entries, k, m'[k]);
          CollectSucceeds(lib, section, m', entries[1..]);
        }
      }
    }
  }

  function Held(m: Attributes, k: Key): seq<string> {
    if k in m then [m[k]] else []
  }

  lemma HeldAfterAdd<V>(lib: Library<V>, section: Section, m: Attributes, e: Entry, k: Key)
    requires Add(lib, Some(section), m, 0, e).Ok?
    ensures Held(Add(lib, Some(section), m, 0, e).value, k)
            == if KeyOf(lib, section, e) != Some(k) then Held(m, k)
               else if k in m then [m[k] + "," + e.value] else [e.value]
  {
  }

  /** What is collected under a key: all its values, joined with commas. */
  lemma {:induction false} CollectJoins<V>(lib: Library<V>, section: Section, m: Attributes, entries: seq<Entry>, k: Key)
    requires Collect(lib, section, m, entries).Some?
    ensures var all := Held(m, k) + Values(lib, section, entries, k);
            Held(Collect(lib, section, m, entries).value, k) == if all == [] then [] else [Joined(all)]
    decreases |entries|
  {
    var all := Held(m, k) + Values(lib, section, entries, k);
    if entries == [] {
      assert all == Held(m, k);
    } else {
      var m' := Add(lib, Some(section), m, 0, entries[0]).value;
      var later := Values(lib, section, entries[1..], k);
      CollectJoins(lib, section, m', entries[1..], k);
      HeldAfterAdd(lib, section, m, entries[0], k);
      ValuesStep(lib, section, entries, k);
      if KeyOf(lib, section, entries[0]) != Some(k) {
        assert [] + later == later;
      } else if k in m {
        JoinedFirst(m[k], entries[0].value, later);
        assert all == [m[k], entries[0].value] + later;
      } else {
        assert all == [entries[0].value] + later;
      }
    }
  }

  // From attributes to a section's meaning

  lemma {:induction false} ParseAllMeans<T>(parse: string -> Option<T>, texts: seq<string>, vs: seq<T>)
    ensures ParseAll(parse, texts) == Ok(vs) <==> ListMeans(texts, parse, vs)
    decreases |texts|
  {
    if texts != [] && vs != [] {
      ParseAllMeans(parse, texts[1..], vs[1..]);
      var rest := ParseAll(parse, texts[1..]);
      if parse(texts[0]).Some? && rest.Ok? {
        var all := [parse(texts[0]).value] + rest.value;
        assert all[1..] == rest.value;
        assert all == vs <==> parse(texts[0]) == Some(vs[0]) && rest.value == vs[1..];
      }
      if ListMeans(texts, parse, vs) {
        assert forall i | 0 <= i < |texts| - 1 :: texts[1..][i] == texts[i + 1] && vs[1..][i] == vs[i + 1];
      }
      if parse(texts[0]) == Some(vs[0]) && ListMeans(texts[1..], parse, vs[1..]) {
        forall i | 0 <= i < |texts| ensures parse(texts[i]) == Some(vs[i]) {
          if i > 0 {
            assert texts[i] == texts[1..][i - 1] && vs[i] == vs[1..][i - 1];
          }
        }
      }
    }
  }

  lemma ParseDnsMeans<V>(lib: Library<V>, texts: seq<string>, servers: seq<V>, domains: seq<string>)
    ensures ParseDns(lib, texts) == Ok((servers, domains)) <==> DnsMeans(lib, texts, servers, domains)
  {
    ParseDnsGives(lib, texts);
  }

  lemma {:induction false} ParseDnsGives<V>(lib: Library<V>, texts: seq<string>)
    ensures var ok := forall i | 0 <= i < |texts| :: IsDnsText(lib, texts[i]);
            && (ok ==> ParseDns(lib, texts) == Ok((Servers(lib, texts), Domains(lib, texts))))
            && (!ok ==> ParseDns(lib, texts).Err?)
    decreases |texts|
  {
    if texts != [] {
      ParseDnsGives(lib, texts[1..]);
      DnsStep(lib, texts);
      if IsDnsText(lib, texts[0]) && forall i | 0 <= i < |texts| - 1 :: IsDnsText(lib, texts[1..][i]) {
        forall i | 0 <= i < |texts| ensures IsDnsText(lib, texts[i]) {
          if i > 0 {
            assert texts[i] == texts[1..][i - 1];
          }
        }
      }
      if forall i | 0 <= i < |texts| :: IsDnsText(lib, texts[i]) {
        assert forall i | 0 <= i < |texts| - 1 :: texts[1..][i] == texts[i + 1];
      }
    }
  }

  lemma CollectedOption<V, T>(lib: Library<V>, section: Section, entries: seq<Entry>, m: Attributes, k: Key,
                              parse: string -> Option<T>, error: string -> ParseError, v: Option<T>)
    requires Collect(lib, section, map[], entries) == Some(m) && !IsList(k)
    ensures Optional(m, k, parse, error) == Ok(v) <==> OptionMeans(Values(lib, section, entries, k), parse, v)
    ensures k in m <==> Values(lib, section, entries, k) != []
    ensures k in m ==> m[k] == Values(lib, section, entries, k)[0]
  {
    CollectSucceeds(lib, section, map[], entries);
    assert Fits(lib, section, map[], entries, k);
    CollectJoins(lib, section, map[], entries, k);
    var all := Held(map[], k) + Values(lib, section, entries, k);
    assert all == Values(lib, section, entries, k);
  }

  lemma CollectedList<V>(lib: Library<V>, section: Section, entries: seq<Entry>, m: Attributes, k: Key)
    requires Collect(lib, section, map[], entries) == Some(m)
    ensures Listed(m, k) == AllPieces(Values(lib, section, entries, k))
  {
    CollectJoins(lib, section, map[], entries, k);
    var all := Held(map[], k) + Values(lib, section, entries, k);
    assert all == Values(lib, section, entries, k);
    if all != [] {
      JoinedSplits(all);
    }
  }

  lemma InterfaceMade<V>(lib: Library<V>, entries: seq<Entry>, m: Attributes, i: Interface<V>)
    requires Collect(lib, InterfaceSection, map[], entries) == Some(m)
    ensures MakeInterface(lib, m) == Ok(i) <==> InterfaceMeans(lib, entries, i)
  {
    CollectedOption(lib, InterfaceSection, entries, m, PrivateKey, lib.privateKey, _ => InvalidPrivateKey, Some(i.privateKey));
    CollectedOption(lib, InterfaceSection, entries, m, ListenPort, UInt16, text => InvalidListenPort(text), i.listenPort);
    CollectedOption(lib, InterfaceSection, entries, m, Mtu, UInt16, text => InvalidMTU(text), i.mtu);
    CollectedList(lib, InterfaceSection, entries, m, Address);
    CollectedList(lib, InterfaceSection, entries, m, Dns);
    ParseAllMeans(lib.address, Listed(m, Address), i.addresses);
    ParseDnsMeans(lib, Listed(m, Dns), i.dns, i.dnsSearch);
    InterfaceByField(lib, m, i);
  }

  lemma InterfaceByField<V>(lib: Library<V>, m: Attributes, i: Interface<V>)
    ensures MakeInterface(lib, m) == Ok(i) <==>
            && PrivateKey in m && lib.privateKey(m[PrivateKey]) == Some(i.privateKey)
            && Optional(m, ListenPort, UInt16, text => InvalidListenPort(text)) == Ok(i.listenPort)
            && ParseAll(lib.address, Listed(m, Address)) == Ok(i.addresses)
            && ParseDns(lib, Listed(m, Dns)) == Ok((i.dns, i.dnsSearch))
            && Optional(m, Mtu, UInt16, text => InvalidMTU(text)) == Ok(i.mtu)
  {
  }

  lemma PeerMade<V>(lib: Library<V>, entries: seq<Entry>, m: Attributes, p: Peer<V>)
    requires Collect(lib, PeerSection, map[], entries) == Some(m)
    ensures MakePeer(lib, m) == Ok(p) <==> PeerMeans(lib, entries, p)
  {
    CollectedOption(lib, PeerSection, entries, m, PublicKey, lib.publicKey, _ => InvalidPublicKey, Some(p.publicKey));
    CollectedOption(lib, PeerSection, entries, m, PresharedKey, lib.preSharedKey, _ => InvalidPreSharedKey, p.preSharedKey);
    CollectedOption(lib, PeerSection, entries, m, Endpoint, lib.endpoint, text => InvalidEndpoint(text), p.endpoint);
    CollectedOption(lib, PeerSection, entries, m, PersistentKeepalive, UInt16, text => InvalidPersistentKeepAlive(text),
                    p.persistentKeepAlive);
    CollectedList(lib, PeerSection, entries, m, AllowedIPs);
    ParseAllMeans(lib.address, Listed(m, AllowedIPs), p.allowedIPs);
    PeerByField(lib, m, p);
  }

  lemma PeerByField<V>(lib: Library<V>, m: Attributes, p: Peer<V>)
    ensures MakePeer(lib, m) == Ok(p) <==>
            && PublicKey in m && lib.publicKey(m[PublicKey]) == Some(p.publicKey)
            && Optional(m, PresharedKey, lib.preSharedKey, _ => InvalidPreSharedKey) == Ok(p.preSharedKey)
            && ParseAll(lib.address, Listed(m, AllowedIPs)) == Ok(p.allowedIPs)
            && Optional(m, Endpoint, lib.endpoint, text => InvalidEndpoint(text)) == Ok(p.endpoint)
            && Optional(m, PersistentKeepalive, UInt16, text => InvalidPersistentKeepAlive(text)) == Ok(p.persistentKeepAlive)
  {
  }

  // From the pass to the groups

  function Accepted<T, E>(r: Result<T, E>): Option<T> {
    if r.Ok? then Some(r.value) else None
  }

  /** What the pass makes of the lines that are left. */
  function Rest<V>(lib: Library<V>, st: State<V>, number: nat, lines: seq<string>): Result<Configuration<V>, ParseError> {
    var st' :- Run(lib, st, number, lines);
    Close(lib, st')
  }

  /** The same from the groups of those lines. */
  function FromParts<V>(lib: Library<V>, st: State<V>, parts: seq<Part>): Option<Configuration<V>>
    decreases |parts|
  {
    if parts == [] then Accepted(Conclude(lib, st))
    else
      match Collect(lib, parts[0].section, map[], parts[0].entries)
      case None => None
      case Some(m) =>
        match Commit(lib, st.(section := Some(parts[0].section), attributes := m))
        case Err(_) => None
        case Ok(st') => FromParts(lib, st', parts[1..])
  }

  function FromGroups<V>(lib: Library<V>, st: State<V>, g: Grouped): Option<Configuration<V>> {
    if st.section.None? then
      if g.outside == [] then FromParts(lib, st.(attributes := map[]), g.parts) else None
    else
      match Collect(lib, st.section.value, st.attributes, g.outside)
      case None => None
      case Some(m) =>
        match Commit(lib, st.(attributes := m))
        case Err(_) => None
        case Ok(st') => FromParts(lib, st', g.parts)
  }

  lemma RestStep<V>(lib: Library<V>, st: State<V>, number: nat, lines: seq<string>)
    requires lines != []
    ensures Rest(lib, st, number, lines)
            == match Step(lib, st, number, lines[0])
               case Err(e) => Err(e)
               case Ok(st') => Rest(lib, st', number + 1, lines[1..])
  {
  }

  /** Line numbers only show in errors. */
  lemma AddAtAnyLine<V>(lib: Library<V>, section: Option<Section>, m: Attributes, n: nat, e: Entry)
    ensures Accepted(Add(lib, section, m, n, e)) == Accepted(Add(lib, section, m, 0, e))
  {
  }

  /** The pass over any lines from any state amounts to the groups of those lines. */
  lemma {:induction false} PassIsGroups<V>(lib: Library<V>, st: State<V>, number: nat, lines: seq<string>)
    requires st.section.None? ==> st.attributes == map[]
    ensures Accepted(Rest(lib, st, number, lines)) == FromGroups(lib, st, Group(lib, lines))
    decreases |lines|, 1
  {
    if lines == [] {
      NoLinesNoGroups(lib, st, number);
    } else {
      var item := Classify(lib, lines[0]);
      if item.Nothing? {
        RestStep(lib, st, number, lines);
        PassIsGroups(lib, st, number + 1, lines[1..]);
      } else if item.Header? {
        HeaderIsGroup(lib, st, number, lines, item.section);
      } else {
        LineIsGroup(lib, st, number, lines, item.entry);
      }
    }
  }

  lemma NoLinesNoGroups<V>(lib: Library<V>, st: State<V>, number: nat)
    requires st.section.None? ==> st.attributes == map[]
    ensures Accepted(Rest(lib, st, number, [])) == FromGroups(lib, st, Group(lib, []))
  {
    assert st.(attributes := st.attributes) == st;
  }

  lemma {:induction false} LineIsGroup<V>(lib: Library<V>, st: State<V>, number: nat, lines: seq<string>, e: Entry)
    requires lines != [] && Classify(lib, lines[0]) == Line(e)
    requires st.section.None? ==> st.attributes == map[]
    ensures Accepted(Rest(lib, st, number, lines)) == FromGroups(lib, st, Group(lib, lines))
    decreases |lines|, 0
  {
    RestStep(lib, st, number, lines);
    var g := Group(lib, lines[1..]);
    var outside := [e] + g.outside;
    assert Group(lib, lines) == Grouped(outside, g.parts);
    if st.section.Some? {
      assert outside[0] == e && outside[1..] == g.outside;
      AddAtAnyLine(lib, st.section, st.attributes, number, e);
      var added := Add(lib, st.section, st.attributes, number, e);
      if added.Ok? {
        PassIsGroups(lib, st.(attributes := added.value), number + 1, lines[1..]);
      }
    }
  }

  lemma {:induction false} HeaderIsGroup<V>(lib: Library<V>, st: State<V>, number: nat, lines: seq<string>, section: Section)
    requires lines != [] && Classify(lib, lines[0]) == Header(section)
    requires st.section.None? ==> st.attributes == map[]
    ensures Accepted(Rest(lib, st, number, lines)) == FromGroups(lib, st, Group(lib, lines))
    decreases |lines|, 0
  {
    RestStep(lib, st, number, lines);
    var g := Group(lib, lines[1..]);
    var parts := [Part(section, g.outside)] + g.parts;
    assert Group(lib, lines) == Grouped([], parts) && parts[1..] == g.parts;
    var committed := Commit(lib, st);
    if committed.Ok? {
      var st' := committed.value.(section := Some(section));
      PassIsGroups(lib, st', number + 1, lines[1..]);
      assert st'.attributes == map[];
    }
  }

  // From the groups to what they mean

  lemma {:induction false} SetSize(s: seq<string>)
    ensures |(set k | k in s)| <= |s|
    ensures |(set k | k in s)| == |s| <==> Distinct(s)
  {
    var all := set k | k in s;
    if s == [] {
      assert all == {};
    } else {
      var rest := set k | k in s[1..];
      SetSize(s[1..]);
      assert all == {s[0]} + rest;
      if s[0] in s[1..] {
        assert all == rest;
        var j :| 0 <= j < |s| - 1 && s[1..][j] == s[0];
        assert s[0] == s[j + 1];
      } else {
        assert |all| == 1 + |rest|;
        if Distinct(s[1..]) {
          forall i, j | 0 <= i < j < |s| ensures s[i] != s[j] {
            assert s[j] == s[1..][j - 1] && s[j] in s[1..];
            if i > 0 {
              assert s[i] == s[1..][i - 1];
            }
          }
        }
      }
      if Distinct(s) {
        assert forall i, j | 0 <= i < j < |s| - 1 :: s[1..][i] == s[i + 1] && s[1..][j] == s[j + 1];
      }
    }
  }

  lemma CollectedWellFormed<V>(lib: Library<V>, part: Part)
    ensures Collect(lib, part.section, map[], part.entries).Some? <==> WellFormed(lib, part)
  {
    CollectSucceeds(lib, part.section, map[], part.entries);
    if WellFormed(lib, part) {
      forall k: Key ensures Fits(lib, part.section, map[], part.entries, k) {}
    }
    if AllFit(lib, part.section, map[], part.entries) {
      forall k: Key | !IsList(k) ensures |Values(lib, part.section, part.entries, k)| <= 1 {
        assert Fits(lib, part.section, map[], part.entries, k);
      }
    }
  }

  ghost predicate InterfacesMean<V>(lib: Library<V>, found: Option<Interface<V>>, parts: seq<Part>, i: Interface<V>) {
    var groups := Under(parts, InterfaceSection);
    if found.Some? then groups == [] && i == found.value
    else |groups| == 1 && InterfaceMeans(lib, groups[0], i)
  }

  ghost predicate AllPeersMean<V>(lib: Library<V>, found: seq<Peer<V>>, parts: seq<Part>, peers: seq<Peer<V>>) {
    && |found| <= |peers| && peers[..|found|] == found
    && PeersMean(lib, Under(parts, PeerSection), peers[|found|..])
  }

  ghost predicate PartsMean<V>(lib: Library<V>, st: State<V>, parts: seq<Part>, c: Configuration<V>) {
    && AllWellFormed(lib, parts)
    && InterfacesMean(lib, st.interface, parts, c.interface)
    && AllPeersMean(lib, st.peers, parts, c.peers)
    && Distinct(PublicKeys(lib, c.peers))
  }

  lemma WellFormedStep<V>(lib: Library<V>, parts: seq<Part>)
    requires parts != []
    ensures AllWellFormed(lib, parts) <==> WellFormed(lib, parts[0]) && AllWellFormed(lib, parts[1..])
  {
    assert forall j | 0 <= j < |parts| - 1 :: parts[1..][j] == parts[j + 1];
    if WellFormed(lib, parts[0]) && AllWellFormed(lib, parts[1..]) {
      forall j | 0 <= j < |parts| ensures WellFormed(lib, parts[j]) {
        if j > 0 {
          assert parts[j] == parts[1..][j - 1];
        }
      }
    }
  }

  lemma PeersMeanStep<V>(lib: Library<V>, groups: seq<seq<Entry>>, peers: seq<Peer<V>>)
    requires groups != [] && peers != []
    ensures PeersMean(lib, groups, peers) <==> PeerMeans(lib, groups[0], peers[0]) && PeersMean(lib, groups[1..], peers[1..])
  {
    assert forall j | 0 <= j < |groups| - 1 :: groups[1..][j] == groups[j + 1];
    assert forall j | 0 <= j < |peers| - 1 :: peers[1..][j] == peers[j + 1];
    if PeerMeans(lib, groups[0], peers[0]) && PeersMean(lib, groups[1..], peers[1..]) {
      forall j | 0 <= j < |groups| ensures PeerMeans(lib, groups[j], peers[j]) {
        if j > 0 {
          assert groups[j] == groups[1..][j - 1] && peers[j] == peers[1..][j - 1];
        }
      }
    }
  }

  /** A peer group first: the next peer is what it means. */
  lemma NextPeerMeans<V>(lib: Library<V>, found: seq<Peer<V>>, parts: seq<Part>, peers: seq<Peer<V>>, p: Peer<V>)
    requires parts != [] && parts[0].section == PeerSection
    requires forall q :: q == p <==> PeerMeans(lib, parts[0].entries, q)
    ensures AllPeersMean(lib, found, parts, peers) <==> AllPeersMean(lib, found + [p], parts[1..], peers)
  {
    var groups, n := Under(parts, PeerSection), |found|;
    assert groups == [parts[0].entries] + Under(parts[1..], PeerSection);
    assert groups[1..] == Under(parts[1..], PeerSection);
    if n < |peers| {
      PeersMeanStep(lib, groups, peers[n..]);
      assert peers[n..][1..] == peers[n + 1..] && peers[..n + 1] == peers[..n] + [peers[n]];
    }
  }

  /** The groups give a configuration exactly when they mean it. */
  lemma {:induction false} GroupsMean<V>(lib: Library<V>, st: State<V>, parts: seq<Part>, c: Configuration<V>)
    ensures FromParts(lib, st, parts) == Some(c) <==> PartsMean(lib, st, parts, c)
    decreases |parts|, 1
  {
    if parts == [] {
      SetSize(PublicKeys(lib, st.peers));
      if AllPeersMean(lib, st.peers, parts, c.peers) {
        assert c.peers[|st.peers|..] == [] && c.peers == c.peers[..|st.peers|];
      }
      assert c == Configuration(c.interface, c.peers);
    } else {
      WellFormedStep(lib, parts);
      CollectedWellFormed(lib, parts[0]);
      var m := Collect(lib, parts[0].section, map[], parts[0].entries);
      if m.Some? {
        if parts[0].section.InterfaceSection? {
          InterfaceFirst(lib, st, parts, c, m.value);
        } else {
          PeerFirst(lib, st, parts, c, m.value);
        }
      }
    }
  }

  lemma {:induction false} InterfaceFirst<V>(lib: Library<V>, st: State<V>, parts: seq<Part>, c: Configuration<V>, m: Attributes)
    requires parts != [] && parts[0].section.InterfaceSection?
    requires Collect(lib, parts[0].section, map[], parts[0].entries) == Some(m)
    ensures FromParts(lib, st, parts) == Some(c) <==> PartsMean(lib, st, parts, c)
    decreases |parts|, 0
  {
    WellFormedStep(lib, parts);
    CollectedWellFormed(lib, parts[0]);
    var rest := parts[1..];
    assert Under(parts, InterfaceSection) == [parts[0].entries] + Under(rest, InterfaceSection);
    assert Under(parts, PeerSection) == Under(rest, PeerSection);
    if st.interface.None? {
      InterfaceMade(lib, parts[0].entries, m, c.interface);
      var made := MakeInterface(lib, m);
      if made.Ok? {
        InterfaceMade(lib, parts[0].entries, m, made.value);
        GroupsMean(lib, st.(section := Some(InterfaceSection), interface := Some(made.value), attributes := map[]), rest, c);
      }
    }
  }

  lemma {:induction false} PeerFirst<V>(lib: Library<V>, st: State<V>, parts: seq<Part>, c: Configuration<V>, m: Attributes)
    requires parts != [] && parts[0].section.PeerSection?
    requires Collect(lib, parts[0].section, map[], parts[0].entries) == Some(m)
    ensures FromParts(lib, st, parts) == Some(c) <==> PartsMean(lib, st, parts, c)
    decreases |parts|, 0
  {
    WellFormedStep(lib, parts);
    CollectedWellFormed(lib, parts[0]);
    var rest := parts[1..];
    assert Under(parts, PeerSection) == [parts[0].entries] + Under(rest, PeerSection);
    assert Under(parts, InterfaceSection) == Under(rest, InterfaceSection);
    var made := MakePeer(lib, m);
    if made.Ok? {
      forall q ensures q == made.value <==> PeerMeans(lib, parts[0].entries, q) {
        PeerMade(lib, parts[0].entries, m, q);
      }
      NextPeerMeans(lib, st.peers, parts, c.peers, made.value);
      GroupsMean(lib, st.(section := Some(PeerSection), peers := st.peers + [made.value], attributes := map[]), rest, c);
    } else if |st.peers| < |c.peers| {
      PeerMade(lib, parts[0].entries, m, c.peers[|st.peers|]);
    }
  }

  /** The parser accepts a text with a configuration exactly when the text means that configuration. */
  lemma ParserAcceptsMeaning<V>(lib: Library<V>, source: string, c: Configuration<V>)
    ensures Parsed(lib, source) == Ok(c) <==> Means(lib, source, c)
  {
    var st := Initial<V>();
    var g := Group(lib, Lines(source));
    assert Parsed(lib, source) == Rest(lib, st, 1, Lines(source));
    PassIsGroups(lib, st, 1, Lines(source));
    GroupsMean(lib, st, g.parts, c);
    assert c.peers[0..] == c.peers && c.peers[..0] == [];
  }

  lemma AddTwice<V>(lib: Library<V>, section: Section, m: Attributes, a: Entry, b: Entry, both: Entry, k: Key)
    requires IsList(k) && !b.Unreadable? && !a.Unreadable?
    requires KeyOf(lib, section, a) == Some(k) && KeyOf(lib, section, b) == Some(k) && KeyOf(lib, section, both) == Some(k)
    requires both.value == a.value + "," + b.value
    ensures var once := Add(lib, Some(section), m, 0, a);
            once.Ok? && Add(lib, Some(section), once.value, 0, b) == Add(lib, Some(section), m, 0, both)
  {
    if k in m {
      assert m[k] + "," + a.value + "," + b.value == m[k] + "," + (a.value + "," + b.value);
    }
    var once := Add(lib, Some(section), m, 0, a).value;
    assert once[k := once[k] + "," + b.value] == m[k := once[k] + "," + b.value];
  }

  lemma LineThenRest<V>(lib: Library<V>, st: State<V>, number: nat, raw: string, rest: seq<string>, e: Entry, m: Attributes)
    requires Classify(lib, raw) == Line(e) && st.section.Some?
    requires Add(lib, st.section, st.attributes, 0, e) == Ok(m)
    ensures Accepted(Rest(lib, st, number, [raw] + rest)) == Accepted(Rest(lib, st.(attributes := m), 0, rest))
  {
    var lines := [raw] + rest;
    assert lines[1..] == rest;
    RestStep(lib, st, number, lines);
    AddAtAnyLine(lib, st.section, st.attributes, number, e);
    PassIsGroups(lib, st.(attributes := m), number + 1, rest);
    PassIsGroups(lib, st.(attributes := m), 0, rest);
  }

  /** Two list lines in a row read as one line with both values joined by a comma. */
  lemma RepeatedListIsJoined<V>(lib: Library<V>, st: State<V>, number: nat, first: string, second: string, joined: string,
                                rest: seq<string>, a: Entry, b: Entry, both: Entry, k: Key)
    requires st.section.Some? && IsList(k)
    requires Classify(lib, first) == Line(a) && Classify(lib, second) == Line(b) && Classify(lib, joined) == Line(both)
    requires KeyOf(lib, st.section.value, a) == Some(k) && KeyOf(lib, st.section.value, b) == Some(k)
    requires KeyOf(lib, st.section.value, both) == Some(k)
    requires both.value == a.value + "," + b.value
    ensures Accepted(Rest(lib, st, number, [first] + ([second] + rest)))
            == Accepted(Rest(lib, st, number, [joined] + rest))
  {
    AddTwice(lib, st.section.value, st.attributes, a, b, both, k);
    var mid := Add(lib, st.section, st.attributes, 0, a).value;
    var m := Add(lib, st.section, mid, 0, b).value;
    LineThenRest(lib, st, number, first, [second] + rest, a, mid);
    LineThenRest(lib, st.(attributes := mid), 0, second, rest, b, m);
    LineThenRest(lib, st, number, joined, rest, both, m);
  }
}
