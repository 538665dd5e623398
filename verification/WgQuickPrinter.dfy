/** Printing a configuration as WireGuard text, and reading the print back. */
module WgQuickPrinter {
  import opened Wrappers
  import opened Text
  import opened WgQuickParser
  import opened WgQuickMeaning

  /** How library values are written. */
  datatype Printer<!V> = Printer(address: V -> string, dnsServer: V -> string, endpoint: V -> string)

  function ShownName(k: Key): string {
    match k
    case PrivateKey => "PrivateKey"
    case ListenPort => "ListenPort"
    case Address => "Address"
    case Dns => "DNS"
    case Mtu => "MTU"
    case PublicKey => "PublicKey"
    case PresharedKey => "PresharedKey"
    case AllowedIPs => "AllowedIPs"
    case Endpoint => "Endpoint"
    case PersistentKeepalive => "PersistentKeepalive"
  }

  function ShownHeader(section: Section): string {
    match section
    case InterfaceSection => "[Interface]"
    case PeerSection => "[Peer]"
  }

  /** At most one entry for a key. */
  function Shown(k: Key, value: Option<string>): seq<Entry> {
    if value.Some? then [Entry(ShownName(k), value.value)] else []
  }

  function ListText(values: seq<string>): Option<string> {
    if values == [] then None else Some(Joined(values))
  }

  function NumberText(n: Option<nat>): Option<string> {
    if n.Some? then Some(Decimal(n.value)) else None
  }

  function OptionText<V>(show: V -> string, v: Option<V>): Option<string> {
    if v.Some? then Some(show(v.value)) else None
  }

  function Texts<V>(show: V -> string, vs: seq<V>): (r: seq<string>)
    ensures |r| == |vs|
    ensures forall i | 0 <= i < |vs| :: r[i] == show(vs[i])
  {
    seq(|vs|, i requires 0 <= i < |vs| => show(vs[i]))
  }

  /** The keys in order, each with its value if it has one. */
  function ShownAll(keys: seq<Key>, value: Key -> Option<string>): seq<Entry> {
    if keys == [] then [] else Shown(keys[0], value(keys[0])) + ShownAll(keys[1..], value)
  }

  const INTERFACE_KEYS: seq<Key> := [PrivateKey, ListenPort, Address, Dns, Mtu]
  const PEER_KEYS: seq<Key> := [PublicKey, PresharedKey, AllowedIPs, Endpoint, PersistentKeepalive]

  function InterfaceValue<V>(lib: Library<V>, pr: Printer<V>, i: Interface<V>, k: Key): Option<string> {
    match k
    case PrivateKey => Some(lib.base64(i.privateKey))
    case ListenPort => NumberText(i.listenPort)
    case Address => ListText(Texts(pr.address, i.addresses))
    case Dns => ListText(Texts(pr.dnsServer, i.dns) + i.dnsSearch)
    case Mtu => NumberText(i.mtu)
    case _ => None
  }

  function PeerValue<V>(lib: Library<V>, pr: Printer<V>, p: Peer<V>, k: Key): Option<string> {
    match k
    case PublicKey => Some(lib.base64(p.publicKey))
    case PresharedKey => OptionText(lib.base64, p.preSharedKey)
    case AllowedIPs => ListText(Texts(pr.address, p.allowedIPs))
    case Endpoint => OptionText(pr.endpoint, p.endpoint)
    case PersistentKeepalive => NumberText(p.persistentKeepAlive)
    case _ => None
  }

  function InterfaceEntries<V>(lib: Library<V>, pr: Printer<V>, i: Interface<V>): seq<Entry> {
    ShownAll(INTERFACE_KEYS, k => InterfaceValue(lib, pr, i, k))
  }

  function PeerEntries<V>(lib: Library<V>, pr: Printer<V>, p: Peer<V>): seq<Entry> {
    ShownAll(PEER_KEYS, k => PeerValue(lib, pr, p, k))
  }

  function InterfacePart<V>(lib: Library<V>, pr: Printer<V>, i: Interface<V>): Part {
    Part(InterfaceSection, InterfaceEntries(lib, pr, i))
  }

  function PeerPart<V>(lib: Library<V>, pr: Printer<V>, p: Peer<V>): Part {
    Part(PeerSection, PeerEntries(lib, pr, p))
  }

  function PeerParts<V>(lib: Library<V>, pr: Printer<V>, peers: seq<Peer<V>>): (r: seq<Part>)
    ensures |r| == |peers|
    ensures forall j | 0 <= j < |peers| :: r[j] == PeerPart(lib, pr, peers[j])
  {
    seq(|peers|, j requires 0 <= j < |peers| => PeerPart(lib, pr, peers[j]))
  }

  function AllParts<V>(lib: Library<V>, pr: Printer<V>, c: Configuration<V>): seq<Part> {
    [InterfacePart(lib, pr, c.interface)] + PeerParts(lib, pr, c.peers)
  }

  function EntryLine(e: Entry): string {
    if e.Entry? then e.name + " = " + e.value else e.content
  }

  function EntryText(entries: seq<Entry>, rest: string): string {
    if entries == [] then rest else EntryLine(entries[0]) + "\n" + EntryText(entries[1..], rest)
  }

  function PartText(parts: seq<Part>): string {
    if parts == [] then ""
    else ShownHeader(parts[0].section) + "\n" + EntryText(parts[0].entries, PartText(parts[1..]))
  }

  function Print<V>(lib: Library<V>, pr: Printer<V>, c: Configuration<V>): string {
    PartText(AllParts(lib, pr, c))
  }

  // What can be printed

  predicate NoLineEnd(s: string) {
    forall i | 0 <= i < |s| :: !IsNewline(s[i])
  }

  /** A text the line format leaves alone. */
  predicate Clean(s: string) {
    && s != "" && Tight(s) && '#' !in s
    && NoLineEnd(s)
  }

  /** A clean text without a comma. */
  predicate CleanPiece(s: string) {
    Clean(s) && ',' !in s
  }

  predicate Reads<V(==)>(parse: string -> Option<V>, show: V -> string, v: V) {
    Clean(show(v)) && parse(show(v)) == Some(v)
  }

  predicate ReadsPiece<V(==)>(parse: string -> Option<V>, show: V -> string, v: V) {
    CleanPiece(show(v)) && parse(show(v)) == Some(v)
  }

  /** The library reads its own prints of the values in a configuration, and numbers and domains are valid. */
  predicate ValidInterface<V(==)>(lib: Library<V>, pr: Printer<V>, i: Interface<V>) {
    && Reads(lib.privateKey, lib.base64, i.privateKey)
    && (i.listenPort.Some? ==> i.listenPort.value < 0x1_0000)
    && (forall j | 0 <= j < |i.addresses| :: ReadsPiece(lib.address, pr.address, i.addresses[j]))
    && (forall j | 0 <= j < |i.dns| :: ReadsPiece(lib.dnsServer, pr.dnsServer, i.dns[j]))
    && (forall j | 0 <= j < |i.dnsSearch| :: IsDomain(lib, i.dnsSearch[j]))
    && (i.mtu.Some? ==> i.mtu.value < 0x1_0000)
  }

  predicate IsDomain<V>(lib: Library<V>, text: string) {
    lib.dnsServer(text).None? && IsValidSearchDomain(lib.isAlphanumeric, text) && CleanPiece(text)
  }

  predicate ValidPeer<V(==)>(lib: Library<V>, pr: Printer<V>, p: Peer<V>) {
    && Reads(lib.publicKey, lib.base64, p.publicKey)
    && (p.preSharedKey.Some? ==> Reads(lib.preSharedKey, lib.base64, p.preSharedKey.value))
    && (forall j | 0 <= j < |p.allowedIPs| :: ReadsPiece(lib.address, pr.address, p.allowedIPs[j]))
    && (p.endpoint.Some? ==> Reads(lib.endpoint, pr.endpoint, p.endpoint.value))
    && (p.persistentKeepAlive.Some? ==> p.persistentKeepAlive.value < 0x1_0000)
  }

  predicate ValidConfiguration<V(==)>(lib: Library<V>, pr: Printer<V>, c: Configuration<V>) {
    && ValidInterface(lib, pr, c.interface)
    && (forall j | 0 <= j < |c.peers| :: ValidPeer(lib, pr, c.peers[j]))
    && Distinct(PublicKeys(lib, c.peers))
  }

  /** Lower-casing turns the printed names into the recognised ones and keeps equals signs. */
  ghost predicate LowersNames(lower: string -> string) {
    && lower("[Interface]") == "[interface]" && lower("[Peer]") == "[peer]"
    && (forall k: Key :: LowersName(lower, k))
    && (forall s: string :: KeepsEquals(lower, s))
  }

  predicate LowersName(lower: string -> string, k: Key) {
    FindKey(lower(ShownName(k))) == Some(k)
  }

  predicate KeepsEquals(lower: string -> string, s: string) {
    '=' in s ==> '=' in lower(s)
  }

  // Lines

  lemma LinesStep(s: string)
    requires s != [] && !IsNewline(s[0])
    ensures Lines(s) == [[s[0]] + Lines(s[1..])[0]] + Lines(s[1..])[1..]
  {
  }

  /** A line without line ends, then a line feed: it is the first line. */
  lemma {:induction false} FirstLine(line: string, rest: string)
    requires NoLineEnd(line)
    ensures Lines(line + "\n" + rest) == [line] + Lines(rest)
  {
    var whole := line + "\n" + rest;
    if line == [] {
      assert whole[0] == '\n' && whole[1..] == rest;
      assert Lines(whole) == [""] + Lines(rest);
    } else {
      assert whole[0] == line[0] && whole[1..] == line[1..] + "\n" + rest;
      FirstLine(line[1..], rest);
      LinesStep(whole);
      var more := [line[1..]] + Lines(rest);
      assert more[0] == line[1..] && more[1..] == Lines(rest);
      assert [line[0]] + line[1..] == line;
    }
  }

  /** A printed entry: a clean name and value. */
  predicate CleanEntry(e: Entry) {
    e.Entry? && Clean(e.name) && Clean(e.value) && '=' !in e.name
  }

  lemma NoComment(line: string)
    requires '#' !in line
    ensures WithoutComment(line) == line
  {
  }

  lemma EntryLineIsClean(e: Entry)
    requires CleanEntry(e)
    ensures Clean(EntryLine(e)) && EntryLine(e) == e.name + " " + ['='] + (" " + e.value)
  {
    var line := EntryLine(e);
    assert line[0] == e.name[0] && line[|line| - 1] == e.value[|e.value| - 1];
    assert line == e.name + (" = " + e.value);
  }

  lemma LoweredIsNoHeader(lower: string -> string, line: string)
    requires LowersNames(lower) && '=' in line
    ensures lower(line) != "[interface]" && lower(line) != "[peer]"
  {
    assert KeepsEquals(lower, line);
    assert '=' !in "[interface]" && '=' !in "[peer]";
  }

  lemma CleanIsKept(line: string)
    requires Clean(line)
    ensures Trim(WithoutComment(line)) == line
  {
    NoComment(line);
    TrimFixesExactlyTight(line);
  }

  lemma EntryClassifies<V>(lib: Library<V>, e: Entry)
    requires CleanEntry(e) && LowersNames(lib.lower)
    ensures Classify(lib, EntryLine(e)) == Line(e) && NoLineEnd(EntryLine(e))
  {
    var line, name, value := EntryLine(e), e.name + " ", " " + e.value;
    EntryLineIsClean(e);
    CleanIsKept(line);
    assert line[|name|] == '=';
    LoweredIsNoHeader(lib.lower, line);
    IndexOfAppend(name, '=', value);
    assert line[..|name|] == name && line[|name| + 1..] == value;
    TrimAfter(e.name);
    TrimBefore(e.value);
  }

  lemma TrimAfter(s: string)
    requires s != "" && Tight(s)
    ensures Trim(s + " ") == s
  {
    TrimEndAppend(s, " ");
    assert TrimEnd(" ") == TrimEnd("");
    assert TrimStart(s + " ") == s + " ";
  }

  lemma TrimBefore(s: string)
    requires s != "" && Tight(s)
    ensures Trim(" " + s) == s
  {
    assert (" " + s)[1..] == s;
    assert TrimStart(" " + s) == TrimStart(s);
    TrimFixesExactlyTight(s);
  }

  lemma HeaderIsClean(section: Section)
    ensures Clean(ShownHeader(section))
  {
  }

  lemma HeaderLowers(lower: string -> string, section: Section)
    requires LowersNames(lower)
    ensures lower(ShownHeader(section)) == if section.InterfaceSection? then "[interface]" else "[peer]"
  {
  }

  lemma HeaderClassifies<V>(lib: Library<V>, section: Section)
    requires LowersNames(lib.lower)
    ensures Classify(lib, ShownHeader(section)) == Header(section) && NoLineEnd(ShownHeader(section))
  {
    HeaderIsClean(section);
    CleanIsKept(ShownHeader(section));
    HeaderLowers(lib.lower, section);
    assert |"[interface]"| != |"[peer]"|;
  }

  ghost predicate AllClean(entries: seq<Entry>) {
    forall i | 0 <= i < |entries| :: CleanEntry(entries[i])
  }

  lemma GroupStep<V>(lib: Library<V>, lines: seq<string>)
    requires lines != []
    ensures Group(lib, lines)
            == var g := Group(lib, lines[1..]);
               match Classify(lib, lines[0])
               case Nothing => g
               case Header(section) => Grouped([], [Part(section, g.outside)] + g.parts)
               case Line(e) => Grouped([e] + g.outside, g.parts)
  {
  }

  /** A printed line in front of a text, as far as grouping goes. */
  lemma LineInFront<V>(lib: Library<V>, line: string, rest: string, item: Item)
    requires NoLineEnd(line) && Classify(lib, line) == item
    ensures Group(lib, Lines(line + "\n" + rest))
            == var g := Group(lib, Lines(rest));
               match item
               case Nothing => g
               case Header(section) => Grouped([], [Part(section, g.outside)] + g.parts)
               case Line(e) => Grouped([e] + g.outside, g.parts)
  {
    FirstLine(line, rest);
    var lines := [line] + Lines(rest);
    assert lines[1..] == Lines(rest);
    GroupStep(lib, lines);
  }

  lemma EntryInFront<V>(lib: Library<V>, e: Entry, rest: string)
    requires CleanEntry(e) && LowersNames(lib.lower)
    ensures Group(lib, Lines(EntryLine(e) + "\n" + rest))
            == Grouped([e] + Group(lib, Lines(rest)).outside, Group(lib, Lines(rest)).parts)
  {
    EntryClassifies(lib, e);
    LineInFront(lib, EntryLine(e), rest, Line(e));
  }

  lemma Regroup(entries: seq<Entry>, outside: seq<Entry>)
    requires entries != []
    ensures [entries[0]] + (entries[1..] + outside) == entries + outside
  {
  }

  lemma EntryTextStep(entries: seq<Entry>, rest: string)
    requires entries != []
    ensures EntryText(entries, rest) == EntryLine(entries[0]) + "\n" + EntryText(entries[1..], rest)
  {
  }

  lemma AllCleanStep(entries: seq<Entry>)
    requires entries != []
    ensures AllClean(entries) <==> CleanEntry(entries[0]) && AllClean(entries[1..])
  {
    if CleanEntry(entries[0]) && AllClean(entries[1..]) {
      forall i | 0 <= i < |entries| ensures CleanEntry(entries[i]) {
        if i > 0 {
          assert entries[i] == entries[1..][i - 1];
        }
      }
    }
    if AllClean(entries) {
      assert forall i | 0 <= i < |entries| - 1 :: entries[1..][i] == entries[i + 1];
    }
  }

  lemma {:induction false} EntriesGroup<V>(lib: Library<V>, entries: seq<Entry>, rest: string, g: Grouped)
    requires AllClean(entries) && LowersNames(lib.lower)
    requires Group(lib, Lines(rest)) == g
    ensures Group(lib, Lines(EntryText(entries, rest))) == Grouped(entries + g.outside, g.parts)
    decreases |entries|
  {
    if entries == [] {
      assert entries + g.outside == g.outside;
    } else {
      AllCleanStep(entries);
      var more := EntryText(entries[1..], rest);
      EntriesGroup(lib, entries[1..], rest, g);
      EntryInFront(lib, entries[0], more);
      EntryTextStep(entries, rest);
      Regroup(entries, g.outside);
    }
  }

  ghost predicate AllPartsClean(parts: seq<Part>) {
    forall j | 0 <= j < |parts| :: AllClean(parts[j].entries)
  }

  lemma EmptyGroups<V>(lib: Library<V>)
    ensures Group(lib, Lines("")) == Grouped([], [])
  {
    assert Lines("") == [""];
    assert [""][1..] == [];
    GroupStep(lib, [""]);
  }

  lemma HeaderInFront<V>(lib: Library<V>, section: Section, rest: string, g: Grouped)
    requires LowersNames(lib.lower) && Group(lib, Lines(rest)) == g
    ensures Group(lib, Lines(ShownHeader(section) + "\n" + rest)) == Grouped([], [Part(section, g.outside)] + g.parts)
  {
    HeaderClassifies(lib, section);
    LineInFront(lib, ShownHeader(section), rest, Header(section));
  }

  lemma PartsCleanStep(parts: seq<Part>)
    requires parts != [] && AllPartsClean(parts)
    ensures AllClean(parts[0].entries) && AllPartsClean(parts[1..])
  {
    assert forall j | 0 <= j < |parts| - 1 :: parts[1..][j] == parts[j + 1];
  }

  /** Grouping the lines of printed groups gives the groups back. */
  lemma {:induction false} PartsGroup<V>(lib: Library<V>, parts: seq<Part>)
    requires AllPartsClean(parts) && LowersNames(lib.lower)
    ensures Group(lib, Lines(PartText(parts))) == Grouped([], parts)
    decreases |parts|
  {
    if parts == [] {
      EmptyGroups(lib);
    } else {
      var first, more := parts[0], parts[1..];
      PartsCleanStep(parts);
      PartsGroup(lib, more);
      PartInFront(lib, first, PartText(more), more);
      assert [first] + more == parts;
    }
  }

  lemma PartInFront<V>(lib: Library<V>, part: Part, rest: string, more: seq<Part>)
    requires AllClean(part.entries) && LowersNames(lib.lower)
    requires Group(lib, Lines(rest)) == Grouped([], more)
    ensures Group(lib, Lines(ShownHeader(part.section) + "\n" + EntryText(part.entries, rest))) == Grouped([], [part] + more)
  {
    EntriesGroup(lib, part.entries, rest, Grouped([], more));
    assert part.entries + [] == part.entries;
    HeaderInFront(lib, part.section, EntryText(part.entries, rest), Grouped(part.entries, more));
    assert Part(part.section, part.entries) == part;
  }

  // The entries of a printed section

  lemma {:induction false} ValuesAppend<V>(lib: Library<V>, section: Section, a: seq<Entry>, b: seq<Entry>, k: Key)
    ensures Values(lib, section, a + b, k) == Values(lib, section, a, k) + Values(lib, section, b, k)
  {
    if a == [] {
      assert a + b == b;
    } else {
      assert (a + b)[0] == a[0] && (a + b)[1..] == a[1..] + b;
      ValuesAppend(lib, section, a[1..], b, k);
    }
  }

  lemma ShownHasKey<V>(lib: Library<V>, k: Key, v: string)
    requires LowersNames(lib.lower)
    ensures KeyOf(lib, SectionOf(k), Entry(ShownName(k), v)) == Some(k)
  {
    assert LowersName(lib.lower, k);
  }

  lemma OneValue<V>(lib: Library<V>, section: Section, k0: Key, value: Option<string>, k: Key)
    requires LowersNames(lib.lower) && SectionOf(k0) == section
    ensures Values(lib, section, Shown(k0, value), k) == if k == k0 && value.Some? then [value.value] else []
  {
    if value.Some? {
      ShownHasKey(lib, k0, value.value);
      var one := Shown(k0, value);
      assert one[1..] == [];
      ValuesStep(lib, section, one, k);
    }
  }

  function OptionSeq<T>(o: Option<T>): seq<T> {
    if o.Some? then [o.value] else []
  }

  /** Every printed key has its own value and nothing else. */
  lemma {:induction false} ShownValues<V>(lib: Library<V>, section: Section, keys: seq<Key>, value: Key -> Option<string>, k: Key)
    requires LowersNames(lib.lower) && Distinct(keys)
    requires forall i | 0 <= i < |keys| :: SectionOf(keys[i]) == section
    ensures Values(lib, section, ShownAll(keys, value), k) == if k in keys then OptionSeq(value(k)) else []
    decreases |keys|
  {
    if keys != [] {
      var first, rest := Shown(keys[0], value(keys[0])), ShownAll(keys[1..], value);
      DistinctRest(keys);
      OneValue(lib, section, keys[0], value(keys[0]), k);
      ValuesAppend(lib, section, first, rest, k);
      ShownValues(lib, section, keys[1..], value, k);
      assert k in keys <==> k == keys[0] || k in keys[1..];
    }
  }

  lemma DistinctRest(keys: seq<Key>)
    requires keys != [] && Distinct(keys)
    ensures Distinct(keys[1..]) && keys[0] !in keys[1..]
  {
    assert forall i | 0 <= i < |keys| - 1 :: keys[1..][i] == keys[i + 1];
  }

  lemma {:induction false} ShownKeyed<V>(lib: Library<V>, section: Section, keys: seq<Key>, value: Key -> Option<string>)
    requires LowersNames(lib.lower)
    requires forall i | 0 <= i < |keys| :: SectionOf(keys[i]) == section
    ensures AllKeyed(lib, section, ShownAll(keys, value))
    decreases |keys|
  {
    if keys != [] {
      ShownKeyed(lib, section, keys[1..], value);
      if value(keys[0]).Some? {
        ShownHasKey(lib, keys[0], value(keys[0]).value);
        var all := ShownAll(keys, value);
        assert all[1..] == ShownAll(keys[1..], value);
        KeyedStep(lib, section, all);
      } else {
        assert ShownAll(keys, value) == ShownAll(keys[1..], value);
      }
    }
  }

  predicate Letters(s: string) {
    forall c | c in s :: 'A' <= c <= 'z'
  }

  lemma NamesAreLetters(k: Key)
    ensures ShownName(k) != "" && Letters(ShownName(k))
  {
  }

  lemma LettersAreClean(s: string)
    requires s != "" && Letters(s)
    ensures Clean(s) && '=' !in s
  {
    assert forall i | 0 <= i < |s| :: s[i] in s;
  }

  lemma {:induction false} ShownClean(keys: seq<Key>, value: Key -> Option<string>)
    requires forall k: Key | k in keys && value(k).Some? :: Clean(value(k).value)
    ensures AllClean(ShownAll(keys, value))
    decreases |keys|
  {
    if keys != [] {
      assert forall k | k in keys[1..] :: k in keys;
      ShownClean(keys[1..], value);
      assert keys[0] in keys;
      if value(keys[0]).Some? {
        NamesAreLetters(keys[0]);
        LettersAreClean(ShownName(keys[0]));
        var all := ShownAll(keys, value);
        assert all[1..] == ShownAll(keys[1..], value);
        AllCleanStep(all);
      } else {
        assert ShownAll(keys, value) == ShownAll(keys[1..], value);
      }
    }
  }

  // Lists

  lemma PieceSplits(t: string)
    requires CleanPiece(t)
    ensures SplitCommaSeparated(t) == [t]
  {
    SplitWhole(t, ',');
    TrimFixesExactlyTight(t);
    assert Pieces([t]) == [t] + Pieces([t][1..]);
  }

  ghost predicate AllPiecesClean(ts: seq<string>) {
    forall i | 0 <= i < |ts| :: CleanPiece(ts[i])
  }

  lemma PiecesCleanRest(ts: seq<string>)
    requires ts != [] && AllPiecesClean(ts)
    ensures CleanPiece(ts[0]) && AllPiecesClean(ts[1..])
  {
    assert forall i | 0 <= i < |ts| - 1 :: ts[1..][i] == ts[i + 1];
  }

  lemma {:induction false} PiecesOfPieces(ts: seq<string>)
    requires AllPiecesClean(ts)
    ensures AllPieces(ts) == ts
    decreases |ts|
  {
    if ts != [] {
      PiecesCleanRest(ts);
      PieceSplits(ts[0]);
      PiecesOfPieces(ts[1..]);
      assert [ts[0]] + ts[1..] == ts;
    }
  }

  lemma CleanJoin(a: string, b: string)
    requires Clean(a) && Clean(b)
    ensures Clean(a + "," + b)
  {
    var j := a + "," + b;
    assert j[0] == a[0] && j[|j| - 1] == b[|b| - 1];
  }

  lemma {:induction false} JoinedIsClean(ts: seq<string>)
    requires ts != [] && AllPiecesClean(ts)
    ensures Clean(Joined(ts))
    decreases |ts|
  {
    PiecesCleanRest(ts);
    if |ts| > 1 {
      JoinedIsClean(ts[1..]);
      CleanJoin(ts[0], Joined(ts[1..]));
    }
  }

  /** A printed list reads back as the list. */
  lemma ListReads(ts: seq<string>)
    requires AllPiecesClean(ts)
    ensures AllPieces(OptionSeq(ListText(ts))) == ts
    ensures ts != [] ==> Clean(Joined(ts))
  {
    if ts != [] {
      JoinedSplits(ts);
      PiecesOfPieces(ts);
      JoinedIsClean(ts);
      var one := OptionSeq(ListText(ts));
      assert one[1..] == [];
      assert AllPieces(one) == SplitCommaSeparated(Joined(ts)) + [];
    }
  }

  lemma NumberReads(n: nat)
    requires n < 0x1_0000
    ensures UInt16(Decimal(n)) == Some(n) && Clean(Decimal(n))
  {
    DecimalValue(n);
    var d := Decimal(n);
    assert IsDigit(d[0]);
    assert forall c | c in d :: IsDigit(c);
  }

  lemma {:induction false} ServersAppend<V>(lib: Library<V>, a: seq<string>, b: seq<string>)
    ensures Servers(lib, a + b) == Servers(lib, a) + Servers(lib, b)
    ensures Domains(lib, a + b) == Domains(lib, a) + Domains(lib, b)
  {
    if a == [] {
      assert a + b == b;
    } else {
      assert (a + b)[0] == a[0] && (a + b)[1..] == a[1..] + b;
      ServersAppend(lib, a[1..], b);
    }
  }

  lemma {:induction false} ServersOfShown<V>(lib: Library<V>, texts: seq<string>, servers: seq<V>)
    requires ListMeans(texts, lib.dnsServer, servers)
    ensures Servers(lib, texts) == servers && Domains(lib, texts) == []
    decreases |texts|
  {
    if texts != [] {
      assert forall i | 0 <= i < |texts| - 1 :: texts[1..][i] == texts[i + 1] && servers[1..][i] == servers[i + 1];
      ServersOfShown(lib, texts[1..], servers[1..]);
      assert [servers[0]] + servers[1..] == servers;
    }
  }

  lemma {:induction false} DomainsOfShown<V>(lib: Library<V>, texts: seq<string>)
    requires forall i | 0 <= i < |texts| :: lib.dnsServer(texts[i]).None?
    ensures Servers(lib, texts) == [] && Domains(lib, texts) == texts
    decreases |texts|
  {
    if texts != [] {
      assert forall i | 0 <= i < |texts| - 1 :: texts[1..][i] == texts[i + 1];
      DomainsOfShown(lib, texts[1..]);
      assert [texts[0]] + texts[1..] == texts;
    }
  }

  // Round trip

  lemma InterfaceKeys()
    ensures Distinct(INTERFACE_KEYS) && Distinct(PEER_KEYS)
    ensures forall i | 0 <= i < |INTERFACE_KEYS| :: SectionOf(INTERFACE_KEYS[i]) == InterfaceSection
    ensures forall i | 0 <= i < |PEER_KEYS| :: SectionOf(PEER_KEYS[i]) == PeerSection
    ensures forall k: Key :: k in INTERFACE_KEYS <==> SectionOf(k) == InterfaceSection
    ensures forall k: Key :: k in PEER_KEYS <==> SectionOf(k) == PeerSection
  {
  }

  lemma InterfaceHas<V>(lib: Library<V>, pr: Printer<V>, i: Interface<V>, k: Key)
    requires LowersNames(lib.lower)
    ensures Values(lib, InterfaceSection, InterfaceEntries(lib, pr, i), k) == OptionSeq(InterfaceValue(lib, pr, i, k))
  {
    InterfaceKeys();
    ShownValues(lib, InterfaceSection, INTERFACE_KEYS, k => InterfaceValue(lib, pr, i, k), k);
  }

  lemma PeerHas<V>(lib: Library<V>, pr: Printer<V>, p: Peer<V>, k: Key)
    requires LowersNames(lib.lower)
    ensures Values(lib, PeerSection, PeerEntries(lib, pr, p), k) == OptionSeq(PeerValue(lib, pr, p, k))
  {
    InterfaceKeys();
    ShownValues(lib, PeerSection, PEER_KEYS, k => PeerValue(lib, pr, p, k), k);
  }

  lemma AddressesRead<V>(lib: Library<V>, pr: Printer<V>, vs: seq<V>)
    requires forall j | 0 <= j < |vs| :: ReadsPiece(lib.address, pr.address, vs[j])
    ensures var ts := Texts(pr.address, vs);
            AllPiecesClean(ts) && ListMeans(AllPieces(OptionSeq(ListText(ts))), lib.address, vs)
            && (ListText(ts).Some? ==> Clean(ListText(ts).value))
  {
    var ts := Texts(pr.address, vs);
    assert AllPiecesClean(ts);
    ListReads(ts);
  }

  lemma DnsReads<V>(lib: Library<V>, pr: Printer<V>, servers: seq<V>, domains: seq<string>)
    requires forall j | 0 <= j < |servers| :: ReadsPiece(lib.dnsServer, pr.dnsServer, servers[j])
    requires forall j | 0 <= j < |domains| :: IsDomain(lib, domains[j])
    ensures var ts := Texts(pr.dnsServer, servers) + domains;
            DnsMeans(lib, AllPieces(OptionSeq(ListText(ts))), servers, domains)
            && (ListText(ts).Some? ==> Clean(ListText(ts).value))
  {
    var shown := Texts(pr.dnsServer, servers);
    var ts := shown + domains;
    assert AllPiecesClean(ts);
    ListReads(ts);
    ServersAppend(lib, shown, domains);
    ServersOfShown(lib, shown, servers);
    DomainsOfShown(lib, domains);
    assert servers + [] == servers && [] + domains == domains;
    forall i | 0 <= i < |ts| ensures IsDnsText(lib, ts[i]) {
      if i >= |shown| {
        assert IsDomain(lib, domains[i - |shown|]);
      }
    }
  }

  lemma NumbersRead(n: Option<nat>)
    requires n.Some? ==> n.value < 0x1_0000
    ensures OptionMeans(OptionSeq(NumberText(n)), UInt16, n)
    ensures NumberText(n).Some? ==> Clean(NumberText(n).value)
  {
    if n.Some? {
      NumberReads(n.value);
    }
  }

  lemma InterfaceValuesAreClean<V>(lib: Library<V>, pr: Printer<V>, i: Interface<V>, k: Key)
    requires ValidInterface(lib, pr, i) && InterfaceValue(lib, pr, i, k).Some?
    ensures Clean(InterfaceValue(lib, pr, i, k).value)
  {
    match k
    case PrivateKey =>
    case ListenPort => NumbersRead(i.listenPort);
    case Address => AddressesRead(lib, pr, i.addresses);
    case Dns => DnsReads(lib, pr, i.dns, i.dnsSearch);
    case Mtu => NumbersRead(i.mtu);
  }

  lemma PeerValuesAreClean<V>(lib: Library<V>, pr: Printer<V>, p: Peer<V>, k: Key)
    requires ValidPeer(lib, pr, p) && PeerValue(lib, pr, p, k).Some?
    ensures Clean(PeerValue(lib, pr, p, k).value)
  {
    match k
    case PublicKey =>
    case PresharedKey =>
    case AllowedIPs => AddressesRead(lib, pr, p.allowedIPs);
    case Endpoint =>
    case PersistentKeepalive => NumbersRead(p.persistentKeepAlive);
  }

  /** Entries that give every key at most the value an interface shows for it. */
  ghost predicate ShowInterface<V>(lib: Library<V>, pr: Printer<V>, entries: seq<Entry>, i: Interface<V>) {
    forall k: Key :: Values(lib, InterfaceSection, entries, k) == OptionSeq(InterfaceValue(lib, pr, i, k))
  }

  ghost predicate ShowPeer<V>(lib: Library<V>, pr: Printer<V>, entries: seq<Entry>, p: Peer<V>) {
    forall k: Key :: Values(lib, PeerSection, entries, k) == OptionSeq(PeerValue(lib, pr, p, k))
  }

  lemma InterfaceShows<V>(lib: Library<V>, pr: Printer<V>, entries: seq<Entry>, i: Interface<V>, k: Key)
    requires ShowInterface(lib, pr, entries, i)
    ensures Values(lib, InterfaceSection, entries, k) == OptionSeq(InterfaceValue(lib, pr, i, k))
  {
  }

  lemma InterfaceTextsSay<V>(lib: Library<V>, pr: Printer<V>, i: Interface<V>)
    requires ValidInterface(lib, pr, i)
    ensures InterfaceSays(lib, [lib.base64(i.privateKey)], OptionSeq(NumberText(i.listenPort)),
                          OptionSeq(ListText(Texts(pr.address, i.addresses))),
                          OptionSeq(ListText(Texts(pr.dnsServer, i.dns) + i.dnsSearch)), OptionSeq(NumberText(i.mtu)), i)
  {
    AddressesRead(lib, pr, i.addresses);
    DnsReads(lib, pr, i.dns, i.dnsSearch);
    NumbersRead(i.listenPort);
    NumbersRead(i.mtu);
  }

  lemma InterfaceValues<V>(lib: Library<V>, pr: Printer<V>, i: Interface<V>)
    ensures OptionSeq(InterfaceValue(lib, pr, i, PrivateKey)) == [lib.base64(i.privateKey)]
    ensures InterfaceValue(lib, pr, i, ListenPort) == NumberText(i.listenPort)
    ensures InterfaceValue(lib, pr, i, Address) == ListText(Texts(pr.address, i.addresses))
    ensures InterfaceValue(lib, pr, i, Dns) == ListText(Texts(pr.dnsServer, i.dns) + i.dnsSearch)
    ensures InterfaceValue(lib, pr, i, Mtu) == NumberText(i.mtu)
  {
  }

  /** The shown values of a valid interface say that interface. */
  lemma InterfaceValuesSay<V>(lib: Library<V>, pr: Printer<V>, i: Interface<V>)
    requires ValidInterface(lib, pr, i)
    ensures InterfaceSays(lib, OptionSeq(InterfaceValue(lib, pr, i, PrivateKey)),
                          OptionSeq(InterfaceValue(lib, pr, i, ListenPort)), OptionSeq(InterfaceValue(lib, pr, i, Address)),
                          OptionSeq(InterfaceValue(lib, pr, i, Dns)), OptionSeq(InterfaceValue(lib, pr, i, Mtu)), i)
  {
    InterfaceTextsSay(lib, pr, i);
    InterfaceValues(lib, pr, i);
  }

  lemma InterfaceReads<V>(lib: Library<V>, pr: Printer<V>, entries: seq<Entry>, i: Interface<V>)
    requires ValidInterface(lib, pr, i) && ShowInterface(lib, pr, entries, i)
    ensures InterfaceMeans(lib, entries, i)
  {
    InterfaceShows(lib, pr, entries, i, PrivateKey);
    InterfaceShows(lib, pr, entries, i, ListenPort);
    InterfaceShows(lib, pr, entries, i, Address);
    InterfaceShows(lib, pr, entries, i, Dns);
    InterfaceShows(lib, pr, entries, i, Mtu);
    InterfaceValuesSay(lib, pr, i);
  }

  lemma OptionReads<V>(parse: string -> Option<V>, show: V -> string, v: Option<V>)
    requires v.Some? ==> Reads(parse, show, v.value)
    ensures OptionMeans(OptionSeq(OptionText(show, v)), parse, v)
  {
  }

  lemma PeerShows<V>(lib: Library<V>, pr: Printer<V>, entries: seq<Entry>, p: Peer<V>, k: Key)
    requires ShowPeer(lib, pr, entries, p)
    ensures Values(lib, PeerSection, entries, k) == OptionSeq(PeerValue(lib, pr, p, k))
  {
  }

  lemma PeerTextsSay<V>(lib: Library<V>, pr: Printer<V>, p: Peer<V>)
    requires ValidPeer(lib, pr, p)
    ensures PeerSays(lib, [lib.base64(p.publicKey)], OptionSeq(OptionText(lib.base64, p.preSharedKey)),
                     OptionSeq(ListText(Texts(pr.address, p.allowedIPs))),
                     OptionSeq(OptionText(pr.endpoint, p.endpoint)), OptionSeq(NumberText(p.persistentKeepAlive)), p)
  {
    OptionReads(lib.preSharedKey, lib.base64, p.preSharedKey);
    OptionReads(lib.endpoint, pr.endpoint, p.endpoint);
    AddressesRead(lib, pr, p.allowedIPs);
    NumbersRead(p.persistentKeepAlive);
  }

  lemma PeerValues<V>(lib: Library<V>, pr: Printer<V>, p: Peer<V>)
    ensures OptionSeq(PeerValue(lib, pr, p, PublicKey)) == [lib.base64(p.publicKey)]
    ensures PeerValue(lib, pr, p, PresharedKey) == OptionText(lib.base64, p.preSharedKey)
    ensures PeerValue(lib, pr, p, AllowedIPs) == ListText(Texts(pr.address, p.allowedIPs))
    ensures PeerValue(lib, pr, p, Endpoint) == OptionText(pr.endpoint, p.endpoint)
    ensures PeerValue(lib, pr, p, PersistentKeepalive) == NumberText(p.persistentKeepAlive)
  {
  }

  /** The shown values of a valid peer say that peer. */
  lemma PeerValuesSay<V>(lib: Library<V>, pr: Printer<V>, p: Peer<V>)
    requires ValidPeer(lib, pr, p)
    ensures PeerSays(lib, OptionSeq(PeerValue(lib, pr, p, PublicKey)), OptionSeq(PeerValue(lib, pr, p, PresharedKey)),
                     OptionSeq(PeerValue(lib, pr, p, AllowedIPs)), OptionSeq(PeerValue(lib, pr, p, Endpoint)),
                     OptionSeq(PeerValue(lib, pr, p, PersistentKeepalive)), p)
  {
    PeerTextsSay(lib, pr, p);
    PeerValues(lib, pr, p);
  }

  lemma PeerReads<V>(lib: Library<V>, pr: Printer<V>, entries: seq<Entry>, p: Peer<V>)
    requires ValidPeer(lib, pr, p) && ShowPeer(lib, pr, entries, p)
    ensures PeerMeans(lib, entries, p)
  {
    PeerShows(lib, pr, entries, p, PublicKey);
    PeerShows(lib, pr, entries, p, PresharedKey);
    PeerShows(lib, pr, entries, p, AllowedIPs);
    PeerShows(lib, pr, entries, p, Endpoint);
    PeerShows(lib, pr, entries, p, PersistentKeepalive);
    PeerValuesSay(lib, pr, p);
  }

  lemma InterfacePartIsFine<V>(lib: Library<V>, pr: Printer<V>, i: Interface<V>)
    requires LowersNames(lib.lower) && ValidInterface(lib, pr, i)
    ensures var entries := InterfaceEntries(lib, pr, i);
            && AllClean(entries) && AllKeyed(lib, InterfaceSection, entries) && ShowInterface(lib, pr, entries, i)
  {
    InterfaceKeys();
    var value := k => InterfaceValue(lib, pr, i, k);
    forall k: Key | k in INTERFACE_KEYS && value(k).Some? ensures Clean(value(k).value) {
      InterfaceValuesAreClean(lib, pr, i, k);
    }
    ShownClean(INTERFACE_KEYS, value);
    ShownKeyed(lib, InterfaceSection, INTERFACE_KEYS, value);
    forall k: Key
      ensures Values(lib, InterfaceSection, InterfaceEntries(lib, pr, i), k) == OptionSeq(InterfaceValue(lib, pr, i, k))
    {
      InterfaceHas(lib, pr, i, k);
    }
  }

  lemma PeerPartIsFine<V>(lib: Library<V>, pr: Printer<V>, p: Peer<V>)
    requires LowersNames(lib.lower) && ValidPeer(lib, pr, p)
    ensures var entries := PeerEntries(lib, pr, p);
            && AllClean(entries) && AllKeyed(lib, PeerSection, entries) && ShowPeer(lib, pr, entries, p)
  {
    InterfaceKeys();
    var value := k => PeerValue(lib, pr, p, k);
    forall k: Key | k in PEER_KEYS && value(k).Some? ensures Clean(value(k).value) {
      PeerValuesAreClean(lib, pr, p, k);
    }
    ShownClean(PEER_KEYS, value);
    ShownKeyed(lib, PeerSection, PEER_KEYS, value);
    forall k: Key ensures Values(lib, PeerSection, PeerEntries(lib, pr, p), k) == OptionSeq(PeerValue(lib, pr, p, k)) {
      PeerHas(lib, pr, p, k);
    }
  }

  lemma InterfaceIsWellFormed<V>(lib: Library<V>, pr: Printer<V>, entries: seq<Entry>, i: Interface<V>)
    requires AllKeyed(lib, InterfaceSection, entries) && ShowInterface(lib, pr, entries, i)
    ensures WellFormed(lib, Part(InterfaceSection, entries))
  {
    forall k: Key | !IsList(k) ensures |Values(lib, InterfaceSection, entries, k)| <= 1 {
      assert Values(lib, InterfaceSection, entries, k) == OptionSeq(InterfaceValue(lib, pr, i, k));
    }
  }

  lemma PeerIsWellFormed<V>(lib: Library<V>, pr: Printer<V>, entries: seq<Entry>, p: Peer<V>)
    requires AllKeyed(lib, PeerSection, entries) && ShowPeer(lib, pr, entries, p)
    ensures WellFormed(lib, Part(PeerSection, entries))
  {
    forall k: Key | !IsList(k) ensures |Values(lib, PeerSection, entries, k)| <= 1 {
      assert Values(lib, PeerSection, entries, k) == OptionSeq(PeerValue(lib, pr, p, k));
    }
  }

  ghost predicate GoodInterface<V>(lib: Library<V>, part: Part, i: Interface<V>) {
    && part.section == InterfaceSection && AllClean(part.entries) && WellFormed(lib, part)
    && InterfaceMeans(lib, part.entries, i)
  }

  ghost predicate GoodPeer<V>(lib: Library<V>, part: Part, p: Peer<V>) {
    && part.section == PeerSection && AllClean(part.entries) && WellFormed(lib, part)
    && PeerMeans(lib, part.entries, p)
  }

  lemma InterfacePartIsGood<V>(lib: Library<V>, pr: Printer<V>, i: Interface<V>)
    requires LowersNames(lib.lower) && ValidInterface(lib, pr, i)
    ensures GoodInterface(lib, InterfacePart(lib, pr, i), i)
  {
    var entries := InterfaceEntries(lib, pr, i);
    InterfacePartIsFine(lib, pr, i);
    InterfaceReads(lib, pr, entries, i);
    InterfaceIsWellFormed(lib, pr, entries, i);
  }

  lemma PeerPartIsGood<V>(lib: Library<V>, pr: Printer<V>, p: Peer<V>)
    requires LowersNames(lib.lower) && ValidPeer(lib, pr, p)
    ensures GoodPeer(lib, PeerPart(lib, pr, p), p)
  {
    var entries := PeerEntries(lib, pr, p);
    PeerPartIsFine(lib, pr, p);
    PeerReads(lib, pr, entries, p);
    PeerIsWellFormed(lib, pr, entries, p);
  }

  ghost predicate GoodPeers<V>(lib: Library<V>, parts: seq<Part>, peers: seq<Peer<V>>) {
    |parts| == |peers| && forall j | 0 <= j < |parts| :: GoodPeer(lib, parts[j], peers[j])
  }

  lemma {:induction false} GoodPeersMean<V>(lib: Library<V>, parts: seq<Part>, peers: seq<Peer<V>>)
    requires GoodPeers(lib, parts, peers)
    ensures Under(parts, InterfaceSection) == [] && PeersMean(lib, Under(parts, PeerSection), peers)
    decreases |parts|
  {
    if parts != [] {
      assert forall j | 0 <= j < |parts| - 1 :: parts[1..][j] == parts[j + 1] && peers[1..][j] == peers[j + 1];
      GoodPeersMean(lib, parts[1..], peers[1..]);
      assert GoodPeer(lib, parts[0], peers[0]);
      var groups := Under(parts, PeerSection);
      assert groups == [parts[0].entries] + Under(parts[1..], PeerSection);
      assert groups[1..] == Under(parts[1..], PeerSection);
      PeersMeanStep(lib, groups, peers);
    }
  }

  /** Groups that read well are read from their print. */
  lemma GoodPartsParse<V>(lib: Library<V>, first: Part, rest: seq<Part>, c: Configuration<V>)
    requires LowersNames(lib.lower) && Distinct(PublicKeys(lib, c.peers))
    requires GoodInterface(lib, first, c.interface) && GoodPeers(lib, rest, c.peers)
    ensures Parsed(lib, PartText([first] + rest)) == Ok(c)
  {
    var parts := [first] + rest;
    assert parts[1..] == rest;
    GoodPeersMean(lib, rest, c.peers);
    assert Under(parts, InterfaceSection) == [first.entries] + Under(rest, InterfaceSection);
    assert Under(parts, PeerSection) == Under(rest, PeerSection);
    forall j | 0 <= j < |parts| ensures AllClean(parts[j].entries) && WellFormed(lib, parts[j]) {
      if j > 0 {
        assert GoodPeer(lib, rest[j - 1], c.peers[j - 1]);
      }
    }
    PartsGroup(lib, parts);
    ParserAcceptsMeaning(lib, PartText(parts), c);
  }

  /** Parsing the print of a valid configuration gives that configuration. */
  lemma PrintParses<V>(lib: Library<V>, pr: Printer<V>, c: Configuration<V>)
    requires LowersNames(lib.lower) && ValidConfiguration(lib, pr, c)
    ensures Parsed(lib, Print(lib, pr, c)) == Ok(c)
  {
    var rest := PeerParts(lib, pr, c.peers);
    InterfacePartIsGood(lib, pr, c.interface);
    forall j | 0 <= j < |c.peers| ensures GoodPeer(lib, rest[j], c.peers[j]) {
      PeerPartIsGood(lib, pr, c.peers[j]);
    }
    GoodPartsParse(lib, InterfacePart(lib, pr, c.interface), rest, c);
  }
}
