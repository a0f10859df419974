/**
  CreateIPCRequest (wireguard.go): the configuration printed as a request of WireGuard's
  cross-platform userspace configuration protocol, and a reference parser for that protocol.
 */
module IpcRequest {
  import opened Text

  /** A field holding an address or prefix carries the text its String method prints. */
  datatype Peer = Peer(
    publicKey: string,
    preSharedKey: string,
    endpoint: Option<string>,
    keepAlive: int,
    allowedIPs: seq<string>)

  datatype Device = Device(
    secretKey: string,
    addresses: seq<string>,
    peers: seq<Peer>,
    dns: seq<string>,
    mtu: int,
    listenPort: Option<int>)

  datatype Setting = Setting(ipcRequest: string, dns: seq<string>, deviceAddr: seq<string>, mtu: int)

  /** The keys of the protocol that this program prints. */
  datatype Key = PrivateKey | ListenPort | PublicKey | KeepAlive | PresharedKey | Endpoint | AllowedIP

  datatype Entry = Entry(key: Key, value: string)

  function KeyName(k: Key): string {
    match k
    case PrivateKey => "private_key"
    case ListenPort => "listen_port"
    case PublicKey => "public_key"
    case KeepAlive => "persistent_keepalive_interval"
    case PresharedKey => "preshared_key"
    case Endpoint => "endpoint"
    case AllowedIP => "allowed_ip"
  }

  /** One line of a request, without its newline. */
  function Line(e: Entry): string {
    KeyName(e.key) + ['='] + e.value
  }

  function Render(es: seq<Entry>): string {
    Unlines(LinesOf(es))
  }

  function LinesOf(es: seq<Entry>): seq<string> {
    seq(|es|, i requires 0 <= i < |es| => Line(es[i]))
  }

  const CATCH_ALL := ["0.0.0.0/0", "::0/0"]

  /** What a configuration says, an empty list of allowed addresses being the two catch-all prefixes. */
  function Canonical(p: Peer): Peer {
    p.(allowedIPs := if p.allowedIPs == [] then CATCH_ALL else p.allowedIPs)
  }

  function CanonicalPeers(peers: seq<Peer>): seq<Peer> {
    seq(|peers|, i requires 0 <= i < |peers| => Canonical(peers[i]))
  }

  function AllowedEntries(ips: seq<string>): seq<Entry> {
    seq(|ips|, i requires 0 <= i < |ips| => Entry(AllowedIP, ips[i]))
  }

  function PeerHead(p: Peer): seq<Entry> {
    [Entry(PublicKey, p.publicKey), Entry(KeepAlive, IntText(p.keepAlive)), Entry(PresharedKey, p.preSharedKey)]
    + if p.endpoint.Some? then [Entry(Endpoint, p.endpoint.value)] else []
  }

  function PeerEntries(p: Peer): seq<Entry> {
    PeerHead(p) + AllowedEntries(Canonical(p).allowedIPs)
  }

  function PeersEntries(peers: seq<Peer>): seq<Entry> {
    if peers == [] then [] else PeersEntries(peers[..|peers| - 1]) + PeerEntries(peers[|peers| - 1])
  }

  function HeadEntries(d: Device): seq<Entry> {
    [Entry(PrivateKey, d.secretKey)]
    + if d.listenPort.Some? then [Entry(ListenPort, IntText(d.listenPort.value))] else []
  }

  function RequestEntries(d: Device): seq<Entry> {
    HeadEntries(d) + PeersEntries(d.peers)
  }

  /** The bytes.Buffer the request is printed into. */
  class Buffer {
    var text: string
    ghost var entries: seq<Entry>

    ghost predicate Valid()
      reads this
    {
      text == Render(entries)
    }

    constructor ()
      ensures Valid() && entries == []
    {
      text, entries := "", [];
    }

    /** Fprintf of one "key=value\n" */
    method Print(k: Key, value: string)
      requires Valid()
      modifies this
      ensures Valid() && entries == old(entries) + [Entry(k, value)]
    {
      RenderOne(entries, Entry(k, value));
      text := text + (Line(Entry(k, value)) + "\n");
      entries := entries + [Entry(k, value)];
    }

    method PrintPeer(peer: Peer)
      requires Valid()
      modifies this
      ensures Valid() && entries == old(entries) + PeerEntries(peer)
    {
      PrintPeerHead(peer);
      if |peer.allowedIPs| > 0 {
        PrintAllowed(peer.allowedIPs);
      } else {
        PrintCatchAll();
      }
    }

    method PrintAllowed(ips: seq<string>)
      requires Valid()
      modifies this
      ensures Valid() && entries == old(entries) + AllowedEntries(ips)
    {
      for j := 0 to |ips|
        invariant Valid() && entries == old(entries) + AllowedEntries(ips[..j])
      {
        Print(AllowedIP, ips[j]);
        AllowedExtend(ips, j);
      }
      assert ips[..|ips|] == ips;
    }

    method PrintCatchAll()
      requires Valid()
      modifies this
      ensures Valid() && entries == old(entries) + AllowedEntries(CATCH_ALL)
    {
      Print(AllowedIP, "0.0.0.0/0");
      Print(AllowedIP, "::0/0");
      assert AllowedEntries(CATCH_ALL) == [Entry(AllowedIP, "0.0.0.0/0"), Entry(AllowedIP, "::0/0")];
    }

    method PrintPeerHead(peer: Peer)
      requires Valid()
      modifies this
      ensures Valid() && entries == old(entries) + PeerHead(peer)
    {
      Print(PublicKey, peer.publicKey);
      Print(KeepAlive, IntText(peer.keepAlive));
      Print(PresharedKey, peer.preSharedKey);
      if peer.endpoint.Some? {
        Print(Endpoint, peer.endpoint.value);
      }
    }

    method PrintPeers(peers: seq<Peer>)
      requires Valid()
      modifies this
      ensures Valid() && entries == old(entries) + PeersEntries(peers)
    {
      for i := 0 to |peers|
        invariant Valid() && entries == old(entries) + PeersEntries(peers[..i])
      {
        PrintPeer(peers[i]);
        PeersExtend(old(entries), peers, i);
      }
      assert peers[..|peers|] == peers;
    }
  }

  /** The printer: a buffer appended to in nested loops. */
  method CreateIPCRequest(conf: Device) returns (setting: Setting)
    ensures setting == Setting(Render(RequestEntries(conf)), conf.dns, conf.addresses, conf.mtu)
    ensures setting.ipcRequest == Unlines(RequestLines(conf))
  {
    var request := new Buffer();
    request.Print(PrivateKey, conf.secretKey);
    if conf.listenPort.Some? {
      request.Print(ListenPort, IntText(conf.listenPort.value));
    }
    assert request.entries == HeadEntries(conf);
    request.PrintPeers(conf.peers);
    RenderedAsFormatted(conf);
    setting := Setting(request.text, conf.dns, conf.addresses, conf.mtu);
  }

  // The same lines, as the program's formats give them.

  function PeerLines(p: Peer): seq<string> {
    ["public_key=" + p.publicKey, "persistent_keepalive_interval=" + IntText(p.keepAlive),
     "preshared_key=" + p.preSharedKey]
    + (if p.endpoint.Some? then ["endpoint=" + p.endpoint.value] else [])
    + (if p.allowedIPs == [] then ["allowed_ip=0.0.0.0/0", "allowed_ip=::0/0"]
       else seq(|p.allowedIPs|, i requires 0 <= i < |p.allowedIPs| => "allowed_ip=" + p.allowedIPs[i]))
  }

  function PeersLines(peers: seq<Peer>): seq<string> {
    if peers == [] then [] else PeersLines(peers[..|peers| - 1]) + PeerLines(peers[|peers| - 1])
  }

  function RequestLines(d: Device): seq<string> {
    ["private_key=" + d.secretKey]
    + (if d.listenPort.Some? then ["listen_port=" + IntText(d.listenPort.value)] else [])
    + PeersLines(d.peers)
  }

  lemma AllowedExtend(ips: seq<string>, j: nat)
    requires j < |ips|
    ensures AllowedEntries(ips[..j + 1]) == AllowedEntries(ips[..j]) + [Entry(AllowedIP, ips[j])]
  {
  }

  lemma PeersExtend(head: seq<Entry>, peers: seq<Peer>, i: nat)
    requires i < |peers|
    ensures head + PeersEntries(peers[..i + 1]) == head + PeersEntries(peers[..i]) + PeerEntries(peers[i])
  {
    assert peers[..i + 1][..i] == peers[..i];
  }

  lemma RenderOne(es: seq<Entry>, e: Entry)
    ensures Render(es + [e]) == Render(es) + (Line(e) + "\n")
  {
    var lines := seq(|es|, i requires 0 <= i < |es| => Line(es[i]));
    UnlinesAppend(lines, [Line(e)]);
    assert [Line(e)][1..] == [];
    assert seq(|es + [e]|, i requires 0 <= i < |es + [e]| => Line((es + [e])[i])) == lines + [Line(e)];
  }

  lemma LineText(e: Entry)
    ensures Line(e) ==
            match e.key
            case PrivateKey => "private_key=" + e.value
            case ListenPort => "listen_port=" + e.value
            case PublicKey => "public_key=" + e.value
            case KeepAlive => "persistent_keepalive_interval=" + e.value
            case PresharedKey => "preshared_key=" + e.value
            case Endpoint => "endpoint=" + e.value
            case AllowedIP => "allowed_ip=" + e.value
  {
  }

  lemma AllowedLines(p: Peer)
    ensures LinesOf(AllowedEntries(Canonical(p).allowedIPs)) ==
            if p.allowedIPs == [] then ["allowed_ip=0.0.0.0/0", "allowed_ip=::0/0"]
            else seq(|p.allowedIPs|, i requires 0 <= i < |p.allowedIPs| => "allowed_ip=" + p.allowedIPs[i])
  {
    var ips := Canonical(p).allowedIPs;
    forall i | 0 <= i < |ips| ensures LinesOf(AllowedEntries(ips))[i] == "allowed_ip=" + ips[i] {
      LineText(Entry(AllowedIP, ips[i]));
    }
    assert "allowed_ip=" + "0.0.0.0/0" == "allowed_ip=0.0.0.0/0" && "allowed_ip=" + "::0/0" == "allowed_ip=::0/0";
  }

  lemma PeerAsFormatted(p: Peer)
    ensures LinesOf(PeerEntries(p)) == PeerLines(p)
  {
    AllowedLines(p);
    LineText(Entry(PublicKey, p.publicKey));
    LineText(Entry(KeepAlive, IntText(p.keepAlive)));
    LineText(Entry(PresharedKey, p.preSharedKey));
    if p.endpoint.Some? {
      LineText(Entry(Endpoint, p.endpoint.value));
    }
    LinesAppend(PeerHead(p), AllowedEntries(Canonical(p).allowedIPs));
  }

  lemma LinesAppend(a: seq<Entry>, b: seq<Entry>)
    ensures LinesOf(a + b) == LinesOf(a) + LinesOf(b)
  {
  }

  lemma {:induction false} PeersAsFormatted(peers: seq<Peer>)
    ensures LinesOf(PeersEntries(peers)) == PeersLines(peers)
  {
    if peers != [] {
      PeersAsFormatted(peers[..|peers| - 1]);
      PeerAsFormatted(peers[|peers| - 1]);
      LinesAppend(PeersEntries(peers[..|peers| - 1]), PeerEntries(peers[|peers| - 1]));
    }
  }

  /** The rendered entries are the program's formats, filled in: the catch-all prefixes and all. */
  lemma RenderedAsFormatted(d: Device)
    ensures Render(RequestEntries(d)) == Unlines(RequestLines(d))
  {
    PeersAsFormatted(d.peers);
    LinesAppend(HeadEntries(d), PeersEntries(d.peers));
    LineText(Entry(PrivateKey, d.secretKey));
    if d.listenPort.Some? {
      LineText(Entry(ListenPort, IntText(d.listenPort.value)));
    }
    assert LinesOf(RequestEntries(d)) == RequestLines(d);
  }

  // The reference parser: lines to entries, and entries to what they say.

  function KeyOf(name: string): Option<Key> {
    if name == "private_key" then Some(PrivateKey)
    else if name == "listen_port" then Some(ListenPort)
    else if name == "public_key" then Some(PublicKey)
    else if name == "persistent_keepalive_interval" then Some(KeepAlive)
    else if name == "preshared_key" then Some(PresharedKey)
    else if name == "endpoint" then Some(Endpoint)
    else if name == "allowed_ip" then Some(AllowedIP)
    else None
  }

  function LexLine(line: string): Option<Entry> {
    match Cut(line, '=')
    case None => None
    case Some((name, v)) =>
      match KeyOf(name)
      case None => None
      case Some(k) => Some(Entry(k, v))
  }

  function LexLines(lines: seq<string>): Option<seq<Entry>> {
    if lines == [] then Some([])
    else
      var e, rest := LexLine(lines[0]), LexLines(lines[1..]);
      if e.None? || rest.None? then None else Some([e.value] + rest.value)
  }

  /** Every line, the last included, ends in a newline. */
  function Lex(text: string): Option<seq<Entry>> {
    var parts := Split(text, '\n');
    if parts[|parts| - 1] != "" then None else LexLines(parts[..|parts| - 1])
  }

  /** What a request says: peer keys belong to the last public_key before them. */
  datatype Request = Request(privateKey: Option<string>, listenPort: Option<int>, peers: seq<Peer>)

  const EMPTY := Request(None, None, [])

  function Assign(r: Request, e: Entry): Option<Request> {
    match e.key
    case PrivateKey => if r.peers == [] then Some(r.(privateKey := Some(e.value))) else None
    case ListenPort =>
      if r.peers != [] || ParseInt(e.value).None? then None else Some(r.(listenPort := ParseInt(e.value)))
    case PublicKey => Some(r.(peers := r.peers + [Peer(e.value, "", None, 0, [])]))
    case _ =>
      if r.peers == [] then None
      else
        var n := |r.peers| - 1;
        var p := AssignPeer(r.peers[n], e);
        if p.None? then None else Some(r.(peers := r.peers[..n] + [p.value]))
  }

  function AssignPeer(p: Peer, e: Entry): Option<Peer> {
    match e.key
    case KeepAlive => if ParseInt(e.value).Some? then Some(p.(keepAlive := ParseInt(e.value).value)) else None
    case PresharedKey => Some(p.(preSharedKey := e.value))
    case Endpoint => Some(p.(endpoint := Some(e.value)))
    case AllowedIP => Some(p.(allowedIPs := p.allowedIPs + [e.value]))
    case _ => None
  }

  function Interpret(r: Request, es: seq<Entry>): Option<Request> {
    if es == [] then Some(r)
    else
      var m := Interpret(r, es[..|es| - 1]);
      if m.None? then None else Assign(m.value, es[|es| - 1])
  }

  function Parse(text: string): Option<Request> {
    var es := Lex(text);
    if es.None? then None else Interpret(EMPTY, es.value)
  }

  predicate Plain(s: string) {
    forall c <- s :: 'a' <= c <= 'z' || c == '_'
  }

  lemma KeyNameIsPlain(k: Key)
    ensures OneLine(KeyName(k)) && '=' !in KeyName(k)
  {
    assert Plain(KeyName(k));
  }

  lemma KeyNameRoundTrip(k: Key)
    ensures KeyOf(KeyName(k)) == Some(k)
  {
    // The lengths and third letters tell the names apart.
    var name := KeyName(k);
    match k
    case PrivateKey =>
    case ListenPort => assert name[2] == 's';
    case PublicKey => assert |name| == 10 && name[2] == 'b';
    case KeepAlive => assert |name| == 29;
    case PresharedKey => assert |name| == 13;
    case Endpoint => assert |name| == 8;
    case AllowedIP => assert |name| == 10 && name[2] == 'l';
  }

  lemma {:induction false} LexInvertsRender(es: seq<Entry>)
    requires forall e <- es :: OneLine(e.value)
    ensures Lex(Render(es)) == Some(es)
  {
    var lines := seq(|es|, i requires 0 <= i < |es| => Line(es[i]));
    forall i | 0 <= i < |es| ensures OneLine(lines[i]) && LexLine(lines[i]) == Some(es[i]) {
      KeyNameIsPlain(es[i].key);
      KeyNameRoundTrip(es[i].key);
      CutAtFirst(KeyName(es[i].key), '=', es[i].value);
      assert es[i] in es;
    }
    SplitUnlines(lines);
    assert (lines + [""])[..|lines|] == lines;
    LexEach(lines, es);
  }

  lemma {:induction false} LexEach(lines: seq<string>, es: seq<Entry>)
    requires |lines| == |es| && forall i | 0 <= i < |es| :: LexLine(lines[i]) == Some(es[i])
    ensures LexLines(lines) == Some(es)
  {
    if lines != [] {
      LexEach(lines[1..], es[1..]);
      assert es == [es[0]] + es[1..];
    }
  }

  lemma {:induction false} InterpretAppend(r: Request, a: seq<Entry>, m: Request, b: seq<Entry>)
    requires Interpret(r, a) == Some(m)
    ensures Interpret(r, a + b) == Interpret(m, b)
    decreases |b|
  {
    if b == [] {
      assert a + b == a;
    } else {
      assert (a + b)[..|a + b| - 1] == a + b[..|b| - 1];
      InterpretAppend(r, a, m, b[..|b| - 1]);
    }
  }

  lemma {:induction false} AllowedInterpreted(r: Request, peers: seq<Peer>, p: Peer, ips: seq<string>)
    requires r.peers == peers + [p]
    ensures Interpret(r, AllowedEntries(ips)) == Some(r.(peers := peers + [p.(allowedIPs := p.allowedIPs + ips)]))
    decreases |ips|
  {
    var es := AllowedEntries(ips);
    if ips == [] {
      assert p.allowedIPs + ips == p.allowedIPs;
    } else {
      var front := ips[..|ips| - 1];
      AllowedInterpreted(r, peers, p, front);
      assert es[..|es| - 1] == AllowedEntries(front);
      assert p.allowedIPs + ips == p.allowedIPs + front + [ips[|ips| - 1]];
      var m := r.(peers := peers + [p.(allowedIPs := p.allowedIPs + front)]);
      assert m.peers[..|m.peers| - 1] == peers;
    }
  }

  lemma InterpretNext(r: Request, es: seq<Entry>, m: Request, e: Entry)
    requires Interpret(r, es) == Some(m)
    ensures Interpret(r, es + [e]) == Assign(m, e)
  {
    assert (es + [e])[..|es|] == es;
  }

  lemma AssignLast(r: Request, peers: seq<Peer>, p: Peer, e: Entry, q: Peer)
    requires r.peers == peers + [p] && AssignPeer(p, e) == Some(q)
    ensures Assign(r, e) == Some(r.(peers := peers + [q]))
  {
    assert r.peers[..|r.peers| - 1] == peers;
  }

  lemma PeerHeadInterpreted(r: Request, p: Peer)
    ensures Interpret(r, PeerHead(p)) == Some(r.(peers := r.peers + [p.(allowedIPs := [])]))
  {
    var q0 := Peer(p.publicKey, "", None, 0, []);
    var q1 := q0.(keepAlive := p.keepAlive);
    var q2 := q1.(preSharedKey := p.preSharedKey);
    var r0, r1, r2 := r.(peers := r.peers + [q0]), r.(peers := r.peers + [q1]), r.(peers := r.peers + [q2]);
    var e0, e1 := Entry(PublicKey, p.publicKey), Entry(KeepAlive, IntText(p.keepAlive));
    var e2 := Entry(PresharedKey, p.preSharedKey);
    InterpretNext(r, [], r, e0);
    assert [] + [e0] == [e0];
    IntRoundTrip(p.keepAlive);
    AssignLast(r0, r.peers, q0, e1, q1);
    InterpretNext(r, [e0], r0, e1);
    AssignLast(r1, r.peers, q1, e2, q2);
    InterpretNext(r, [e0] + [e1], r1, e2);
    assert [e0] + [e1] + [e2] == [e0, e1, e2];
    if p.endpoint.Some? {
      var e3 := Entry(Endpoint, p.endpoint.value);
      AssignLast(r2, r.peers, q2, e3, p.(allowedIPs := []));
      InterpretNext(r, [e0, e1, e2], r2, e3);
    } else {
      assert [e0, e1, e2] + [] == [e0, e1, e2];
    }
  }

  lemma PeerInterpreted(r: Request, p: Peer)
    ensures Interpret(r, PeerEntries(p)) == Some(r.(peers := r.peers + [Canonical(p)]))
  {
    var ips, q := Canonical(p).allowedIPs, p.(allowedIPs := []);
    PeerHeadInterpreted(r, p);
    var m := r.(peers := r.peers + [q]);
    InterpretAppend(r, PeerHead(p), m, AllowedEntries(ips));
    AllowedInterpreted(m, r.peers, q, ips);
    assert [] + ips == ips;
  }

  lemma PeersThenPeer(r: Request, es: seq<Entry>, m: Request, p: Peer)
    requires Interpret(r, es) == Some(m)
    ensures Interpret(r, es + PeerEntries(p)) == Some(m.(peers := m.peers + [Canonical(p)]))
  {
    InterpretAppend(r, es, m, PeerEntries(p));
    PeerInterpreted(m, p);
  }

  lemma CanonicalExtend(a: seq<Peer>, peers: seq<Peer>, p: Peer)
    ensures a + CanonicalPeers(peers) + [Canonical(p)] == a + CanonicalPeers(peers + [p])
  {
  }

  lemma {:induction false} PeersInterpreted(r: Request, peers: seq<Peer>)
    ensures Interpret(r, PeersEntries(peers)) == Some(r.(peers := r.peers + CanonicalPeers(peers)))
  {
    if peers == [] {
      assert r.peers + CanonicalPeers(peers) == r.peers;
    } else {
      var before, p := peers[..|peers| - 1], peers[|peers| - 1];
      PeersInterpreted(r, before);
      var m := r.(peers := r.peers + CanonicalPeers(before));
      PeersThenPeer(r, PeersEntries(before), m, p);
      CanonicalExtend(r.peers, before, p);
      assert before + [p] == peers;
    }
  }

  lemma HeadInterpreted(d: Device)
    ensures Interpret(EMPTY, HeadEntries(d)) == Some(Request(Some(d.secretKey), d.listenPort, []))
  {
    var e, r := Entry(PrivateKey, d.secretKey), Request(Some(d.secretKey), None, []);
    InterpretNext(EMPTY, [], EMPTY, e);
    assert [] + [e] == [e];
    if d.listenPort.Some? {
      IntRoundTrip(d.listenPort.value);
      InterpretNext(EMPTY, [e], r, Entry(ListenPort, IntText(d.listenPort.value)));
    } else {
      assert HeadEntries(d) == [e];
    }
  }

  predicate PeerOneLine(p: Peer) {
    && OneLine(p.publicKey) && OneLine(p.preSharedKey)
    && (p.endpoint.Some? ==> OneLine(p.endpoint.value)) && (forall ip <- p.allowedIPs :: OneLine(ip))
  }

  predicate FieldsOneLine(d: Device) {
    OneLine(d.secretKey) && forall p <- d.peers :: PeerOneLine(p)
  }

  lemma PeerValuesOneLine(p: Peer)
    requires PeerOneLine(p)
    ensures forall e <- PeerEntries(p) :: OneLine(e.value)
  {
    forall ip <- Canonical(p).allowedIPs ensures OneLine(ip) {
    }
  }

  lemma {:induction false} PeersValuesOneLine(peers: seq<Peer>)
    requires forall p <- peers :: PeerOneLine(p)
    ensures forall e <- PeersEntries(peers) :: OneLine(e.value)
  {
    if peers != [] {
      PeersValuesOneLine(peers[..|peers| - 1]);
      PeerValuesOneLine(peers[|peers| - 1]);
    }
  }

  /** The round trip: the printed request says exactly what the configuration does. */
  lemma RequestRoundTrip(d: Device)
    requires FieldsOneLine(d)
    ensures Parse(Render(RequestEntries(d))) == Some(Request(Some(d.secretKey), d.listenPort, CanonicalPeers(d.peers)))
  {
    PeersValuesOneLine(d.peers);
    LexInvertsRender(RequestEntries(d));
    HeadInterpreted(d);
    var head := Request(Some(d.secretKey), d.listenPort, []);
    InterpretAppend(EMPTY, HeadEntries(d), head, PeersEntries(d.peers));
    PeersInterpreted(head, d.peers);
    assert [] + CanonicalPeers(d.peers) == CanonicalPeers(d.peers);
  }

  /** The default in plain words: only an empty list reads back differently, as the two catch-all prefixes. */
  lemma EmptyListReadsBackAsCatchAll(d: Device)
    requires FieldsOneLine(d)
    ensures var r := Parse(Render(RequestEntries(d)));
            && r.Some? && |r.value.peers| == |d.peers|
            && forall i | 0 <= i < |d.peers| ::
                 r.value.peers[i] ==
                 if d.peers[i].allowedIPs == [] then d.peers[i].(allowedIPs := ["0.0.0.0/0", "::0/0"]) else d.peers[i]
  {
    RequestRoundTrip(d);
  }

  /** Equal texts mean equal configurations, up to the default for an empty list. */
  lemma EqualRequestsMeanEqualConfigs(c: Device, d: Device)
    requires FieldsOneLine(c) && FieldsOneLine(d)
    ensures Render(RequestEntries(c)) == Render(RequestEntries(d)) <==>
            && c.secretKey == d.secretKey && c.listenPort == d.listenPort
            && CanonicalPeers(c.peers) == CanonicalPeers(d.peers)
  {
    RequestRoundTrip(c);
    RequestRoundTrip(d);
    if CanonicalPeers(c.peers) == CanonicalPeers(d.peers) {
      SamePeersSameEntries(c.peers, d.peers);
    }
  }

  lemma {:induction false} SamePeersSameEntries(a: seq<Peer>, b: seq<Peer>)
    requires CanonicalPeers(a) == CanonicalPeers(b)
    ensures PeersEntries(a) == PeersEntries(b)
  {
    assert |CanonicalPeers(a)| == |a| && |CanonicalPeers(b)| == |b|;
    if a != [] {
      var n := |a| - 1;
      assert CanonicalPeers(a[..n]) == CanonicalPeers(a)[..n] == CanonicalPeers(b)[..n] == CanonicalPeers(b[..n]);
      SamePeersSameEntries(a[..n], b[..n]);
      assert Canonical(a[n]) == CanonicalPeers(a)[n] == CanonicalPeers(b)[n] == Canonical(b[n]);
    }
  }
}
