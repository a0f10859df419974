/**
  The connected bind of clientbind/clientbind.go and the choice made by bindForConfig: one socket at
  a time across Open/Close generations, receive functions that stay with their own socket, and
  agreement with the endpoint line of the printed request.
 */
module ClientBind {
  import opened Text
  import opened IpcRequest
  import opened Netip

  datatype Bind = DefaultBind | ClientOnly(peer: AddrPort)

  /** clientbind.New, which refuses an invalid peer */
  function New(peer: AddrPort): Bind {
    if peer.addr.Zero? then DefaultBind else ClientOnly(peer)
  }

  /** bindForConfig; `parse` is netip.ParseAddrPort. */
  function BindForConfig(d: Device, parse: string -> Option<AddrPort>): Bind {
    if |d.peers| != 1 || d.peers[0].endpoint.None? then DefaultBind
    else
      var ap := parse(d.peers[0].endpoint.value);
      if ap.None? then DefaultBind else New(ap.value)
  }

  /** ParseEndpoint of a bind for `peer` */
  function ParseEndpoint(peer: AddrPort, s: string, parse: string -> Option<AddrPort>): Option<AddrPort> {
    var ap := parse(s);
    if ap.None? || ap.value != peer then None else ap
  }

  /** The request says that there is one peer, with this endpoint. */
  predicate SaysOnePeerAt(r: Option<Request>, endpoint: string) {
    r.Some? && |r.value.peers| == 1 && r.value.peers[0].endpoint == Some(endpoint)
  }

  /**
    A configuration gets the connected bind exactly when the request printed for it has one peer,
    with an endpoint line that parses to a valid address; that address is then the bind's peer.
   */
  lemma ConnectedBindIsPickedExactly(d: Device, parse: string -> Option<AddrPort>, peer: AddrPort)
    requires FieldsOneLine(d)
    ensures BindForConfig(d, parse) == ClientOnly(peer) <==>
            !peer.addr.Zero? && exists e :: SaysOnePeerAt(Parse(Render(RequestEntries(d))), e) && parse(e) == Some(peer)
  {
    RequestRoundTrip(d);
    var r := Parse(Render(RequestEntries(d)));
    if BindForConfig(d, parse) == ClientOnly(peer) {
      assert SaysOnePeerAt(r, d.peers[0].endpoint.value);
    }
    if e :| SaysOnePeerAt(r, e) && parse(e) == Some(peer) {
      assert |d.peers| == 1 && d.peers[0].endpoint == Some(e);
    }
  }

  /**
    Whenever the configuration gets the connected bind, the request printed for it has one peer with
    an endpoint line, and that bind accepts this line as its peer, and no line that is another address.
   */
  lemma PickedBindAcceptsItsEndpoint(d: Device, parse: string -> Option<AddrPort>)
    requires FieldsOneLine(d) && BindForConfig(d, parse).ClientOnly?
    ensures var r := Parse(Render(RequestEntries(d)));
            && r.Some? && |r.value.peers| == 1 && r.value.peers[0].endpoint.Some?
            && var peer := BindForConfig(d, parse).peer;
               && !peer.addr.Zero? && ParseEndpoint(peer, r.value.peers[0].endpoint.value, parse) == Some(peer)
               && forall s: string ::
                    ParseEndpoint(peer, s, parse) == if parse(s) == Some(peer) then Some(peer) else None
  {
    RequestRoundTrip(d);
  }

  /** Which addresses a network of package net can dial: 4-in-6 addresses are IPv4 ones. */
  predicate CanDial(network: string, a: Addr) {
    || (network == "udp4" && (a.V4? || (a.V6? && a.v4In6)))
    || (network == "udp6" && a.V6? && !a.v4In6)
  }

  function Network(peer: AddrPort): string {
    if peer.addr.V6? && !peer.addr.v4In6 then "udp6" else "udp4"
  }

  /** A datagram, marked with the socket the network handed it to. */
  datatype Datagram = Datagram(socket: nat, data: seq<Byte>)

  datatype Error = NetClosed | BindAlreadyOpen | Io

  datatype Op =
    | Open(dialed: bool)
    | BeginSend                                   // Send reads conn under the lock
    | FinishSend(call: nat, bufs: seq<seq<Byte>>, accepted: nat)   // and writes outside it
    | Close
    | Arrive(socket: nat, data: seq<Byte>)
    | Receive(generation: nat)                   // call of the receive function of an earlier Open

  datatype SocketState = SocketState(
    network: string,
    remote: AddrPort,
    open: bool,
    inbox: seq<Datagram>,
    sent: seq<seq<Byte>>)

  /**
    The sockets opened so far, one for each generation; which of them is conn; what the Sends begun so
    far have read; and what the receive functions have yielded, each with its generation.
   */
  datatype BindState = BindState(
    conn: Option<nat>,
    sockets: seq<SocketState>,
    calls: seq<Option<nat>>,
    received: seq<(nat, Datagram)>)

  const CLOSED := BindState(None, [], [], [])

  /** Writes the buffers in turn, as many as the socket takes. */
  function Written(x: SocketState, bufs: seq<seq<Byte>>, accepted: nat): SocketState {
    if !x.open then x
    else x.(sent := x.sent + bufs[..if accepted < |bufs| then accepted else |bufs|])
  }

  function StepBind(peer: AddrPort, s: BindState, op: Op): BindState {
    match op
    case Open(dialed) =>
      if s.conn.Some? || !dialed then s
      else s.(conn := Some(|s.sockets|), sockets := s.sockets + [SocketState(Network(peer), peer, true, [], [])])
    case BeginSend => s.(calls := s.calls + [s.conn])
    case FinishSend(c, bufs, accepted) =>
      if c < |s.calls| && s.calls[c].Some? && s.calls[c].value < |s.sockets| then
        var i := s.calls[c].value;
        s.(sockets := s.sockets[i := Written(s.sockets[i], bufs, accepted)])
      else s
    case Close =>
      if s.conn.Some? && s.conn.value < |s.sockets| then
        var i := s.conn.value;
        s.(conn := None, sockets := s.sockets[i := s.sockets[i].(open := false)])
      else s
    case Arrive(i, data) =>
      if i < |s.sockets| && s.sockets[i].open then
        s.(sockets := s.sockets[i := s.sockets[i].(inbox := s.sockets[i].inbox + [Datagram(i, data)])])
      else s
    case Receive(i) =>
      if i < |s.sockets| && s.sockets[i].open && s.sockets[i].inbox != [] then
        s.(sockets := s.sockets[i := s.sockets[i].(inbox := s.sockets[i].inbox[1..])],
           received := s.received + [(i, s.sockets[i].inbox[0])])
      else s
  }

  function RunBind(peer: AddrPort, s: BindState, ops: seq<Op>): BindState {
    if ops == [] then s
    else StepBind(peer, RunBind(peer, s, ops[..|ops| - 1]), ops[|ops| - 1])
  }

  ghost predicate MarkedWith(inbox: seq<Datagram>, i: nat) {
    forall m <- inbox :: m.socket == i
  }

  ghost predicate SocketOk(peer: AddrPort, s: BindState, i: nat)
    requires i < |s.sockets|
  {
    && (s.sockets[i].open <==> s.conn == Some(i))
    && CanDial(s.sockets[i].network, peer.addr) && s.sockets[i].remote == peer
    && MarkedWith(s.sockets[i].inbox, i)
  }

  ghost predicate BindOk(peer: AddrPort, s: BindState) {
    && (s.conn.Some? ==> s.conn.value + 1 == |s.sockets|)
    && (forall i: nat | i < |s.sockets| :: SocketOk(peer, s, i))
    && (forall c <- s.calls :: c.Some? ==> c.value < |s.sockets|)
    && (forall e <- s.received :: e.0 < |s.sockets| && e.1.socket == e.0)
  }

  function OpenSockets(sockets: seq<SocketState>): nat {
    if sockets == [] then 0
    else OpenSockets(sockets[..|sockets| - 1]) + if sockets[|sockets| - 1].open then 1 else 0
  }

  lemma StepKeepsBind(peer: AddrPort, s: BindState, op: Op)
    requires BindOk(peer, s) && !peer.addr.Zero?
    ensures BindOk(peer, StepBind(peer, s, op))
  {
    var r := StepBind(peer, s, op);
    forall i: nat | i < |r.sockets| ensures SocketOk(peer, r, i) {
      if i < |s.sockets| {
        assert SocketOk(peer, s, i);
      }
    }
    if op.Receive? && r != s {
      assert SocketOk(peer, s, op.generation);
      assert s.sockets[op.generation].inbox[0] in s.sockets[op.generation].inbox;
    }
  }

  lemma {:induction false} NoneOpen(sockets: seq<SocketState>)
    requires forall i | 0 <= i < |sockets| :: !sockets[i].open
    ensures OpenSockets(sockets) == 0
  {
    if sockets != [] {
      NoneOpen(sockets[..|sockets| - 1]);
    }
  }

  lemma CountOpen(peer: AddrPort, s: BindState)
    requires BindOk(peer, s)
    ensures OpenSockets(s.sockets) == if s.conn.Some? then 1 else 0
  {
    var n := |s.sockets|;
    forall i: nat | i < n ensures s.sockets[i].open <==> s.conn == Some(i) {
      assert SocketOk(peer, s, i);
    }
    if s.conn.Some? {
      NoneOpen(s.sockets[..n - 1]);
    } else {
      NoneOpen(s.sockets);
    }
  }

  /**
    Over any interleaving of calls: of the sockets opened exactly one is still open while conn is set
    and none otherwise; each was dialled to the peer on a network that can; and what the receive
    function of a generation has yielded was handed to that generation's socket.
   */
  lemma {:induction false} EveryBindRun(peer: AddrPort, ops: seq<Op>)
    requires !peer.addr.Zero?
    ensures var r := RunBind(peer, CLOSED, ops);
            BindOk(peer, r) && OpenSockets(r.sockets) == if r.conn.Some? then 1 else 0
  {
    if ops != [] {
      EveryBindRun(peer, ops[..|ops| - 1]);
      StepKeepsBind(peer, RunBind(peer, CLOSED, ops[..|ops| - 1]), ops[|ops| - 1]);
    }
    CountOpen(peer, RunBind(peer, CLOSED, ops));
  }

  /** A closed socket stays exactly as it was, whatever the Sends begun before still try to write. */
  lemma {:induction false} ClosedSocketsStayAsTheyWere(peer: AddrPort, s: BindState, ops: seq<Op>, i: nat)
    requires i < |s.sockets| && !s.sockets[i].open
    ensures var r := RunBind(peer, s, ops); i < |r.sockets| && r.sockets[i] == s.sockets[i]
  {
    if ops != [] {
      ClosedSocketsStayAsTheyWere(peer, s, ops[..|ops| - 1], i);
      ClosedSocketStep(peer, RunBind(peer, s, ops[..|ops| - 1]), ops[|ops| - 1], i);
    }
  }

  lemma ClosedSocketStep(peer: AddrPort, s: BindState, op: Op, i: nat)
    requires i < |s.sockets| && !s.sockets[i].open
    ensures var r := StepBind(peer, s, op); i < |r.sockets| && r.sockets[i] == s.sockets[i]
  {
  }

  lemma {:induction false} RunBindThen(peer: AddrPort, s: BindState, a: seq<Op>, b: seq<Op>)
    ensures RunBind(peer, s, a + b) == RunBind(peer, RunBind(peer, s, a), b)
    decreases |b|
  {
    if b == [] {
      assert a + b == a;
    } else {
      assert (a + b)[..|a + b| - 1] == a + b[..|b| - 1];
      RunBindThen(peer, s, a, b[..|b| - 1]);
    }
  }

  lemma RunBindOne(peer: AddrPort, s: BindState, op: Op)
    ensures RunBind(peer, s, [op]) == StepBind(peer, s, op)
  {
    assert [op][..0] == [];
  }

  lemma RunBindNext(peer: AddrPort, s: BindState, op: Op, rest: seq<Op>)
    ensures RunBind(peer, s, [op] + rest) == RunBind(peer, StepBind(peer, s, op), rest)
  {
    RunBindOne(peer, s, op);
    RunBindThen(peer, s, [op], rest);
  }

  /** Open, a datagram each way, and Close again. */
  function Generation(g: nat, call: nat, data: seq<Byte>, bufs: seq<seq<Byte>>): seq<Op> {
    [Open(true)] + ([Arrive(g, data)] + ([Receive(g)] + ([BeginSend] + ([FinishSend(call, bufs, |bufs|)] + [Close]))))
  }

  /** A closed bind opens again, receives and sends on the new socket only, and closes it. */
  lemma AGenerationWorks(peer: AddrPort, s: BindState, data: seq<Byte>, bufs: seq<seq<Byte>>)
    requires BindOk(peer, s) && s.conn.None?
    ensures var g := |s.sockets|;
            var r := RunBind(peer, s, Generation(g, |s.calls|, data, bufs));
            && r.conn.None? && r.received == s.received + [(g, Datagram(g, data))]
            && r.sockets == s.sockets + [SocketState(Network(peer), peer, false, [], bufs)]
  {
    var g, c := |s.sockets|, |s.calls|;
    var send := [FinishSend(c, bufs, |bufs|)] + [Close];
    RunBindNext(peer, s, Open(true), [Arrive(g, data)] + ([Receive(g)] + ([BeginSend] + send)));
    var s1 := StepBind(peer, s, Open(true));
    ReceivesWhatArrives(peer, s1, g, data, [BeginSend] + send);
    var s2 := s1.(received := s1.received + [(g, Datagram(g, data))]);
    SendsAndCloses(peer, s2, g, bufs);
    assert [] + bufs == bufs;
    assert s1.sockets[g := s1.sockets[g].(open := false, sent := bufs)] ==
           s.sockets + [SocketState(Network(peer), peer, false, [], bufs)];
  }

  lemma ReceivesWhatArrives(peer: AddrPort, s: BindState, g: nat, data: seq<Byte>, rest: seq<Op>)
    requires g < |s.sockets| && s.sockets[g].open && s.sockets[g].inbox == []
    ensures RunBind(peer, s, [Arrive(g, data)] + ([Receive(g)] + rest)) ==
            RunBind(peer, s.(received := s.received + [(g, Datagram(g, data))]), rest)
  {
    var m := StepBind(peer, s, Arrive(g, data));
    RunBindNext(peer, s, Arrive(g, data), [Receive(g)] + rest);
    RunBindNext(peer, m, Receive(g), rest);
    assert m.sockets[g].inbox == [Datagram(g, data)];
    assert m.sockets[g].inbox[1..] == [];
    assert m.sockets[g].(inbox := []) == s.sockets[g];
    assert m.sockets[g := s.sockets[g]] == s.sockets;
  }

  lemma SendsAndCloses(peer: AddrPort, s: BindState, g: nat, bufs: seq<seq<Byte>>)
    requires g < |s.sockets| && s.sockets[g].open && s.conn == Some(g)
    ensures var r := RunBind(peer, s, [BeginSend] + ([FinishSend(|s.calls|, bufs, |bufs|)] + [Close]));
            r == s.(conn := None, calls := s.calls + [Some(g)],
                    sockets := s.sockets[g := s.sockets[g].(open := false, sent := s.sockets[g].sent + bufs)])
  {
    var c := |s.calls|;
    var m := StepBind(peer, s, BeginSend);
    var n := StepBind(peer, m, FinishSend(c, bufs, |bufs|));
    RunBindNext(peer, s, BeginSend, [FinishSend(c, bufs, |bufs|)] + [Close]);
    RunBindNext(peer, m, FinishSend(c, bufs, |bufs|), [Close]);
    RunBindOne(peer, n, Close);
    assert bufs[..|bufs|] == bufs;
    assert n.sockets == s.sockets[g := s.sockets[g].(sent := s.sockets[g].sent + bufs)];
  }

  class Socket {
    const id: nat
    const network: string
    const remote: AddrPort
    var open: bool
    var inbox: seq<Datagram>
    var sent: seq<seq<Byte>>

    constructor (id: nat, network: string, remote: AddrPort)
      ensures this.id == id && State() == SocketState(network, remote, true, [], [])
    {
      this.id, this.network, this.remote, open, inbox, sent := id, network, remote, true, [], [];
    }

    function State(): SocketState
      reads this
    {
      SocketState(network, remote, open, inbox, sent)
    }
  }

  /** A call of a receive function: a datagram, nothing to read yet, or the error of a closed socket. */
  datatype Received = Got(datagram: Datagram) | Blocked | SocketClosed

  class ClientOnlyBind {
    const peer: AddrPort
    var conn: Socket?
    var made: seq<Socket>             // what the receive functions returned so far have captured
    var calls: seq<Socket?>           // what the Sends begun so far have read
    var received: seq<(nat, Datagram)>
    ghost var state: BindState

    ghost predicate Valid()
      reads this, made
    {
      && SocketsShow(state.sockets) && received == state.received
      && Stands(conn, state.conn)
      && |calls| == |state.calls| && (forall k | 0 <= k < |calls| :: Stands(calls[k], state.calls[k]))
      && BindOk(peer, state) && !peer.addr.Zero?
    }

    ghost predicate SocketsShow(v: seq<SocketState>)
      reads this`made, made
    {
      |made| == |v| && forall i | 0 <= i < |made| :: made[i].id == i && made[i].State() == v[i]
    }

    /** A reference, and the number it stands for. */
    ghost predicate Stands(c: Socket?, i: Option<nat>)
      reads this`made
    {
      if c == null then i.None? else i.Some? && i.value < |made| && made[i.value] == c
    }

    constructor (peer: AddrPort)
      requires !peer.addr.Zero?
      ensures Valid() && this.peer == peer && made == [] && state == CLOSED
    {
      this.peer := peer;
      conn, made, calls, received, state := null, [], [], [], CLOSED;
    }

    /** The receive function returned is the one that captured the new socket. */
    method OpenSocket(dialed: bool) returns (error: Option<Error>)
      requires Valid()
      modifies this`conn, this`made, this`state
      ensures Valid() && state == StepBind(peer, old(state), Open(dialed))
      ensures old(made) <= made && forall i | |old(made)| <= i < |made| :: fresh(made[i])
      ensures error == if old(conn) != null then Some(BindAlreadyOpen) else if !dialed then Some(Io) else None
      ensures error == None ==>
                && conn != null && conn.remote == peer && CanDial(conn.network, peer.addr)
                && made == old(made) + [conn]
    {
      StepKeepsBind(peer, state, Open(dialed));
      state := StepBind(peer, state, Open(dialed));
      if conn != null {
        return Some(BindAlreadyOpen);
      }
      if !dialed {
        return Some(Io);
      }
      var c := new Socket(|made|, Network(peer), peer);
      conn, made, error := c, made + [c], None;
      assert SocketOk(peer, state, c.id);
    }

    /** Writes the buffers in turn and stops at the first that fails, as all do on a closed socket. */
    method WriteAll(c: Socket?, bufs: seq<seq<Byte>>, accepted: nat) returns (error: Option<Error>)
      modifies c
      ensures c == null ==> error == Some(NetClosed)
      ensures c != null ==>
                && c.State() == Written(old(c.State()), bufs, accepted)
                && error == if bufs == [] || (c.open && |bufs| <= accepted) then None else Some(Io)
    {
      if c == null {
        return Some(NetClosed);
      }
      for i := 0 to |bufs|
        invariant i == 0 || (c.open && i <= accepted)
        invariant c.State() == old(c.State()).(sent := old(c.sent) + bufs[..i])
      {
        if !c.open || i == accepted {
          return Some(Io);
        }
        c.sent := c.sent + [bufs[i]];
      }
      assert bufs[..|bufs|] == bufs;
      error := None;
    }

    /** The part of Send under the lock. */
    method Begin()
      requires Valid()
      modifies this`calls, this`state
      ensures Valid() && calls == old(calls) + [conn] && state == StepBind(peer, old(state), BeginSend)
    {
      StepKeepsBind(peer, state, BeginSend);
      calls := calls + [conn];
      state := StepBind(peer, state, BeginSend);
    }

    /** The part of Send outside the lock, of the k-th Send begun. */
    method Finish(k: nat, bufs: seq<seq<Byte>>, accepted: nat) returns (error: Option<Error>)
      requires Valid() && k < |calls|
      modifies this`state, calls[k]
      ensures Valid() && state == StepBind(peer, old(state), FinishSend(k, bufs, accepted))
      ensures calls[k] == null ==> error == Some(NetClosed)
      ensures calls[k] != null ==>
                && calls[k].State() == Written(old(calls[k].State()), bufs, accepted)
                && error == if bufs == [] || (calls[k].open && |bufs| <= accepted) then None else Some(Io)
    {
      StepKeepsBind(peer, state, FinishSend(k, bufs, accepted));
      error := WriteAll(calls[k], bufs, accepted);
      state := StepBind(peer, state, FinishSend(k, bufs, accepted));
    }

    /** A Send that nothing comes between. */
    method SendAll(bufs: seq<seq<Byte>>, accepted: nat) returns (error: Option<Error>)
      requires Valid()
      modifies this`calls, this`state, conn
      ensures Valid()
      ensures conn == null ==> error == Some(NetClosed)
      ensures conn != null ==>
                && conn.sent == old(conn.sent) + bufs[..if accepted < |bufs| then accepted else |bufs|]
                && (error == None <==> |bufs| <= accepted)
    {
      if conn != null {
        assert SocketOk(peer, state, conn.id);
      }
      Begin();
      error := Finish(|calls| - 1, bufs, accepted);
    }

    /** Open or closed is told by conn alone, so a second Close is a no-op. */
    method CloseSocket()
      requires Valid()
      modifies this`conn, this`state, conn
      ensures Valid() && conn == null && state == StepBind(peer, old(state), Close)
    {
      StepKeepsBind(peer, state, Close);
      state := StepBind(peer, state, Close);
      if conn != null {
        conn.open := false;
        conn := null;
      }
    }

    /** One call of the receive function that the i-th Open returned. */
    method ReceiveFrom(i: nat) returns (result: Received)
      requires Valid() && i < |made|
      modifies this`received, this`state, made[i]
      ensures Valid() && state == StepBind(peer, old(state), Receive(i))
      ensures result.SocketClosed? <==> made[i] != conn
      ensures result.Blocked? <==> made[i] == conn && old(made[i].inbox) == []
      ensures result.Got? ==>
                && result.datagram.socket == i && old(made[i].inbox) == [result.datagram] + made[i].inbox
                && received == old(received) + [(i, result.datagram)]
    {
      StepKeepsBind(peer, state, Receive(i));
      assert SocketOk(peer, state, i);
      state := StepBind(peer, state, Receive(i));
      var c := made[i];
      if !c.open {
        return SocketClosed;
      }
      if c.inbox == [] {
        return Blocked;
      }
      result := Got(c.inbox[0]);
      assert result.datagram in c.inbox;
      received := received + [(i, c.inbox[0])];
      c.inbox := c.inbox[1..];
    }

    /** The network hands a datagram to a socket. */
    method Deliver(i: nat, data: seq<Byte>)
      requires Valid() && i < |made|
      modifies this`state, made[i]
      ensures Valid() && state == StepBind(peer, old(state), Arrive(i, data))
    {
      StepKeepsBind(peer, state, Arrive(i, data));
      state := StepBind(peer, state, Arrive(i, data));
      if made[i].open {
        made[i].inbox := made[i].inbox + [Datagram(i, data)];
      }
    }

    method Perform(op: Op)
      requires Valid()
      modifies this, made
      ensures Valid() && state == StepBind(peer, old(state), op)
      ensures old(made) <= made && forall i | |old(made)| <= i < |made| :: fresh(made[i])
    {
      match op
      case Open(dialed) =>
        var _ := OpenSocket(dialed);
      case BeginSend => Begin();
      case FinishSend(k, bufs, accepted) =>
        if k < |calls| {
          assert Stands(calls[k], state.calls[k]);
          var _ := Finish(k, bufs, accepted);
        }
      case Close => CloseSocket();
      case Arrive(i, data) =>
        if i < |made| { Deliver(i, data); }
      case Receive(i) =>
        if i < |made| {
          var _ := ReceiveFrom(i);
        }
    }

    /** Any interleaving of calls: exactly a run of the bind's state. */
    method Execute(ops: seq<Op>)
      requires Valid()
      modifies this, made
      ensures Valid() && state == RunBind(peer, old(state), ops) && old(made) <= made
    {
      for k := 0 to |ops|
        invariant Valid() && state == RunBind(peer, old(state), ops[..k])
        invariant old(made) <= made && forall i | |old(made)| <= i < |made| :: fresh(made[i])
      {
        assert ops[..k + 1][..k] == ops[..k];
        Perform(ops[k]);
      }
      assert ops[..|ops|] == ops;
    }
  }
}
