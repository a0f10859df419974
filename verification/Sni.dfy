/**
  Peeking at the ClientHello and replaying it (sni.go).  The client's connection, the TeeReader, the
  bytes.Buffer behind it and the MultiReader over both are objects with positions; how the stream
  falls into reads, what the handshake asks for and what the sockets accept is scripted by the world.
 */
module Sni {
  import opened Text
  import Routing

  /** How a read ends; data and an end may come together. */
  datatype End = More | Eof | Failed

  /** One read as the world answers it: at most `offer` bytes, or an error and none. */
  datatype Answer = Answer(offer: nat, fails: bool)

  function Min(a: nat, b: nat): nat {
    if a < b then a else b
  }

  /** How many bytes a socket read takes, and how it ends, with `left` bytes still to come. */
  function ReadSize(max: nat, a: Answer, left: nat): (n: nat)
    ensures n <= left && n <= max
  {
    if a.fails then 0 else Min(Min(a.offer, max), left)
  }

  function ReadEnd(a: Answer, left: nat): End {
    if a.fails then Failed else if left == 0 then Eof else More
  }

  /** The client's side: what it sends before closing, how far it has been read, what it was sent. */
  class ClientConn {
    const stream: seq<Byte>
    var pos: nat
    var written: seq<Byte>
    var open: bool

    ghost predicate Valid()
      reads this
    {
      pos <= |stream|
    }

    constructor (stream: seq<Byte>)
      ensures Valid() && this.stream == stream && pos == 0 && written == [] && open
    {
      this.stream, pos, written, open := stream, 0, [], true;
    }

    method Read(max: nat, a: Answer) returns (chunk: seq<Byte>, end: End)
      requires Valid()
      modifies this`pos
      ensures Valid() && pos == old(pos) + ReadSize(max, a, |stream| - old(pos)) && chunk == stream[old(pos)..pos]
      ensures end == ReadEnd(a, |stream| - old(pos))
    {
      if a.fails {
        return [], Failed;
      }
      var left := |stream| - pos;
      if left == 0 {
        return [], Eof;
      }
      var n := Min(Min(a.offer, max), left);
      chunk, end := stream[pos..pos + n], More;
      pos := pos + n;
    }
  }

  /** bytes.Buffer, as far as the tee and the multi-reader use it */
  class PeekBuffer {
    var data: seq<Byte>
    var off: nat

    ghost predicate Valid()
      reads this
    {
      off <= |data|
    }

    constructor ()
      ensures Valid() && data == [] && off == 0
    {
      data, off := [], 0;
    }

    method Write(chunk: seq<Byte>)
      requires Valid()
      modifies this
      ensures Valid() && data == old(data) + chunk && off == old(off)
    {
      data := data + chunk;
    }

    method Read(max: nat) returns (chunk: seq<Byte>, end: End)
      requires Valid()
      modifies this`off
      ensures Valid() && off == old(off) + Min(max, |data| - old(off)) && chunk == data[old(off)..off]
      ensures end == if max > 0 && old(off) == |data| then Eof else More
    {
      if off == |data| {
        return [], if max == 0 then More else Eof;
      }
      var n := Min(max, |data| - off);
      chunk, end := data[off..off + n], More;
      off := off + n;
    }
  }

  /** What the TLS handshake does to the read-only connection it was given. */
  datatype HandshakeStep =
    | WantRead(max: nat, answer: Answer)
    | WantWrite(data: seq<Byte>)
    | Hello(serverName: string)      // GetConfigForClient is called

  /** The wrapped connection: reads go through the multi-reader, writes and Close to the client. */
  class WrappedConn {
    const peeked: PeekBuffer
    const conn: ClientConn
    var first: bool      // the multi-reader has not seen the end of the buffer yet

    ghost predicate Valid()
      reads this, peeked, conn
    {
      peeked.Valid() && conn.Valid()
    }

    ghost function Buffered(): seq<Byte>
      requires Valid()
      reads this, peeked, conn
    {
      if first then peeked.data[peeked.off..] else []
    }

    /** What is still to be read. */
    ghost function Remaining(): seq<Byte>
      requires Valid()
      reads this, peeked, conn
    {
      Buffered() + conn.stream[conn.pos..]
    }

    constructor (peeked: PeekBuffer, conn: ClientConn)
      requires peeked.Valid() && conn.Valid()
      ensures Valid() && this.peeked == peeked && this.conn == conn && first
    {
      this.peeked, this.conn, first := peeked, conn, true;
    }

    /** io.MultiReader: first what is buffered, then the connection; the end of the buffer is not the end. */
    method Read(max: Size, a: Answer) returns (chunk: seq<Byte>, end: End)
      requires Valid()
      modifies this, peeked`off, conn`pos
      ensures Valid() && old(Remaining()) == chunk + Remaining()
      ensures |chunk| == MultiReadSize(max, a, |old(Buffered())|, |old(Remaining())|)
      ensures |Buffered()| == if old(Buffered()) == [] then 0 else |old(Buffered())| - |chunk|
      ensures end == if old(Buffered()) != [] then More else ReadEnd(a, |old(Remaining())|)
    {
      if first {
        chunk, end := peeked.Read(max);
        if end != Eof {
          assert peeked.data[old(peeked.off)..] == chunk + peeked.data[peeked.off..];
          Regroup(chunk, peeked.data[peeked.off..], conn.stream[conn.pos..]);
          return;
        }
        first := false;
      }
      assert old(Buffered()) == [] && old(Remaining()) == conn.stream[conn.pos..];
      chunk, end := conn.Read(max, a);
      assert conn.stream[old(conn.pos)..] == chunk + conn.stream[conn.pos..];
      assert Remaining() == conn.stream[conn.pos..];
    }
  }

  /** A read buffer is never empty. */
  type Size = n: nat | n > 0 witness 1

  function MultiReadSize(max: Size, a: Answer, buffered: nat, left: nat): (n: nat)
    requires buffered <= left
    ensures n <= left
  {
    if buffered > 0 then Min(max, buffered) else ReadSize(max, a, left)
  }

  /** The name the handshake's callback saw, if it was called. */
  function NameSeen(script: seq<HandshakeStep>): Option<string> {
    if script == [] then None
    else if script[|script| - 1].Hello? then Some(script[|script| - 1].serverName)
    else NameSeen(script[..|script| - 1])
  }

  /** How many bytes the handshake reads, with `left` to come: what fell to each of its reads, failures being none. */
  function Peeked(script: seq<HandshakeStep>, left: nat): (n: nat)
    ensures n <= left
  {
    if script == [] then 0
    else
      var before, step := Peeked(script[..|script| - 1], left), script[|script| - 1];
      before + if step.WantRead? then ReadSize(step.max, step.answer, left - before) else 0
  }

  /**
    Runs the handshake over a tee of the client's bytes.  Whatever it consumes, the connection
    returned reads the client's stream from the first byte; nothing is written to the client.  What
    the handshake itself has seen is the client's bytes, in order.  Its own error matters only if no
    ClientHello was seen.
   */
  method PeekClientHello(conn: ClientConn, script: seq<HandshakeStep>)
    returns (serverName: string, wrapped: WrappedConn, error: bool, ghost seen: seq<Byte>)
    requires conn.Valid()
    modifies conn`pos
    ensures fresh(wrapped) && fresh(wrapped.peeked) && wrapped.conn == conn && wrapped.Valid()
    ensures wrapped.Remaining() == conn.stream[old(conn.pos)..]
    ensures seen == wrapped.Buffered() && |seen| == Peeked(script, |conn.stream| - old(conn.pos))
    ensures conn.written == old(conn.written) && conn.open == old(conn.open)
    ensures error <==> NameSeen(script).None?
    ensures serverName == if NameSeen(script).Some? then NameSeen(script).value else ""
  {
    var peeked := new PeekBuffer();
    var hello: Option<string> := None;
    seen := [];
    for k := 0 to |script|
      invariant conn.Valid() && peeked.Valid() && peeked.off == 0 && fresh(peeked)
      invariant conn.pos == old(conn.pos) + Peeked(script[..k], |conn.stream| - old(conn.pos))
      invariant seen == peeked.data == conn.stream[old(conn.pos)..conn.pos]
      invariant hello == NameSeen(script[..k])
    {
      match script[k] {
        case WantRead(max, answer) =>
          var chunk, end := conn.Read(max, answer);
          peeked.Write(chunk);
          seen := seen + chunk;
        case WantWrite(data) =>      // io.ErrClosedPipe
        case Hello(name) => hello := Some(name);
      }
      assert script[..k + 1][..k] == script[..k];
    }
    assert script[..|script|] == script;
    wrapped := new WrappedConn(peeked, conn);
    assert conn.stream[old(conn.pos)..] == conn.stream[old(conn.pos)..conn.pos] + conn.stream[conn.pos..];
    error := hello.None?;
    serverName := if hello.Some? then hello.value else "";
  }

  class Backend {
    var received: seq<Byte>
    var open: bool

    constructor ()
      ensures received == [] && open
    {
      received, open := [], true;
    }
  }

  /** One turn of io.Copy: the buffer size, what the read yields and how much the write takes. */
  datatype CopyTurn = CopyTurn(max: Size, answer: Answer, accepted: nat)

  datatype Copied = Running | Finished | Broken

  /** How a copy stands: its status, what has been delivered, and what is left to be read. */
  datatype Flow = Flow(status: Copied, delivered: seq<Byte>, buffered: nat, left: seq<Byte>)

  /** A turn that fails to read ends the copy, and so do a short write and the end of file. */
  function CopyOne(buffered: nat, left: seq<Byte>, t: CopyTurn): Flow
    requires buffered <= |left|
  {
    var n := MultiReadSize(t.max, t.answer, buffered, |left|);
    var w := Min(t.accepted, n);
    var status :=
      if w < n || (buffered == 0 && t.answer.fails) then Broken
      else if left == [] then Finished
      else Running;
    Flow(status, left[..w], if buffered == 0 then 0 else buffered - n, left[n..])
  }

  function CopyAll(buffered: nat, left: seq<Byte>, turns: seq<CopyTurn>): (f: Flow)
    requires buffered <= |left|
    ensures f.buffered <= |f.left|
    decreases |turns|
  {
    if turns == [] then Flow(Running, [], buffered, left)
    else
      var one := CopyOne(buffered, left, turns[0]);
      if !one.status.Running? then one
      else Delivered(one.delivered, CopyAll(one.buffered, one.left, turns[1..]))
  }

  /** What a copy comes to that has delivered some bytes already. */
  function Delivered(before: seq<Byte>, rest: Flow): Flow {
    rest.(delivered := before + rest.delivered)
  }

  lemma DeliveredTwice(a: seq<Byte>, b: seq<Byte>, rest: Flow)
    ensures Delivered(a, Delivered(b, rest)) == Delivered(a + b, rest)
    ensures Delivered([], rest) == rest
  {
    assert a + (b + rest.delivered) == a + b + rest.delivered;
    assert [] + rest.delivered == rest.delivered;
  }

  /** The read brings something if there is anything, and all of it is written. */
  predicate Good(t: CopyTurn) {
    !t.answer.fails && t.answer.offer > 0 && t.accepted >= t.max
  }

  predicate AllGood(turns: seq<CopyTurn>) {
    forall t <- turns :: Good(t)
  }

  lemma OneDeliversPrefix(buffered: nat, left: seq<Byte>, t: CopyTurn)
    requires buffered <= |left|
    ensures var f := CopyOne(buffered, left, t);
            && f.delivered <= left
            && (f.status.Finished? ==> f.delivered == left)
            && (f.status.Running? ==> left == f.delivered + f.left)
  {
  }

  lemma PrefixAfter(first: seq<Byte>, left: seq<Byte>, rest: Flow)
    ensures rest.delivered <= left ==> first + rest.delivered <= first + left
    ensures left == rest.delivered + rest.left ==> first + left == first + rest.delivered + rest.left
  {
  }

  /** What is delivered is a prefix, all of it at end of file; while the copy runs nothing is lost. */
  lemma {:induction false} DeliversPrefix(buffered: nat, left: seq<Byte>, turns: seq<CopyTurn>)
    requires buffered <= |left|
    ensures var f := CopyAll(buffered, left, turns);
            && f.delivered <= left
            && (f.status.Finished? ==> f.delivered == left)
            && (f.status.Running? ==> left == f.delivered + f.left)
    decreases |turns|
  {
    if turns != [] {
      var one := CopyOne(buffered, left, turns[0]);
      OneDeliversPrefix(buffered, left, turns[0]);
      if one.status.Running? {
        DeliversPrefix(one.buffered, one.left, turns[1..]);
        PrefixAfter(one.delivered, one.left, CopyAll(one.buffered, one.left, turns[1..]));
      }
    }
  }

  /** As long as reads and writes go well a byte is delivered each turn, and then the copy finishes. */
  lemma {:induction false} GoodTurnsDeliver(buffered: nat, left: seq<Byte>, turns: seq<CopyTurn>)
    requires buffered <= |left| && AllGood(turns)
    ensures var f := CopyAll(buffered, left, turns);
            && !f.status.Broken? && |f.delivered| >= Min(|turns|, |left|)
            && (|turns| > |left| ==> f.status.Finished? && f.delivered == left)
    decreases |turns|
  {
    if turns != [] {
      var one := CopyOne(buffered, left, turns[0]);
      assert Good(turns[0]);
      if one.status.Running? {
        GoodTurnsDeliver(one.buffered, one.left, turns[1..]);
        assert |one.delivered| >= 1 && |one.left| == |left| - |one.delivered|;
        DeliversPrefix(buffered, left, turns);
      }
    }
  }

  /** A copy that runs on reaches the next turn with what it has left. */
  lemma {:induction false} CopyGoesOn(buffered: nat, left: seq<Byte>, turns: seq<CopyTurn>, more: seq<CopyTurn>)
    requires buffered <= |left| && CopyAll(buffered, left, turns).status.Running?
    ensures var f := CopyAll(buffered, left, turns);
            CopyAll(buffered, left, turns + more) == Delivered(f.delivered, CopyAll(f.buffered, f.left, more))
    decreases |turns|
  {
    if turns == [] {
      assert turns + more == more;
      DeliveredTwice([], [], CopyAll(buffered, left, more));
    } else {
      var one := CopyOne(buffered, left, turns[0]);
      CopyGoesOn(one.buffered, one.left, turns[1..], more);
      assert (turns + more)[0] == turns[0] && (turns + more)[1..] == turns[1..] + more;
      var f := CopyAll(one.buffered, one.left, turns[1..]);
      DeliveredTwice(one.delivered, f.delivered, CopyAll(f.buffered, f.left, more));
    }
  }

  /**
    A turn that is reached breaks the copy exactly when its read fails, the peeked bytes being used
    up, or its write takes less than was read; what it did take is delivered.
   */
  lemma BadTurnBreaks(buffered: nat, left: seq<Byte>, turns: seq<CopyTurn>, t: CopyTurn, more: seq<CopyTurn>)
    requires buffered <= |left| && CopyAll(buffered, left, turns).status.Running?
    ensures var f, g := CopyAll(buffered, left, turns), CopyAll(buffered, left, turns + ([t] + more));
            var size := if f.buffered > 0 then Min(t.max, f.buffered)
                        else if t.answer.fails then 0 else Min(Min(t.answer.offer, t.max), |f.left|);
            && ((f.buffered == 0 && t.answer.fails) || t.accepted < size ==>
                  g.status.Broken? && g.delivered == f.delivered + f.left[..Min(t.accepted, size)])
            && (more == [] && g.status.Broken? ==> (f.buffered == 0 && t.answer.fails) || t.accepted < size)
  {
    var f := CopyAll(buffered, left, turns);
    CopyGoesOn(buffered, left, turns, [t] + more);
    assert ([t] + more)[0] == t && ([t] + more)[1..] == more;
  }

  /** One turn of the copy loop. */
  method Pump(from: WrappedConn, to: Backend, t: CopyTurn) returns (status: Copied)
    requires from.Valid()
    modifies from, from.peeked`off, from.conn`pos, to`received
    ensures from.Valid()
    ensures var f := CopyOne(|old(from.Buffered())|, old(from.Remaining()), t);
            && status == f.status && to.received == old(to.received) + f.delivered
            && |from.Buffered()| == f.buffered && from.Remaining() == f.left
  {
    var chunk, end := from.Read(t.max, t.answer);
    var n := Min(t.accepted, |chunk|);
    assert chunk[..n] == (chunk + from.Remaining())[..n];
    to.received := to.received + chunk[..n];
    status := if n < |chunk| || end.Failed? then Broken else if end.Eof? then Finished else Running;
  }

  /**
    What a copy promises about a stream: the backend gets a prefix of it; one byte a turn while all
    goes well; and all of it if the copy finishes, as it does when it has turns enough and all goes well.
   */
  ghost predicate Transparent(status: Copied, delivered: seq<Byte>, stream: seq<Byte>, turns: seq<CopyTurn>) {
    && delivered <= stream
    && (status.Finished? ==> delivered == stream)
    && (AllGood(turns) ==> !status.Broken? && |delivered| >= Min(|turns|, |stream|))
    && (AllGood(turns) && |turns| > |stream| ==> status.Finished?)
  }

  lemma CopiesAreTransparent(buffered: nat, left: seq<Byte>, turns: seq<CopyTurn>)
    requires buffered <= |left|
    ensures var f := CopyAll(buffered, left, turns); Transparent(f.status, f.delivered, left, turns)
  {
    DeliversPrefix(buffered, left, turns);
    if AllGood(turns) {
      GoodTurnsDeliver(buffered, left, turns);
    }
  }

  /** From turn k on, `done` having been delivered, the copy still comes to f. */
  ghost predicate OnCourse(buffered: nat, left: seq<Byte>, turns: seq<CopyTurn>, k: nat, done: seq<Byte>, f: Flow)
    requires buffered <= |left| && k <= |turns|
  {
    Delivered(done, CopyAll(buffered, left, turns[k..])) == f
  }

  lemma StaysOnCourse(buffered: nat, left: seq<Byte>, turns: seq<CopyTurn>, k: nat, done: seq<Byte>, f: Flow)
    requires buffered <= |left| && k < |turns| && OnCourse(buffered, left, turns, k, done, f)
    ensures var one := CopyOne(buffered, left, turns[k]);
            if one.status.Running? then OnCourse(one.buffered, one.left, turns, k + 1, done + one.delivered, f)
            else f == Delivered(done, one)
  {
    var one := CopyOne(buffered, left, turns[k]);
    assert turns[k..][0] == turns[k] && turns[k..][1..] == turns[k + 1..];
    if one.status.Running? {
      DeliveredTwice(done, one.delivered, CopyAll(one.buffered, one.left, turns[k + 1..]));
    }
  }

  lemma StartsOnCourse(buffered: nat, left: seq<Byte>, turns: seq<CopyTurn>)
    requires buffered <= |left|
    ensures OnCourse(buffered, left, turns, 0, [], CopyAll(buffered, left, turns))
  {
    assert turns[0..] == turns;
    DeliveredTwice([], [], CopyAll(buffered, left, turns));
  }

  lemma EndsOnCourse(buffered: nat, left: seq<Byte>, turns: seq<CopyTurn>, done: seq<Byte>, f: Flow)
    requires buffered <= |left| && OnCourse(buffered, left, turns, |turns|, done, f)
    ensures f == Flow(Running, done, buffered, left)
  {
    assert done + [] == done;
  }

  /** io.Copy from the wrapped client to the backend: turn after turn, up to the first that ends it. */
  method Copy(from: WrappedConn, to: Backend, turns: seq<CopyTurn>) returns (result: Copied, ghost delivered: seq<Byte>)
    requires from.Valid()
    modifies from, from.peeked`off, from.conn`pos, to`received
    ensures from.Valid() && to.received == old(to.received) + delivered
    ensures CopyAll(|old(from.Buffered())|, old(from.Remaining()), turns) ==
            Flow(result, delivered, |from.Buffered()|, from.Remaining())
    ensures Transparent(result, delivered, old(from.Remaining()), turns)
  {
    ghost var f := CopyAll(|from.Buffered()|, from.Remaining(), turns);
    CopiesAreTransparent(|from.Buffered()|, from.Remaining(), turns);
    StartsOnCourse(|from.Buffered()|, from.Remaining(), turns);
    result, delivered := Running, [];
    for k := 0 to |turns|
      invariant from.Valid() && to.received == old(to.received) + delivered
      invariant OnCourse(|from.Buffered()|, from.Remaining(), turns, k, delivered, f)
    {
      ghost var one := CopyOne(|from.Buffered()|, from.Remaining(), turns[k]);
      StaysOnCourse(|from.Buffered()|, from.Remaining(), turns, k, delivered, f);
      result := Pump(from, to, turns[k]);
      Regroup(old(to.received), delivered, one.delivered);
      delivered := delivered + one.delivered;
      if !result.Running? {
        return;
      }
    }
    EndsOnCourse(|from.Buffered()|, from.Remaining(), turns, delivered, f);
    result := Running;
  }

  /**
    connForward: a copy, and the two deferred closes once it has ended, however it ended.  A copy
    that is still running has closed neither end.
   */
  method ConnForward(from: WrappedConn, to: Backend, turns: seq<CopyTurn>)
    returns (result: Copied, ghost delivered: seq<Byte>)
    requires from.Valid()
    modifies from, from.peeked`off, from.conn`pos, from.conn`open, to
    ensures from.Valid() && to.received == old(to.received) + delivered
    ensures var f := CopyAll(|old(from.Buffered())|, old(from.Remaining()), turns);
            f.status == result && f.delivered == delivered
    ensures Transparent(result, delivered, old(from.Remaining()), turns)
    ensures from.conn.open == (result.Running? && old(from.conn.open))
    ensures to.open == (result.Running? && old(to.open))
  {
    result, delivered := Copy(from, to, turns);
    if !result.Running? {
      to.open := false;
      from.conn.open := false;
    }
  }

  datatype Forwarded =
    | NoDeadline | NoHello | DeadlineStuck | NoName | NotDialed
    | Forwarding(target: string, copied: Copied)

  /** What the world answers: whether setting and clearing the read deadline and the dial succeed. */
  datatype World = World(deadlineSet: bool, deadlineCleared: bool, dialed: bool)

  /** The copy that follows a peek at the whole stream. */
  ghost function ForwardOf(stream: seq<Byte>, script: seq<HandshakeStep>, turns: seq<CopyTurn>): Flow {
    CopyAll(Peeked(script, |stream|), stream, turns)
  }

  /**
    sniProxyForward from the client's side, from a fresh connection: the backend is the one named in
    the ClientHello on port 443, and it gets the client's own bytes from the very first.
   */
  method SniProxyForward(conn: ClientConn, script: seq<HandshakeStep>, w: World, backend: Backend, turns: seq<CopyTurn>)
    returns (result: Forwarded)
    requires conn.Valid() && conn.pos == 0 && conn.open && backend.received == [] && backend.open
    modifies conn`pos, conn`open, backend
    ensures backend.received <= conn.stream
    ensures if result.Forwarding? then conn.open == backend.open == result.copied.Running?
            else backend.received == [] && conn.open && backend.open
    ensures result.Forwarding? <==>
              w == World(true, true, true) && NameSeen(script).Some? && NameSeen(script).value != ""
    ensures result.Forwarding? ==>
              var f := ForwardOf(conn.stream, script, turns);
              && result.copied == f.status && backend.received == f.delivered
              && Transparent(result.copied, backend.received, conn.stream, turns)
    ensures result.Forwarding? ==>
              var name := NameSeen(script).value;
              result.target == if ':' in name then "[" + name + "]:443" else name + ":443"
    ensures result.NoDeadline? <==> !w.deadlineSet
    ensures result.NoHello? <==> w.deadlineSet && NameSeen(script).None?
    ensures result.DeadlineStuck? <==> w.deadlineSet && NameSeen(script).Some? && !w.deadlineCleared
    ensures result.NoName? <==> w.deadlineSet && NameSeen(script) == Some("") && w.deadlineCleared
  {
    if !w.deadlineSet {
      return NoDeadline;
    }
    var hostname, clientConn, error, seen := PeekClientHello(conn, script);
    if error {
      return NoHello;
    }
    if !w.deadlineCleared {
      return DeadlineStuck;
    }
    if hostname == "" {
      return NoName;
    }
    var target := Routing.JoinHostPort(hostname, "443");
    if !w.dialed {
      return NotDialed;
    }
    assert conn.stream[0..] == conn.stream;
    var copied, delivered := ConnForward(clientConn, backend, turns);
    result := Forwarding(target, copied);
  }

  /** sniServe: afterwards the client is open exactly while its bytes are being forwarded to an open backend. */
  method SniServe(conn: ClientConn, script: seq<HandshakeStep>, w: World, backend: Backend, turns: seq<CopyTurn>)
    returns (result: Forwarded)
    requires conn.Valid() && conn.pos == 0 && conn.open && backend.received == [] && backend.open
    modifies conn`pos, conn`open, backend
    ensures conn.open <==> result.Forwarding? && result.copied.Running?
    ensures result.Forwarding? <==>
              w == World(true, true, true) && NameSeen(script).Some? && NameSeen(script).value != ""
    ensures result.Forwarding? ==>
              var f := ForwardOf(conn.stream, script, turns);
              && result.copied == f.status && backend.received == f.delivered && backend.open == conn.open
              && Transparent(result.copied, backend.received, conn.stream, turns)
    ensures backend.received <= conn.stream && (!result.Forwarding? ==> backend.received == [])
    ensures conn.written == old(conn.written)
  {
    result := SniProxyForward(conn, script, w, backend, turns);
    if !result.Forwarding? {
      conn.open := false;
    }
  }
}
