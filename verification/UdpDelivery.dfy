/**
  What the safety results leave open: left alone, the reader does forward a datagram, exactly when
  there is an open connection for its source and the write is taken; and a handler answers what it reads.
 */
module UdpDelivery {
  import opened UdpModel
  import opened UdpSafety
  import opened UdpTheorems
  import opened UdpForwarding
  import opened UdpProgress

  lemma {:induction false} StepThenRun(kind: Kind, s: State, a: Action, rest: seq<Action>)
    requires Bounded(s)
    ensures Run(kind, s, [a] + rest) == Run(kind, Step(kind, s, a), rest)
  {
    RunOne(kind, s, a);
    RunAppend(kind, s, [a], rest);
  }

  /** One turn of the read loop; a step that does not apply where the loop stands is passed over. */
  function ReaderTurn(kind: Kind, src: string, d: Datagram, dialed: bool, ok: bool): seq<Action> {
    [Receive(src, d)] + Find(kind, dialed) + [Send(ok)]
  }

  function Find(kind: Kind, dialed: bool): seq<Action> {
    if kind.Proxy? then [FindOrCreate(dialed), Refresh] else [Lookup, Build(dialed), Insert]
  }

  /** The session that serves a source: the one listed, or else the next one made. */
  function Serving(s: State, src: string): nat {
    if src in s.table then s.table[src] else |s.sessions|
  }

  /** The reader has come from Received to Sending, on the session that serves its source, or given up. */
  ghost predicate Found(s: State, r: State, dialed: bool)
    requires Bounded(s) && s.reader.Received?
  {
    var src := s.reader.src;
    var i := Serving(s, src);
    && r.forwarded == s.forwarded && r.received == s.received && r.buf == s.buf
    && if src in s.table || dialed then
         && r.reader == Sending(i, s.reader.n) && src in r.table && r.table[src] == i
         && i < |r.sessions| && r.sessions[i].key == src && r.sessions[i].lastActive == s.now
         && r.sessions[i].connOpen == (src in s.table ==> s.sessions[i].connOpen)
         && r.sessions[i].pc == (if src in s.table then s.sessions[i].pc else Checking)
       else r.reader.Waiting? && r.table == s.table && r.sessions == s.sessions
  }

  lemma ProxyFinds(s: State, dialed: bool)
    requires Inv(Proxy, s) && s.reader.Received?
    ensures Found(s, Step(Proxy, Step(Proxy, s, FindOrCreate(dialed)), Refresh), dialed)
  {
  }

  lemma TunnelFinds(s: State, dialed: bool)
    requires Inv(Tunnel, s) && s.reader.Received?
    ensures Found(s, Step(Tunnel, Step(Tunnel, Step(Tunnel, s, Lookup), Build(dialed)), Insert), dialed)
  {
    var s1 := Step(Tunnel, s, Lookup);
    if s.reader.src in s.table {
      assert Step(Tunnel, Step(Tunnel, s1, Build(dialed)), Insert) == s1;
    } else {
      assert s1 == s.(reader := Missed(s.reader.src, s.reader.n));
    }
  }

  lemma FindServes(kind: Kind, s: State, dialed: bool)
    requires Inv(kind, s) && s.reader.Received?
    ensures Found(s, Run(kind, s, Find(kind, dialed)), dialed)
  {
    if kind.Proxy? {
      ProxyFinds(s, dialed);
      RunOne(kind, Step(kind, s, FindOrCreate(dialed)), Refresh);
      StepThenRun(kind, s, FindOrCreate(dialed), [Refresh]);
    } else {
      TunnelFinds(s, dialed);
      var s1 := Step(kind, s, Lookup);
      RunOne(kind, Step(kind, s1, Build(dialed)), Insert);
      StepThenRun(kind, s1, Build(dialed), [Insert]);
      StepThenRun(kind, s, Lookup, [Build(dialed), Insert]);
      assert [Lookup] + [Build(dialed), Insert] == Find(kind, dialed);
    }
  }

  lemma OneMoreReceived(log: seq<Packet>, p: Packet)
    ensures ReceivedFrom(log + [p], p.src) == ReceivedFrom(log, p.src) + [p.data]
  {
    assert (log + [p])[..|log|] == log;
  }

  lemma OneMoreForwarded(log: seq<Forward>, f: Forward)
    ensures WrittenFor(log + [f], f.dest) == WrittenFor(log, f.dest) + [f.data]
  {
    assert (log + [f])[..|log|] == log;
  }

  lemma TurnRuns(kind: Kind, s: State, src: string, d: Datagram, dialed: bool, ok: bool)
    requires Bounded(s)
    ensures Run(kind, s, ReaderTurn(kind, src, d, dialed, ok)) ==
            Step(kind, Run(kind, Step(kind, s, Receive(src, d)), Find(kind, dialed)), Send(ok))
  {
    var receive, send := [Receive(src, d)], [Send(ok)];
    RunOne(kind, s, receive[0]);
    RunAppend(kind, s, receive, Find(kind, dialed));
    RunOne(kind, Run(kind, s, receive + Find(kind, dialed)), send[0]);
    RunAppend(kind, s, receive + Find(kind, dialed), send);
  }

  /**
    The datagram is forwarded, whole and by its source's session, exactly when the write is taken on
    an open connection: the one listed for the source, or the one just dialled.
   */
  lemma ADatagramLeftAloneIsForwarded(kind: Kind, s: State, src: string, d: Datagram, dialed: bool, ok: bool)
    requires Inv(kind, s) && s.reader.Waiting?
    ensures var r := Run(kind, s, ReaderTurn(kind, src, d, dialed, ok));
            var sent := ok && if src in s.table then s.sessions[s.table[src]].connOpen else dialed;
            && r.reader.Waiting? && r.received == s.received + [Packet(src, d)]
            && r.forwarded == (if sent then s.forwarded + [Forward(Serving(s, src), src, |s.received|, d)]
                               else s.forwarded)
            && (src in s.table || dialed ==>
                  var i := Serving(s, src);
                  && i < |r.sessions| && r.sessions[i].key == src && Listed(r, i) && r.sessions[i].lastActive == s.now
                  && r.sessions[i].pc == if src in s.table then s.sessions[i].pc else Checking)
    ensures kind.Proxy? && src in s.table ==> s.sessions[s.table[src]].connOpen
  {
    var s1 := Step(kind, s, Receive(src, d));
    StepKeepsInv(kind, s, Receive(src, d));
    FindServes(kind, s1, dialed);
    assert s1.buf[..|d|] == d;
    TurnRuns(kind, s, src, d, dialed, ok);
  }

  /** The same in the source's own terms: one more datagram received, and one more written. */
  lemma ADatagramLeftAloneIsWritten(kind: Kind, s: State, src: string, d: Datagram, dialed: bool, ok: bool)
    requires Inv(kind, s) && s.reader.Waiting?
    ensures var r := Run(kind, s, ReaderTurn(kind, src, d, dialed, ok));
            var sent := ok && if src in s.table then s.sessions[s.table[src]].connOpen else dialed;
            && ReceivedFrom(r.received, src) == ReceivedFrom(s.received, src) + [d]
            && WrittenFor(r.forwarded, src) == if sent then WrittenFor(s.forwarded, src) + [d]
                                               else WrittenFor(s.forwarded, src)
  {
    ADatagramLeftAloneIsForwarded(kind, s, src, d, dialed, ok);
    OneMoreReceived(s.received, Packet(src, d));
    OneMoreForwarded(s.forwarded, Forward(Serving(s, src), src, |s.received|, d));
  }

  /** Steps of session i's handler with the given outcomes. */
  function Handles(i: nat, os: seq<Outcome>): seq<Action> {
    if os == [] then [] else [Handle(i, os[0])] + Handles(i, os[1..])
  }

  function ProceedAll(kind: Kind, x: Session, os: seq<Outcome>, now: int, timeout: int): Session
    decreases |os|
  {
    if os == [] || Deferred(x.pc) then x
    else ProceedAll(kind, Proceed(kind, x, os[0], now, timeout), os[1..], now, timeout)
  }

  lemma {:induction false} HandlesProceed(kind: Kind, s: State, i: nat, os: seq<Outcome>)
    requires Bounded(s) && i < |s.sessions|
    requires !Deferred(ProceedAll(kind, s.sessions[i], os, s.now, s.timeout).pc)
    ensures Run(kind, s, Handles(i, os)) ==
            s.(sessions := s.sessions[i := ProceedAll(kind, s.sessions[i], os, s.now, s.timeout)])
    decreases |os|
  {
    if os == [] {
      assert s.sessions[i := s.sessions[i]] == s.sessions;
    } else {
      StepThenRun(kind, s, Handle(i, os[0]), Handles(i, os[1..]));
      HandlesProceed(kind, Step(kind, s, Handle(i, os[0])), i, os[1..]);
    }
  }

  /** One turn of the reply loop that reads d and meets no error. */
  function HandlerTurn(kind: Kind, d: Datagram): seq<Outcome> {
    [Ok, Ok, Data(d), Ok] + if kind.Proxy? then [Ok, Ok] else [Ok]
  }

  lemma ReplyEndsTurn(kind: Kind, x: Session, now: int, timeout: int)
    requires x.pc.Replying? && x.chanOpen
    ensures ProceedAll(kind, x, [Ok], now, timeout) ==
            x.(pc := Checking, replies := x.replies + [Reply(x.key, x.pc.data)])
  {
    assert [Ok][1..] == [];
  }

  lemma TurnAnswers(kind: Kind, x: Session, d: Datagram, now: int, timeout: int)
    requires x.pc.Checking? && x.chanOpen
    ensures ProceedAll(kind, x, HandlerTurn(kind, d), now, timeout) ==
            x.(lastActive := now, deadline := if kind.Proxy? || timeout > 0 then now + READ_DEADLINE else x.deadline,
               heard := x.heard + [d], replies := x.replies + [Reply(x.key, d)])
  {
    var os := HandlerTurn(kind, d);
    assert os[1..][1..] == os[2..] && os[2..][1..] == os[3..] && os[3..][1..] == os[4..] && os[4..][1..] == os[5..];
    var x2 := x.(pc := Reading, deadline := if kind.Proxy? || timeout > 0 then now + READ_DEADLINE else x.deadline);
    assert ProceedAll(kind, x, os, now, timeout) == ProceedAll(kind, x2, os[2..], now, timeout);
    var x4 := x2.(heard := x.heard + [d], lastActive := now, pc := if kind.Proxy? then Resolving(d) else Replying(d));
    assert ProceedAll(kind, x2, os[2..], now, timeout) == ProceedAll(kind, x4, os[4..], now, timeout);
    ReplyEndsTurn(kind, x4.(pc := Replying(d)), now, timeout);
    if kind.Proxy? {
      assert os[4..] == [Ok, Ok] && os[4..][1..] == [Ok];
      assert ProceedAll(kind, x4, os[4..], now, timeout) ==
             ProceedAll(kind, x4.(pc := Replying(d)), [Ok], now, timeout);
    } else {
      assert os[4..] == [Ok];
    }
  }

  /** A handler that is not told to stop answers its own source with what it reads, and changes nothing else. */
  lemma AReplyLeftAloneIsSent(kind: Kind, s: State, i: nat, d: Datagram)
    requires Inv(kind, s) && i < |s.sessions| && s.sessions[i].pc.Checking? && s.sessions[i].chanOpen
    ensures var x, r := s.sessions[i], Run(kind, s, Handles(i, HandlerTurn(kind, d)));
            && i < |r.sessions| && r == s.(sessions := s.sessions[i := r.sessions[i]])
            && r.sessions[i].replies == x.replies + [Reply(x.key, d)] && r.sessions[i].heard == x.heard + [d]
            && r.sessions[i].lastActive == s.now && r.sessions[i].pc.Checking? && r.sessions[i].chanOpen
            && r.sessions[i].deadline == if kind.Tunnel? && s.timeout <= 0 then x.deadline
                                         else s.now + 5 * 1_000_000_000
  {
    TurnAnswers(kind, s.sessions[i], d, s.now, s.timeout);
    HandlesProceed(kind, s, i, HandlerTurn(kind, d));
  }

  lemma OneMoreHandle(kind: Kind, s: State, i: nat, o: Outcome, os: seq<Outcome>)
    requires Bounded(s)
    ensures Run(kind, s, Handles(i, [o] + os)) == Run(kind, Step(kind, s, Handle(i, o)), Handles(i, os))
  {
    assert ([o] + os)[1..] == os;
    StepThenRun(kind, s, Handle(i, o), Handles(i, os));
  }

  /** Only sessions have changed, and session i is still listed under its source. */
  ghost predicate StillListed(kind: Kind, s: State, r: State, i: nat) {
    && Inv(kind, r) && r == s.(sessions := r.sessions) && |r.sessions| == |s.sessions|
    && i < |s.sessions| && r.sessions[i].key == s.sessions[i].key && Listed(r, i)
  }

  /** One step of a listed session's reply loop, on the way to a Read that fails. */
  lemma StepTowardsFailure(kind: Kind, s: State, m: State, i: nat, o: Outcome, os: seq<Outcome>) returns (r: State)
    requires StillListed(kind, s, m, i) && !Deferred(m.sessions[i].pc)
    ensures StillListed(kind, s, r, i)
    ensures Run(kind, m, Handles(i, [o] + os)) == Run(kind, r, Handles(i, os))
    ensures m.sessions[i].pc.Checking? ==> r.sessions[i].pc.Arming?
    ensures m.sessions[i].pc.Arming? ==> r.sessions[i].pc.Reading?
    ensures (m.sessions[i].pc.Reading? || m.sessions[i].pc.Resolving? || m.sessions[i].pc.Replying?) && o.Fail? ==>
              r.sessions[i].pc.Leaving? && r.sessions[i].replies == m.sessions[i].replies
  {
    r := Step(kind, m, Handle(i, o));
    StepKeepsInv(kind, m, Handle(i, o));
    ProceedKeepsSession(kind, m.sessions[i], o, m.now, m.timeout);
    OneMoreHandle(kind, m, i, o, os);
  }

  /** The loop body of a handler whose Read fails, up to its first deferred call. */
  lemma AFailedReadLeaves(kind: Kind, s: State, i: nat, os: seq<Outcome>) returns (r: State)
    requires Inv(kind, s) && i < |s.sessions| && Listed(s, i) && s.sessions[i].pc.Checking?
    ensures StillListed(kind, s, r, i) && r.sessions[i].pc.Leaving?
    ensures Run(kind, s, Handles(i, [Ok] + ([Ok] + ([Fail] + os)))) == Run(kind, r, Handles(i, os))
  {
    r := StepTowardsFailure(kind, s, s, i, Ok, [Ok] + ([Fail] + os));
    r := StepTowardsFailure(kind, s, r, i, Ok, [Fail] + os);
    r := StepTowardsFailure(kind, s, r, i, Fail, os);
  }

  /** Both deferred calls of a listed session's handler, in the order of either file. */
  lemma DeferredCalls(kind: Kind, s: State, i: nat)
    requires Inv(kind, s) && i < |s.sessions| && Listed(s, i) && s.sessions[i].pc.Leaving?
    ensures var r := Step(kind, s, Handle(i, Ok));
            && r.sessions[i].pc.LeavingLate? && |r.sessions| == |s.sessions|
            && Listed(r, i) == r.sessions[i].chanOpen == kind.Tunnel? && r.sessions[i].connOpen == kind.Proxy?
    ensures var q := Step(kind, Step(kind, s, Handle(i, Ok)), Handle(i, Ok));
            && |q.sessions| == |s.sessions| && q.sessions[i].pc.Finished?
            && q.table == s.table - {s.sessions[i].key} && !q.sessions[i].chanOpen && !q.sessions[i].connOpen
            && q.sessions[i].replies == s.sessions[i].replies
  {
    TeardownOrders(s, i, Ok);
  }

  lemma DeferredCallsRun(kind: Kind, s: State, i: nat)
    requires Bounded(s)
    ensures Run(kind, s, Handles(i, [Ok])) == Step(kind, s, Handle(i, Ok))
    ensures Run(kind, s, Handles(i, [Ok, Ok])) == Step(kind, Step(kind, s, Handle(i, Ok)), Handle(i, Ok))
  {
    var m := Step(kind, s, Handle(i, Ok));
    assert [Ok] + [] == [Ok] && [Ok] + [Ok] == [Ok, Ok];
    OneMoreHandle(kind, s, i, Ok, []);
    OneMoreHandle(kind, s, i, Ok, [Ok]);
    OneMoreHandle(kind, m, i, Ok, []);
  }

  /**
    The two orders, in runs that really happen.  From every reachable state in which the handler of a
    listed session stands at the top of its loop, a failing Read takes the tunnel through a state that
    lists a closed connection and the proxy through one with an open connection that is not listed;
    one step later both have unlisted it, closed its channel and its connection.
   */
  lemma AFailedReadTearsDown(kind: Kind, s: State, i: nat)
    requires Inv(kind, s) && i < |s.sessions| && Listed(s, i) && s.sessions[i].pc.Checking?
    ensures var r := Run(kind, s, Handles(i, [Ok] + ([Ok] + ([Fail] + [Ok]))));
            && |r.sessions| == |s.sessions| && r.sessions[i].pc.LeavingLate?
            && Listed(r, i) == r.sessions[i].chanOpen == kind.Tunnel? && r.sessions[i].connOpen == kind.Proxy?
    ensures var q := Run(kind, s, Handles(i, [Ok] + ([Ok] + ([Fail] + [Ok, Ok]))));
            && |q.sessions| == |s.sessions| && q.sessions[i].pc.Finished?
            && q.table == s.table - {s.sessions[i].key} && !q.sessions[i].chanOpen && !q.sessions[i].connOpen
  {
    var r := AFailedReadLeaves(kind, s, i, [Ok]);
    var q := AFailedReadLeaves(kind, s, i, [Ok, Ok]);
    DeferredCalls(kind, r, i);
    DeferredCalls(kind, q, i);
    DeferredCallsRun(kind, r, i);
    DeferredCallsRun(kind, q, i);
  }

  /**
    Whichever call of the reply loop fails (Read, the resolving of the source, the write to it),
    nothing is sent, and the two deferred calls take the session down.
   */
  lemma AnyFailureTearsDown(kind: Kind, s: State, i: nat)
    requires Inv(kind, s) && i < |s.sessions| && Listed(s, i)
    requires var pc := s.sessions[i].pc; pc.Reading? || pc.Resolving? || pc.Replying?
    ensures var q := Run(kind, s, Handles(i, [Fail] + [Ok, Ok]));
            && |q.sessions| == |s.sessions| && q.sessions[i].pc.Finished?
            && q.table == s.table - {s.sessions[i].key} && !q.sessions[i].chanOpen && !q.sessions[i].connOpen
            && q.sessions[i].replies == s.sessions[i].replies
  {
    var m := StepTowardsFailure(kind, s, s, i, Fail, [Ok, Ok]);
    DeferredCalls(kind, m, i);
    DeferredCallsRun(kind, m, i);
  }
}
