/**
  Stale handlers are invisible.  Once a session is out of the table, whatever its handler still does
  shows nowhere else: the same schedule without its steps gives the same table, the same other
  sessions, the same reader, and the same writes by the other sessions.
 */
module UdpStale {
  import opened UdpModel
  import opened UdpSafety

  function Without(schedule: seq<Action>, i: nat): seq<Action> {
    if schedule == [] then []
    else
      var a := schedule[|schedule| - 1];
      Without(schedule[..|schedule| - 1], i) + if a.Handle? && a.sid == i then [] else [a]
  }

  /** The writes made by other sessions than i. */
  function WrittenByOthers(log: seq<Forward>, i: nat): seq<Forward> {
    if log == [] then []
    else
      var f := log[|log| - 1];
      WrittenByOthers(log[..|log| - 1], i) + if f.sid == i then [] else [f]
  }

  predicate Gone(s: State, i: nat) {
    i < |s.sessions| && !Listed(s, i) && !Pending(s, i)
  }

  /** The sessions agree, except for what session i's own handler may have done to it. */
  ghost predicate SameSessions(a: seq<Session>, b: seq<Session>, i: nat) {
    && |a| == |b|
    && forall j | 0 <= j < |a| :: if j == i then a[j].key == b[j].key else a[j] == b[j]
  }

  ghost predicate SameBut(a: State, b: State, i: nat) {
    && b == a.(sessions := b.sessions, forwarded := b.forwarded)
    && SameSessions(a.sessions, b.sessions, i)
    && WrittenByOthers(a.forwarded, i) == WrittenByOthers(b.forwarded, i)
  }

  lemma SameListed(a: State, b: State, i: nat)
    requires SameBut(a, b, i)
    ensures forall j: nat | j < |a.sessions| :: Listed(a, j) <==> Listed(b, j)
  {
  }

  /** The stale handler's own steps leave everything but its session alone. */
  lemma StaleHandlerStep(kind: Kind, s: State, i: nat, o: Outcome)
    requires Bounded(s) && Gone(s, i)
    ensures var r := Step(kind, s, Handle(i, o)); Gone(r, i) && SameBut(r, s, i)
  {
    var r := Step(kind, s, Handle(i, o));
    assert r.table == s.table && r.reader == s.reader;
    assert r.sessions[i].key == s.sessions[i].key;
    assert r == s.(sessions := s.sessions[i := r.sessions[i]]);
  }

  /** Replacing session j, j other than i or the change the same harmless one, on both sides. */
  lemma ReplaceStaysBlind(a: State, b: State, j: nat, x: Session, y: Session, i: nat)
    requires Gone(a, i) && SameBut(a, b, i) && j < |a.sessions|
    requires x.key == y.key == a.sessions[j].key && (j == i || x == y)
    ensures var r, q := a.(sessions := a.sessions[j := x]), b.(sessions := b.sessions[j := y]);
            Gone(r, i) && SameBut(r, q, i)
  {
  }

  lemma AppendStaysBlind(a: State, b: State, x: Session, i: nat)
    requires Gone(a, i) && SameBut(a, b, i)
    ensures var r, q := a.(sessions := a.sessions + [x]), b.(sessions := b.sessions + [x]);
            Gone(r, i) && SameBut(r, q, i)
  {
  }

  /** The table may change alike on both sides, as long as i is not listed. */
  lemma TableStaysBlind(a: State, b: State, table: map<string, nat>, reader: Reader, i: nat)
    requires Gone(a, i) && SameBut(a, b, i)
    requires forall k <- table :: table[k] != i
    requires !(reader.Built? && reader.sid == i)
    ensures var r, q := a.(table := table, reader := reader), b.(table := table, reader := reader);
            Gone(r, i) && SameBut(r, q, i)
  {
  }

  lemma NotListed(kind: Kind, a: State, i: nat)
    requires Inv(kind, a) && Gone(a, i)
    ensures forall k <- a.table :: a.table[k] != i
  {
  }

  lemma TouchStaysBlind(a: State, b: State, j: nat, reader: Reader, i: nat)
    requires Gone(a, i) && SameBut(a, b, i) && j < |a.sessions| && (forall k <- a.table :: a.table[k] != i)
    requires !reader.Built?
    ensures var r := a.(sessions := a.sessions[j := a.sessions[j].(lastActive := a.now)], reader := reader);
            var q := b.(sessions := b.sessions[j := b.sessions[j].(lastActive := b.now)], reader := reader);
            Gone(r, i) && SameBut(r, q, i)
  {
    ReplaceStaysBlind(a, b, j, a.sessions[j].(lastActive := a.now), b.sessions[j].(lastActive := b.now), i);
  }

  lemma FindOrCreateStaysBlind(a: State, b: State, dialed: bool, i: nat)
    requires Inv(Proxy, a) && Bounded(b) && Gone(a, i) && SameBut(a, b, i) && a.reader.Received?
    ensures var r, q := FindOrCreateStep(a, dialed), FindOrCreateStep(b, dialed); Gone(r, i) && SameBut(r, q, i)
  {
    NotListed(Proxy, a, i);
    var src, n := a.reader.src, a.reader.n;
    if src in a.table {
      TouchStaysBlind(a, b, a.table[src], Holding(a.table[src], n), i);
    } else if dialed {
      var x, k := NewSession(src, a.now, Checking), |a.sessions|;
      AppendStaysBlind(a, b, x, i);
      var r, q := a.(sessions := a.sessions + [x]), b.(sessions := b.sessions + [x]);
      TableStaysBlind(r, q, a.table[src := k], Holding(k, n), i);
    } else {
      TableStaysBlind(a, b, a.table, Waiting, i);
    }
  }

  /** The tunnel's reader stands where this step of finding a session applies. */
  predicate InSection(s: State, a: Action) {
    (a.Lookup? && s.reader.Received?) || (a.Build? && s.reader.Missed?) || (a.Insert? && s.reader.Built?)
  }

  lemma TunnelStaysBlind(a: State, b: State, action: Action, i: nat)
    requires Inv(Tunnel, a) && Bounded(b) && Gone(a, i) && SameBut(a, b, i)
    requires InSection(a, action)
    ensures var r, q := ReaderStep(Tunnel, a, action), ReaderStep(Tunnel, b, action); Gone(r, i) && SameBut(r, q, i)
  {
    NotListed(Tunnel, a, i);
    var src, n := a.reader.src, a.reader.n;
    if action.Lookup? && src in a.table {
      TouchStaysBlind(a, b, a.table[src], Sending(a.table[src], n), i);
    } else if action.Lookup? {
      TableStaysBlind(a, b, a.table, Missed(src, n), i);
    } else if action.Build? && action.dialed {
      var x, k := NewSession(src, a.now, NotStarted), |a.sessions|;
      AppendStaysBlind(a, b, x, i);
      TableStaysBlind(a.(sessions := a.sessions + [x]), b.(sessions := b.sessions + [x]), a.table, Built(src, n, k), i);
    } else if action.Build? {
      TableStaysBlind(a, b, a.table, Waiting, i);
    } else {
      var k := a.reader.sid;
      ReplaceStaysBlind(a, b, k, a.sessions[k].(pc := Checking), b.sessions[k].(pc := Checking), i);
      TableStaysBlind(SetPc(a, k, Checking), SetPc(b, k, Checking), a.table[src := k], Sending(k, n), i);
    }
  }

  lemma ReaderStaysBlind(kind: Kind, a: State, b: State, action: Action, i: nat)
    requires Inv(kind, a) && Bounded(b) && Gone(a, i) && SameBut(a, b, i) && !action.Send?
    ensures var r, q := ReaderStep(kind, a, action), ReaderStep(kind, b, action); Gone(r, i) && SameBut(r, q, i)
  {
    if action.FindOrCreate? && kind.Proxy? && a.reader.Received? {
      FindOrCreateStaysBlind(a, b, action.dialed, i);
    } else if kind.Tunnel? && InSection(a, action) {
      TunnelStaysBlind(a, b, action, i);
    } else if action.Refresh? && a.reader.Holding? {
      NotListed(kind, a, i);
      TouchStaysBlind(a, b, a.reader.sid, Sending(a.reader.sid, a.reader.n), i);
    } else if action.Receive? || action.Misread? || action.Return? {
      BufferStaysBlind(kind, a, b, action, i);
    }
  }

  lemma BufferStaysBlind(kind: Kind, a: State, b: State, action: Action, i: nat)
    requires Bounded(a) && Bounded(b) && Gone(a, i) && SameBut(a, b, i)
    requires action.Receive? || action.Misread? || action.Return?
    ensures var r, q := ReaderStep(kind, a, action), ReaderStep(kind, b, action); Gone(r, i) && SameBut(r, q, i)
  {
  }

  lemma OneMoreWritten(log: seq<Forward>, f: Forward, i: nat)
    ensures WrittenByOthers(log + [f], i) == WrittenByOthers(log, i) + if f.sid == i then [] else [f]
  {
    assert (log + [f])[..|log|] == log;
  }

  /** What a send adds to the log, if it succeeds. */
  function ThisWrite(s: State): Forward
    requires Bounded(s) && s.reader.Sending?
  {
    Forward(s.reader.sid, s.sessions[s.reader.sid].key, |s.received| - 1, s.buf[..s.reader.n])
  }

  lemma SendWrites(s: State, ok: bool, i: nat)
    requires Bounded(s) && s.reader.Sending?
    ensures var written := ok && s.sessions[s.reader.sid].connOpen;
            && SendStep(s, ok) == s.(reader := Waiting, forwarded := SendStep(s, ok).forwarded)
            && WrittenByOthers(SendStep(s, ok).forwarded, i) ==
               WrittenByOthers(s.forwarded, i) + if written && s.reader.sid != i then [ThisWrite(s)] else []
  {
    OneMoreWritten(s.forwarded, ThisWrite(s), i);
  }

  lemma SendStaysBlind(a: State, b: State, ok: bool, i: nat)
    requires Bounded(a) && Bounded(b) && Gone(a, i) && SameBut(a, b, i) && a.reader.Sending?
    ensures var r, q := SendStep(a, ok), SendStep(b, ok); Gone(r, i) && SameBut(r, q, i)
  {
    SendWrites(a, ok, i);
    SendWrites(b, ok, i);
    if a.reader.sid != i {
      assert ThisWrite(a) == ThisWrite(b);
    }
  }

  lemma RemoveStaysBlind(a: State, b: State, j: nat, i: nat)
    requires Bounded(a) && Bounded(b) && Gone(a, i) && SameBut(a, b, i) && j < |a.sessions| && j != i
    ensures var r, q := Remove(a, j), Remove(b, j); Gone(r, i) && SameBut(r, q, i)
  {
    SameListed(a, b, i);
    var x := CloseChan(a.sessions[j], a.now);
    ReplaceStaysBlind(a, b, j, x, x, i);
  }

  lemma HandlerStaysBlind(kind: Kind, a: State, b: State, j: nat, o: Outcome, i: nat)
    requires Bounded(a) && Bounded(b) && Gone(a, i) && SameBut(a, b, i) && j < |a.sessions| && j != i
    ensures var r, q := HandlerStep(kind, a, j, o), HandlerStep(kind, b, j, o); Gone(r, i) && SameBut(r, q, i)
  {
    var x := a.sessions[j];
    if Deferred(x.pc) {
      var next := if x.pc.Leaving? then LeavingLate else Finished;
      if x.pc.Leaving? == kind.Proxy? {
        RemoveStaysBlind(a, b, j, i);
        var m, n := Remove(a, j), Remove(b, j);
        ReplaceStaysBlind(m, n, j, m.sessions[j].(pc := next), n.sessions[j].(pc := next), i);
      } else {
        ReplaceStaysBlind(a, b, j, CloseConn(x).(pc := next), CloseConn(x).(pc := next), i);
      }
    } else {
      var y := Proceed(kind, x, o, a.now, a.timeout);
      assert y.key == x.key;
      ReplaceStaysBlind(a, b, j, y, y, i);
    }
  }

  lemma SweepStaysBlind(a: State, b: State, t: int, i: nat)
    requires Bounded(a) && Bounded(b) && Gone(a, i) && SameBut(a, b, i) && TableOk(a)
    ensures var r, q := SweepTable(a, t), SweepTable(b, t); Gone(r, i) && SameBut(r, q, i)
  {
    SameListed(a, b, i);
    assert forall k <- a.table :: a.table[k] != i;
  }

  lemma OthersStayBlind(kind: Kind, a: State, b: State, action: Action, i: nat)
    requires Inv(kind, a) && Bounded(b) && Gone(a, i) && SameBut(a, b, i) && !(action.Handle? && action.sid == i)
    ensures var r, q := Step(kind, a, action), Step(kind, b, action); Gone(r, i) && SameBut(r, q, i)
  {
    if action.Handle? {
      if action.sid < |a.sessions| { HandlerStaysBlind(kind, a, b, action.sid, action.outcome, i); }
    } else if action.Sweep? {
      if a.reaper { SweepStaysBlind(a, b, action.t, i); }
    } else if action.Send? {
      if a.reader.Sending? { SendStaysBlind(a, b, action.ok, i); }
    } else if !action.StopReaper? && !action.Advance? {
      ReaderStaysBlind(kind, a, b, action, i);
    }
  }

  /** Leaving the stale handler's steps out of a schedule changes nothing that anyone else sees. */
  lemma {:induction false} StaleHandlersAreInvisible(kind: Kind, s: State, schedule: seq<Action>, i: nat)
    requires Inv(kind, s) && Gone(s, i)
    ensures var r := Run(kind, s, schedule);
            && Inv(kind, r) && Gone(r, i) && !r.sessions[i].chanOpen
            && SameBut(r, Run(kind, s, Without(schedule, i)), i)
  {
    if schedule != [] {
      var before, a := schedule[..|schedule| - 1], schedule[|schedule| - 1];
      StaleHandlersAreInvisible(kind, s, before, i);
      var m, n := Run(kind, s, before), Run(kind, s, Without(before, i));
      StepKeepsInv(kind, m, a);
      if a.Handle? && a.sid == i {
        StaleHandlerStep(kind, m, i, a.outcome);
        assert Without(schedule, i) == Without(before, i);
      } else {
        OthersStayBlind(kind, m, n, a, i);
        assert Without(schedule, i)[..|Without(before, i)|] == Without(before, i);
      }
    }
  }
}
