/**
  What every interleaving of the reader, the reaper and the handlers keeps: the table holds
  exactly the open sessions, channels and connections are closed once, and stale handlers do no harm.
 */
module UdpSafety {
  import opened UdpModel

  ghost predicate Initial(s: State) {
    && s.table == map[] && s.sessions == [] && s.reader == Waiting
    && s.received == [] && s.forwarded == []
    && (s.reaper <==> s.timeout > 0) && s.nextSweep == s.now + SWEEP_PERIOD
  }

  /** Serve starts where the theorems about runs start, with its timeout in seconds as configured. */
  lemma ServeStartsInitial(now: int, inactivityTimeout: int)
    ensures var s := InitialState(now, inactivityTimeout);
            Initial(s) && s.now == now && s.timeout == inactivityTimeout * 1_000_000_000
  {
  }

  /** The tunnel's one session that is built but not yet inserted. */
  predicate Pending(s: State, i: nat) {
    s.reader.Built? && s.reader.sid == i
  }

  ghost predicate TableOk(s: State) {
    forall k <- s.table :: s.table[k] < |s.sessions| && s.sessions[s.table[k]].key == k
  }

  ghost predicate ReaderOk(kind: Kind, s: State) {
    && (s.reader.Holding? ==> kind.Proxy?)
    && (s.reader.Missed? ==> kind.Tunnel? && s.reader.src !in s.table)
    && (s.reader.Built? ==>
          && kind.Tunnel? && s.reader.src !in s.table && s.reader.sid < |s.sessions|
          && s.sessions[s.reader.sid].key == s.reader.src
          && s.sessions[s.reader.sid].pc == NotStarted && s.sessions[s.reader.sid].chanOpen)
  }

  /** Past its own table removal: that is one deferred call earlier in the proxy. */
  predicate Removed(kind: Kind, x: Session) {
    x.pc.Finished? || (kind.Proxy? && x.pc.LeavingLate?)
  }

  predicate Hung(kind: Kind, x: Session) {
    x.pc.Finished? || (kind.Tunnel? && x.pc.LeavingLate?)
  }

  /** What holds of a session by itself, whatever the table says. */
  ghost predicate SessionOk(kind: Kind, x: Session) {
    && x.chanCloses == (if x.chanOpen then 0 else 1)
    && x.connCloses == (if x.connOpen then 0 else 1)
    && (x.connOpen <==> !Hung(kind, x))
    && (Removed(kind, x) ==> !x.chanOpen)
    && (x.pc.Resolving? ==> kind.Proxy?)
    && (!x.chanOpen ==> x.lateReads + ReadsLeft(x.pc) <= 1 && x.lateReplies + RepliesLeft(x.pc) <= 1)
    && (x.chanOpen ==> x.lateReads == x.lateReplies == 0)
  }

  /** How many more Reads the handler may start, and datagrams it may forward, once told to stop. */
  function ReadsLeft(pc: Handler): nat {
    if pc.Arming? then 1 else 0
  }

  function RepliesLeft(pc: Handler): nat {
    if pc.Arming? || pc.Reading? || pc.Touching? || pc.Resolving? || pc.Replying? then 1 else 0
  }

  ghost predicate SessionsOk(kind: Kind, s: State) {
    forall i | 0 <= i < |s.sessions| :: SessionOk(kind, s.sessions[i])
  }

  /** A session's closeChan is open exactly when the table holds it, the pending one apart. */
  ghost predicate ListedIffOpen(s: State) {
    && (forall i: nat | i < |s.sessions| :: s.sessions[i].chanOpen <==> (Listed(s, i) || Pending(s, i)))
    && (forall i: nat | i < |s.sessions| && Pending(s, i) :: !Listed(s, i))
    && (forall i: nat | i < |s.sessions| && s.sessions[i].pc.NotStarted? :: Pending(s, i))
  }

  ghost predicate Inv(kind: Kind, s: State) {
    Bounded(s) && TableOk(s) && ReaderOk(kind, s) && SessionsOk(kind, s) && ListedIffOpen(s)
  }

  /** Changing one session in place, with its source and its channel left alone. */
  lemma ReplaceKeepsInv(kind: Kind, s: State, i: nat, y: Session)
    requires Inv(kind, s) && i < |s.sessions| && SessionOk(kind, y)
    requires y.key == s.sessions[i].key && y.chanOpen == s.sessions[i].chanOpen
    requires y.pc.NotStarted? == s.sessions[i].pc.NotStarted?
    ensures Inv(kind, s.(sessions := s.sessions[i := y]))
  {
    var r := s.(sessions := s.sessions[i := y]);
    assert forall j: nat | j < |s.sessions| :: Listed(r, j) <==> Listed(s, j);
  }

  /** Appending a session under a source the table does not hold, listed at once or kept pending. */
  lemma AppendKeepsInv(kind: Kind, s: State, r: State, src: string, x: Session)
    requires Inv(kind, s) && SessionOk(kind, x) && x.key == src && x.chanOpen && src !in s.table
    requires !s.reader.Built?
    requires r.sessions == s.sessions + [x] && Bounded(r) && ReaderOk(kind, r)
    requires || (!r.reader.Built? && !x.pc.NotStarted? && r.table == s.table[src := |s.sessions|])
             || (r.reader.Built? && r.reader.sid == |s.sessions| && r.table == s.table)
    ensures Inv(kind, r)
  {
    assert forall j: nat | j < |s.sessions| ::
        r.sessions[j] == s.sessions[j] && (Listed(r, j) <==> Listed(s, j));
  }

  lemma InsertKeepsInv(kind: Kind, s: State)
    requires Inv(kind, s) && s.reader.Built?
    ensures Inv(kind, InsertStep(s))
  {
    var r, i := InsertStep(s), s.reader.sid;
    assert forall j: nat | j < |s.sessions| && j != i ::
        r.sessions[j] == s.sessions[j] && (Listed(r, j) <==> Listed(s, j));
  }

  /** Steps that move only the reader and its buffer. */
  lemma ReaderMoveKeepsInv(kind: Kind, s: State, r: State)
    requires Inv(kind, s) && !s.reader.Built? && !r.reader.Built?
    requires r.sessions == s.sessions && r.table == s.table && Bounded(r) && ReaderOk(kind, r)
    ensures Inv(kind, r)
  {
    assert forall j: nat | j < |s.sessions| :: Listed(r, j) <==> Listed(s, j);
  }

  lemma RefreshKeepsInv(kind: Kind, s: State, i: nat, reader: Reader)
    requires Inv(kind, s) && i < |s.sessions| && !s.reader.Built? && !reader.Built? && !reader.Missed?
    requires ReaderBounded(reader, |s.sessions|) && (reader.Holding? ==> kind.Proxy?)
    ensures Inv(kind, s.(sessions := s.sessions[i := s.sessions[i].(lastActive := s.now)], reader := reader))
  {
    var y := s.sessions[i].(lastActive := s.now);
    ReplaceKeepsInv(kind, s, i, y);
    var m := s.(sessions := s.sessions[i := y]);
    ReaderMoveKeepsInv(kind, m, m.(reader := reader));
  }

  lemma FindOrCreateKeepsInv(s: State, dialed: bool)
    requires Inv(Proxy, s) && s.reader.Received?
    ensures Inv(Proxy, FindOrCreateStep(s, dialed))
  {
    var src, r := s.reader.src, FindOrCreateStep(s, dialed);
    if src in s.table {
      RefreshKeepsInv(Proxy, s, s.table[src], Holding(s.table[src], s.reader.n));
    } else if dialed {
      AppendKeepsInv(Proxy, s, r, src, NewSession(src, s.now, Checking));
    } else {
      ReaderMoveKeepsInv(Proxy, s, r);
    }
  }

  lemma LookupKeepsInv(s: State)
    requires Inv(Tunnel, s) && s.reader.Received?
    ensures Inv(Tunnel, LookupStep(s))
  {
    var src := s.reader.src;
    if src in s.table {
      RefreshKeepsInv(Tunnel, s, s.table[src], Sending(s.table[src], s.reader.n));
    } else {
      ReaderMoveKeepsInv(Tunnel, s, LookupStep(s));
    }
  }

  lemma BuildKeepsInv(s: State, dialed: bool)
    requires Inv(Tunnel, s) && s.reader.Missed?
    ensures Inv(Tunnel, BuildStep(s, dialed))
  {
    var src, r := s.reader.src, BuildStep(s, dialed);
    if dialed {
      AppendKeepsInv(Tunnel, s, r, src, NewSession(src, s.now, NotStarted));
    } else {
      ReaderMoveKeepsInv(Tunnel, s, r);
    }
  }

  /** The reader's steps that leave the table and the sessions alone. */
  lemma SocketStepKeepsInv(kind: Kind, s: State, a: Action)
    requires Inv(kind, s) && (a.Receive? || a.Misread? || a.Return? || a.Send?)
    ensures Inv(kind, ReaderStep(kind, s, a))
  {
    var r := ReaderStep(kind, s, a);
    if r != s {
      ReaderMoveKeepsInv(kind, s, r);
    }
  }

  lemma ReaderKeepsInv(kind: Kind, s: State, a: Action)
    requires Inv(kind, s)
    ensures Inv(kind, ReaderStep(kind, s, a))
  {
    match a
    case FindOrCreate(dialed) => if kind.Proxy? && s.reader.Received? { FindOrCreateKeepsInv(s, dialed); }
    case Lookup => if kind.Tunnel? && s.reader.Received? { LookupKeepsInv(s); }
    case Build(dialed) => if s.reader.Missed? { BuildKeepsInv(s, dialed); }
    case Insert => if s.reader.Built? { InsertKeepsInv(kind, s); }
    case Refresh =>
      if s.reader.Holding? {
        RefreshKeepsInv(kind, s, s.reader.sid, Sending(s.reader.sid, s.reader.n));
      }
    case Receive(_, _) => SocketStepKeepsInv(kind, s, a);
    case Misread(_) => SocketStepKeepsInv(kind, s, a);
    case Return => SocketStepKeepsInv(kind, s, a);
    case Send(_) => SocketStepKeepsInv(kind, s, a);
    case _ =>
  }

  /** All a reader's step may do to the sessions: note activity, start a pending handler, add a session. */
  lemma ReaderFrame(kind: Kind, s: State, a: Action, i: nat)
    requires Bounded(s) && i < |ReaderStep(kind, s, a).sessions|
    ensures var y := ReaderStep(kind, s, a).sessions[i];
            if i < |s.sessions| then
              && (y.lastActive == s.sessions[i].lastActive || y.lastActive == s.now)
              && y == s.sessions[i].(lastActive := y.lastActive,
                                     pc := if a.Insert? && Pending(s, i) then Checking else s.sessions[i].pc)
            else y == NewSession(y.key, s.now, y.pc) && (y.pc.Checking? || y.pc.NotStarted?)
  {
  }

  lemma ReaderOnlyAdds(kind: Kind, s: State, a: Action)
    requires Bounded(s)
    ensures |s.sessions| <= |ReaderStep(kind, s, a).sessions|
  {
  }

  /** removeSession keeps the invariant and always leaves the session's channel closed. */
  lemma RemoveKeepsInv(kind: Kind, s: State, i: nat)
    requires Inv(kind, s) && i < |s.sessions| && !Pending(s, i)
    requires Deferred(s.sessions[i].pc)
    ensures Inv(kind, Remove(s, i)) && !Remove(s, i).sessions[i].chanOpen
  {
    var r := Remove(s, i);
    assert forall j: nat | j < |s.sessions| && j != i ::
        r.sessions[j] == s.sessions[j] && (Listed(r, j) <==> Listed(s, j));
  }

  lemma ProceedKeepsSession(kind: Kind, x: Session, o: Outcome, now: int, timeout: int)
    requires SessionOk(kind, x) && !Deferred(x.pc)
    ensures var y := Proceed(kind, x, o, now, timeout);
            && SessionOk(kind, y) && y.key == x.key && y.chanOpen == x.chanOpen
            && y.connOpen == x.connOpen && y.pc.NotStarted? == x.pc.NotStarted?
  {
  }

  lemma TeardownKeepsInv(kind: Kind, s: State, i: nat, o: Outcome)
    requires Inv(kind, s) && i < |s.sessions|
    requires Deferred(s.sessions[i].pc)
    ensures Inv(kind, HandlerStep(kind, s, i, o))
  {
    var x := s.sessions[i];
    if x.pc.Leaving? == kind.Proxy? {
      RemoveKeepsInv(kind, s, i);
      var m := Remove(s, i);
      ReplaceKeepsInv(kind, m, i, m.sessions[i].(pc := if kind.Proxy? then LeavingLate else Finished));
    } else {
      ReplaceKeepsInv(kind, s, i, CloseConn(x).(pc := if kind.Proxy? then Finished else LeavingLate));
    }
  }

  lemma HandlerKeepsInv(kind: Kind, s: State, i: nat, o: Outcome)
    requires Inv(kind, s) && i < |s.sessions|
    ensures Inv(kind, HandlerStep(kind, s, i, o))
  {
    var x := s.sessions[i];
    if Deferred(x.pc) {
      TeardownKeepsInv(kind, s, i, o);
    } else {
      var y := Proceed(kind, x, o, s.now, s.timeout);
      ProceedKeepsSession(kind, x, o, s.now, s.timeout);
      ReplaceKeepsInv(kind, s, i, y);
    }
  }

  lemma SweepKeepsInv(kind: Kind, s: State, t: int)
    requires Inv(kind, s)
    ensures Inv(kind, SweepTable(s, t))
  {
  }

  lemma StepKeepsInv(kind: Kind, s: State, a: Action)
    requires Inv(kind, s)
    ensures Inv(kind, Step(kind, s, a))
  {
    match a
    case Sweep(t) => SweepKeepsInv(kind, s, t);
    case Handle(i, o) => if i < |s.sessions| { HandlerKeepsInv(kind, s, i, o); }
    case StopReaper =>
    case Advance(_) =>
    case _ => ReaderKeepsInv(kind, s, a);
  }

  lemma StepKeepsTimeout(kind: Kind, s: State, a: Action)
    requires Bounded(s)
    ensures Step(kind, s, a).timeout == s.timeout
  {
  }

  lemma {:induction false} EveryRunKeepsInv(kind: Kind, s: State, schedule: seq<Action>)
    requires Initial(s)
    ensures Inv(kind, Run(kind, s, schedule))
  {
    if schedule != [] {
      var before := schedule[..|schedule| - 1];
      EveryRunKeepsInv(kind, s, before);
      StepKeepsInv(kind, Run(kind, s, before), schedule[|schedule| - 1]);
    }
  }
}
