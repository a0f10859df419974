/**
  The specification both files refine: a table whose get-or-create is one atomic operation.  The
  proxy performs it in one critical section; the tunnel looks up in one and inserts in another.
 */
module UdpRefinement {
  import opened UdpModel
  import opened UdpSafety

  datatype Entry = Entry(sid: nat, lastActive: int)

  type AtomicTable = map<string, Entry>

  datatype Op =
    | GetOrCreate(src: string, newSid: nat, t: int)
    | Touch(sid: nat, t: int)
    | Drop(src: string, sid: nat)
    | Expire(t: int)
    | Skip

  function Apply(live: AtomicTable, timeout: int, op: Op): AtomicTable {
    match op
    case GetOrCreate(k, newSid, t) => live[k := Entry(if k in live then live[k].sid else newSid, t)]
    case Touch(i, t) => map k | k in live :: if live[k].sid == i then Entry(i, t) else live[k]
    case Drop(k, i) => if k in live && live[k].sid == i then live - {k} else live
    case Expire(t) => map k | k in live && t - live[k].lastActive < timeout :: live[k]
    case Skip => live
  }

  function ApplyAll(live: AtomicTable, timeout: int, ops: seq<Op>): AtomicTable {
    if ops == [] then live
    else Apply(ApplyAll(live, timeout, ops[..|ops| - 1]), timeout, ops[|ops| - 1])
  }

  function View(s: State): AtomicTable
    requires Bounded(s)
  {
    map k | k in s.table :: Entry(s.table[k], s.sessions[s.table[k]].lastActive)
  }

  /** The atomic operation a step amounts to: the tunnel's lookup that misses, and its build, are none. */
  function OpOf(kind: Kind, s: State, a: Action): Op
    requires Bounded(s)
  {
    match a
    case FindOrCreate(dialed) =>
      if kind.Proxy? && s.reader.Received? && (s.reader.src in s.table || dialed)
      then GetOrCreate(s.reader.src, |s.sessions|, s.now) else Skip
    case Lookup =>
      if kind.Tunnel? && s.reader.Received? && s.reader.src in s.table
      then GetOrCreate(s.reader.src, |s.sessions|, s.now) else Skip
    case Insert =>
      if s.reader.Built? then GetOrCreate(s.reader.src, s.reader.sid, s.sessions[s.reader.sid].lastActive) else Skip
    case Refresh => if s.reader.Holding? then Touch(s.reader.sid, s.now) else Skip
    case Sweep(t) => if s.reaper then Expire(t) else Skip
    case Handle(i, _) => if i < |s.sessions| then HandlerOp(kind, s, i) else Skip
    case _ => Skip
  }

  function HandlerOp(kind: Kind, s: State, i: nat): Op
    requires i < |s.sessions|
  {
    if s.sessions[i].pc.Touching? then Touch(i, s.now)
    else if s.sessions[i].pc == (if kind.Proxy? then Leaving else LeavingLate) then Drop(s.sessions[i].key, i)
    else Skip
  }

  function Trace(kind: Kind, s: State, schedule: seq<Action>): (ops: seq<Op>)
    requires Bounded(s)
    ensures |ops| == |schedule|
  {
    if schedule == [] then []
    else
      var before := schedule[..|schedule| - 1];
      Trace(kind, s, before) + [OpOf(kind, Run(kind, s, before), schedule[|schedule| - 1])]
  }

  /** Replacing one session in place, keeping its source, touches at most its entry. */
  lemma ReplaceShows(s: State, i: nat, y: Session)
    requires Bounded(s) && TableOk(s) && i < |s.sessions| && y.key == s.sessions[i].key
    ensures View(s.(sessions := s.sessions[i := y])) ==
            if y.lastActive == s.sessions[i].lastActive then View(s)
            else Apply(View(s), s.timeout, Touch(i, y.lastActive))
  {
  }

  lemma SameTableShows(s: State, r: State)
    requires Bounded(s) && Bounded(r) && r.table == s.table && |s.sessions| <= |r.sessions|
    requires forall j | 0 <= j < |s.sessions| :: r.sessions[j].lastActive == s.sessions[j].lastActive
    ensures View(r) == View(s)
  {
  }

  lemma RemoveRefines(s: State, i: nat, y: Session)
    requires Bounded(s) && TableOk(s) && i < |s.sessions| && y.lastActive == s.sessions[i].lastActive
    ensures var m := Remove(s, i);
            View(m.(sessions := m.sessions[i := y])) == Apply(View(s), s.timeout, Drop(s.sessions[i].key, i))
  {
    var m := Remove(s, i);
    assert forall j | 0 <= j < |s.sessions| ::
        m.sessions[i := y][j].lastActive == s.sessions[j].lastActive;
  }

  /** The first deferred call of the tunnel and the second of the proxy leave the table alone. */
  lemma HangUpRefines(s: State, i: nat, pc: Handler)
    requires Bounded(s) && i < |s.sessions|
    ensures View(s.(sessions := s.sessions[i := CloseConn(s.sessions[i]).(pc := pc)])) == View(s)
  {
    SameTableShows(s, s.(sessions := s.sessions[i := CloseConn(s.sessions[i]).(pc := pc)]));
  }

  lemma TeardownRefines(kind: Kind, s: State, i: nat)
    requires Bounded(s) && TableOk(s) && i < |s.sessions| && Deferred(s.sessions[i].pc)
    ensures View(TeardownStep(kind, s, i)) ==
            if s.sessions[i].pc.Leaving? == kind.Proxy? then Apply(View(s), s.timeout, Drop(s.sessions[i].key, i))
            else View(s)
  {
    var next := if s.sessions[i].pc.Leaving? then LeavingLate else Finished;
    if s.sessions[i].pc.Leaving? == kind.Proxy? {
      RemoveRefines(s, i, Remove(s, i).sessions[i].(pc := next));
    } else {
      HangUpRefines(s, i, next);
    }
  }

  lemma ProceedActivity(kind: Kind, x: Session, o: Outcome, now: int, timeout: int)
    ensures var y := Proceed(kind, x, o, now, timeout);
            y.key == x.key && y.lastActive == if x.pc.Touching? then now else x.lastActive
  {
  }

  lemma LoopBodyRefines(s: State, i: nat, y: Session)
    requires Bounded(s) && TableOk(s) && i < |s.sessions| && y.key == s.sessions[i].key
    requires y.lastActive == if s.sessions[i].pc.Touching? then s.now else s.sessions[i].lastActive
    ensures View(s.(sessions := s.sessions[i := y])) ==
            if s.sessions[i].pc.Touching? then Apply(View(s), s.timeout, Touch(i, s.now)) else View(s)
  {
    ReplaceShows(s, i, y);
    if y.lastActive == s.sessions[i].lastActive == s.now {
      assert Apply(View(s), s.timeout, Touch(i, s.now)) == View(s);
    }
  }

  lemma HandlerRefines(kind: Kind, s: State, i: nat, o: Outcome)
    requires Bounded(s) && TableOk(s) && i < |s.sessions|
    ensures View(HandlerStep(kind, s, i, o)) == Apply(View(s), s.timeout, HandlerOp(kind, s, i))
  {
    if Deferred(s.sessions[i].pc) {
      TeardownRefines(kind, s, i);
    } else {
      ProceedActivity(kind, s.sessions[i], o, s.now, s.timeout);
      LoopBodyRefines(s, i, Proceed(kind, s.sessions[i], o, s.now, s.timeout));
    }
  }

  lemma SweepRefines(kind: Kind, s: State, t: int)
    requires Inv(kind, s)
    ensures View(SweepTable(s, t)) == Apply(View(s), s.timeout, Expire(t))
  {
    var r := SweepTable(s, t);
    assert forall j | 0 <= j < |s.sessions| :: r.sessions[j].lastActive == s.sessions[j].lastActive;
  }

  lemma FoundShows(s: State, src: string, reader: Reader)
    requires Bounded(s) && TableOk(s) && src in s.table && ReaderBounded(reader, |s.sessions|)
    ensures var i := s.table[src];
            View(s.(sessions := s.sessions[i := s.sessions[i].(lastActive := s.now)], reader := reader)) ==
            Apply(View(s), s.timeout, GetOrCreate(src, |s.sessions|, s.now))
  {
  }

  lemma CreatedShows(s: State, src: string)
    requires Bounded(s) && src !in s.table
    ensures View(s.(table := s.table[src := |s.sessions|],
                    sessions := s.sessions + [NewSession(src, s.now, Checking)], reader := Waiting)) ==
            Apply(View(s), s.timeout, GetOrCreate(src, |s.sessions|, s.now))
  {
  }

  lemma FindOrCreateRefines(s: State, dialed: bool)
    requires Inv(Proxy, s) && s.reader.Received?
    ensures View(FindOrCreateStep(s, dialed)) == Apply(View(s), s.timeout, OpOf(Proxy, s, FindOrCreate(dialed)))
  {
    var src, r := s.reader.src, FindOrCreateStep(s, dialed);
    if src in s.table {
      FoundShows(s, src, r.reader);
    } else if dialed {
      CreatedShows(s, src);
      SameTableShows(r.(reader := Waiting), r);
    } else {
      SameTableShows(s, r);
    }
  }

  lemma LookupRefines(s: State)
    requires Inv(Tunnel, s) && s.reader.Received?
    ensures View(LookupStep(s)) == Apply(View(s), s.timeout, OpOf(Tunnel, s, Lookup))
  {
    var src, r := s.reader.src, LookupStep(s);
    if src in s.table {
      FoundShows(s, src, r.reader);
    } else {
      SameTableShows(s, r);
    }
  }

  /** The insert is the creating branch of an atomic get-or-create: it never displaces a session. */
  lemma InsertRefines(s: State)
    requires Inv(Tunnel, s) && s.reader.Built?
    ensures s.reader.src !in s.table
    ensures View(InsertStep(s)) == Apply(View(s), s.timeout, OpOf(Tunnel, s, Insert))
    ensures InsertStep(s).table == s.table[s.reader.src := s.reader.sid]
  {
  }

  lemma StepRefines(kind: Kind, s: State, a: Action)
    requires Inv(kind, s)
    ensures View(Step(kind, s, a)) == Apply(View(s), s.timeout, OpOf(kind, s, a))
  {
    if a.Handle? {
      if a.sid < |s.sessions| { HandlerRefines(kind, s, a.sid, a.outcome); }
    } else if a.Sweep? {
      if s.reaper { SweepRefines(kind, s, a.t); }
    } else {
      ReaderRefines(kind, s, a);
    }
  }

  lemma ReaderRefines(kind: Kind, s: State, a: Action)
    requires Inv(kind, s) && !a.Handle? && !a.Sweep?
    ensures View(Step(kind, s, a)) == Apply(View(s), s.timeout, OpOf(kind, s, a))
  {
    if a.FindOrCreate? && kind.Proxy? && s.reader.Received? {
      FindOrCreateRefines(s, a.dialed);
    } else if a.Lookup? && kind.Tunnel? && s.reader.Received? {
      LookupRefines(s);
    } else if a.Insert? && s.reader.Built? {
      InsertRefines(s);
    } else if a.Refresh? && s.reader.Holding? {
      RefreshRefines(kind, s);
    } else {
      QuietRefines(kind, s, a);
    }
  }

  /** Actions that touch neither the table nor a listed session's lastActive. */
  lemma QuietRefines(kind: Kind, s: State, a: Action)
    requires Bounded(s) && !a.Handle? && !a.Sweep?
    requires !(a.FindOrCreate? && kind.Proxy? && s.reader.Received?)
    requires !(a.Lookup? && kind.Tunnel? && s.reader.Received?)
    requires !(a.Insert? && s.reader.Built?) && !(a.Refresh? && s.reader.Holding?)
    ensures OpOf(kind, s, a) == Skip && View(Step(kind, s, a)) == View(s)
  {
    SameTableShows(s, Step(kind, s, a));
  }

  lemma RefreshRefines(kind: Kind, s: State)
    requires Inv(kind, s) && s.reader.Holding?
    ensures View(ReaderStep(kind, s, Refresh)) == Apply(View(s), s.timeout, Touch(s.reader.sid, s.now))
  {
  }

  /** Every run of either file shows the table that its trace of atomic operations builds. */
  lemma {:induction false} EveryRunRefines(kind: Kind, s: State, schedule: seq<Action>)
    requires Initial(s)
    ensures View(Run(kind, s, schedule)) == ApplyAll(map[], s.timeout, Trace(kind, s, schedule))
    ensures Run(kind, s, schedule).timeout == s.timeout
  {
    if schedule != [] {
      var before, a := schedule[..|schedule| - 1], schedule[|schedule| - 1];
      EveryRunRefines(kind, s, before);
      EveryRunKeepsInv(kind, s, before);
      var m := Run(kind, s, before);
      StepRefines(kind, m, a);
      StepKeepsTimeout(kind, m, a);
      var ops := Trace(kind, s, schedule);
      assert ops[..|ops| - 1] == Trace(kind, s, before);
    }
  }

  /** Why it holds: between the tunnel's two critical sections the table can only shrink. */
  lemma OnlyDeletionsBetweenLookupAndInsert(s: State, a: Action)
    requires Inv(Tunnel, s) && (s.reader.Missed? || s.reader.Built?) && !a.Insert?
    ensures var r := Step(Tunnel, s, a); forall k <- r.table :: k in s.table && r.table[k] == s.table[k]
  {
  }
}
