/**
  The program itself: a mutable table of session objects, one reused buffer, and goroutines that run
  one atomic step at a time in whatever order the schedule says.  `Valid` ties the objects to a
  ghost state, and each method is proved to take exactly the step of the transition system it
  implements; so every theorem about `Run` is a theorem about `Execute`.
 */
module UdpProgram {
  import opened Durations
  import opened UdpModel
  import opened UdpSafety

  class SessionObject {
    const id: nat
    const key: string
    var lastActive: int
    var chanOpen: bool
    var connOpen: bool
    var pc: Handler
    var deadline: int
    var replies: seq<Reply>      // what WriteTo has sent to the source

    constructor (id: nat, key: string, now: int, pc: Handler)
      ensures this.id == id && Shows(NewSession(key, now, pc))
    {
      this.id, this.key, this.lastActive, this.pc := id, key, now, pc;
      chanOpen, connOpen, deadline, replies := true, true, now, [];
    }

    ghost predicate Shows(v: Session)
      reads this
    {
      && key == v.key && lastActive == v.lastActive && chanOpen == v.chanOpen && connOpen == v.connOpen
      && pc == v.pc && deadline == v.deadline && replies == v.replies
    }

    /** The selects on closeChan and the Read between them. */
    method WaitStep(kind: Kind, o: Outcome, now: int, timeout: int, ghost v: Session)
      requires Shows(v) && (pc.Checking? || pc.Arming? || pc.Reading? || pc.Rechecking?)
      modifies this
      ensures Shows(Proceed(kind, v, o, now, timeout))
    {
      if pc.Checking? {
        pc := if chanOpen then Arming else Leaving;
      } else if pc.Rechecking? {
        pc := if chanOpen then Checking else Leaving;
      } else if pc.Arming? {
        if kind.Proxy? || timeout > 0 {
          deadline := now + READ_DEADLINE;
        }
        pc := Reading;
      } else if o.Timeout? {
        pc := Rechecking;
      } else if o.Fail? {
        pc := Leaving;
      } else if o.Data? {
        pc := Touching(o.data);
      }
    }

    /** A datagram has been read: note the activity, resolve, and answer the source. */
    method AnswerStep(kind: Kind, o: Outcome, now: int, timeout: int, ghost v: Session)
      requires Shows(v) && (pc.Touching? || pc.Resolving? || pc.Replying?)
      modifies this
      ensures Shows(Proceed(kind, v, o, now, timeout))
    {
      if pc.Touching? {
        lastActive, pc := now, if kind.Proxy? then Resolving(pc.data) else Replying(pc.data);
      } else if o.Fail? {
        pc := Leaving;
      } else if pc.Resolving? {
        pc := Replying(pc.data);
      } else {
        replies := replies + [Reply(key, pc.data)];
        pc := Checking;
      }
    }

    method LoopStep(kind: Kind, o: Outcome, now: int, timeout: int, ghost v: Session)
      requires Shows(v) && !Deferred(pc)
      modifies this
      ensures Shows(Proceed(kind, v, o, now, timeout))
    {
      if pc.Touching? || pc.Resolving? || pc.Replying? {
        AnswerStep(kind, o, now, timeout, v);
      } else if !pc.NotStarted? && !pc.Finished? {
        WaitStep(kind, o, now, timeout, v);
      }
    }
  }

  class Forwarder {
    const kind: Kind
    const timeout: int
    const buf: array<Byte>
    var now: int
    var reaper: bool
    var nextSweep: int
    var sessions: map<string, SessionObject>
    var started: seq<SessionObject>    // every session made, in order: one goroutine each
    var reader: Reader
    var count: nat                     // datagrams taken so far
    var written: seq<Forward>          // what the sessions' connections have taken
    ghost var state: State

    ghost predicate Valid()
      reads this, started, buf
    {
      && buf.Length == BUFFER_SIZE && buf[..] == state.buf && Bounded(state)
      && now == state.now && timeout == state.timeout && reaper == state.reaper
      && nextSweep == state.nextSweep && reader == state.reader
      && count == |state.received| && written == state.forwarded
      && SessionsShow(state.sessions) && TableShows(state.table)
    }

    ghost predicate SessionsShow(v: seq<Session>)
      reads this`started, started
    {
      && |started| == |v|
      && forall i | 0 <= i < |started| :: started[i].id == i && started[i].Shows(v[i])
    }

    ghost predicate TableShows(table: map<string, nat>)
      reads this`sessions, this`started
    {
      && sessions.Keys == table.Keys
      && forall k <- sessions :: table[k] < |started| && sessions[k] == started[table[k]]
    }

    /** Session objects are only ever added, at the end. */
    ghost predicate Extended(before: seq<SessionObject>)
      reads this`started
    {
      before <= started
    }

    constructor (kind: Kind, inactivityTimeout: int, now: int)
      ensures Valid() && fresh(buf) && started == [] && this.kind == kind
      ensures Initial(state) && state.now == now && state.timeout == inactivityTimeout * 1_000_000_000
      ensures state == InitialState(now, inactivityTimeout)
    {
      this.kind, this.timeout, this.now := kind, inactivityTimeout * SECOND, now;
      buf := new Byte[BUFFER_SIZE](_ => 0);
      reaper, nextSweep := inactivityTimeout > 0, now + SWEEP_PERIOD;
      sessions, started, reader, count, written := map[], [], Waiting, 0, [];
      new;
      state := InitialState(now, inactivityTimeout);
      ServeStartsInitial(now, inactivityTimeout);
    }

    /** ReadFrom returns: the datagram overwrites the front of the one buffer. */
    method TakeDatagram(d: Datagram)
      modifies buf
      requires buf.Length == BUFFER_SIZE
      ensures buf[..] == Fill(old(buf[..]), d)
    {
      forall i | 0 <= i < |d| {
        buf[i] := d[i];
      }
    }

    /** The select that closes closeChan unless it is closed already, and the delete after it. */
    method Unlist(x: SessionObject, ghost v: Session)
      requires x.Shows(v)
      modifies this`sessions, x
      ensures sessions == old(sessions) - {x.key}
      ensures !x.chanOpen && x.Shows(CloseChan(v, now))
    {
      if x.chanOpen {
        x.chanOpen := false;
      }
      sessions := sessions - {x.key};
    }

    /** removeSession and closeSession, which run with the mutex held. */
    method RemoveSession(x: SessionObject)
      requires Valid() && x in started
      modifies this`sessions, this`state, x
      ensures Valid() && state == Remove(old(state), x.id)
    {
      ghost var v := state.sessions[x.id];
      state := Remove(state, x.id);
      if x.key in sessions && sessions[x.key] == x {
        Unlist(x, v);
      }
    }

    /** The sweep of `was` has visited every listed source outside `todo`. */
    ghost predicate MidSweep(was: State, t: int, todo: set<string>)
      requires Bounded(was)
      reads this`sessions, this`started, started
    {
      SessionsShow(AfterVisits(was, t, todo)) && TableShows(Remaining(was, t, todo))
    }

    /** The body of the reaper's loop, for one entry of the map. */
    method VisitEntry(k: string, t: int, ghost was: State, ghost todo: set<string>)
      requires Bounded(was) && TableOk(was) && now == was.now && timeout == was.timeout
      requires k in todo && k in was.table && MidSweep(was, t, todo)
      modifies this`sessions, started
      ensures MidSweep(was, t, todo - {k})
    {
      VisitOne(was, t, todo, k);
      var x := sessions[k];
      if t - x.lastActive >= timeout {
        Unlist(x, was.sessions[x.id]);
      }
    }

    /** The reaper's loop: it deletes from the map while walking over it, in any order. */
    method DeleteExpired(t: int, ghost was: State)
      requires Bounded(was) && TableOk(was) && now == was.now && timeout == was.timeout
      requires SessionsShow(was.sessions) && TableShows(was.table)
      modifies this`sessions, started
      ensures MidSweep(was, t, {})
    {
      var todo := sessions.Keys;
      SweepStartsWithAll(was, t);
      while todo != {}
        invariant todo <= was.table.Keys && MidSweep(was, t, todo)
        decreases todo
      {
        var k :| k in todo;
        VisitEntry(k, t, was, todo);
        todo := todo - {k};
      }
    }

    /** One tick of the reaper, as a whole. */
    method SweepPass(t: int)
      requires Valid() && TableOk(state)
      modifies this`sessions, this`nextSweep, this`state, started
      ensures Valid() && state == SweepTable(old(state), t)
    {
      DeleteExpired(t, state);
      SweepIsVisitingAll(state, t);
      nextSweep := nextSweep + SWEEP_PERIOD;
      state := SweepTable(state, t);
    }

    /** A write of lastActive, under the lock or outside it: one atomic step either way. */
    method Refresh(x: SessionObject)
      requires Valid() && x in started
      modifies this`state, x
      ensures Valid() && state == Noted(old(state), x.id)
    {
      x.lastActive := now;
      state := Noted(state, x.id);
    }

    /** A session object for a new source; its goroutine starts at `pc`. */
    method NewSessionObject(src: string, pc: Handler) returns (x: SessionObject)
      requires Valid()
      modifies this`started, this`state
      ensures Valid() && fresh(x) && x.key == src && x.id == |old(started)| && started == old(started) + [x]
      ensures state == old(state).(sessions := old(state).sessions + [NewSession(src, now, pc)])
    {
      x := new SessionObject(|started|, src, now, pc);
      started := started + [x];
      state := state.(sessions := state.sessions + [NewSession(src, now, pc)]);
    }

    method MoveReader(r: Reader)
      requires Valid() && ReaderBounded(r, |started|)
      modifies this`reader, this`state
      ensures Valid() && state == old(state).(reader := r)
    {
      reader := r;
      state := state.(reader := r);
    }

    method SetEntry(src: string, x: SessionObject)
      requires Valid() && x in started
      modifies this`sessions, this`state
      ensures Valid() && state == old(state).(table := old(state).table[src := x.id])
    {
      sessions := sessions[src := x];
      state := state.(table := state.table[src := x.id]);
    }

    /** getOrCreateSession: lookup and insert in one critical section. */
    method GetOrCreate(dialed: bool)
      requires Valid() && reader.Received?
      modifies this`started, this`sessions, this`reader, this`state, started
      ensures Valid() && Extended(old(started)) && forall i | |old(started)| <= i < |started| :: fresh(started[i])
      ensures state == FindOrCreateStep(old(state), dialed)
    {
      var src, n := reader.src, reader.n;
      if src in sessions {
        var x := sessions[src];
        Refresh(x);
        MoveReader(Holding(x.id, n));
      } else if !dialed {
        MoveReader(Waiting);
      } else {
        var x := AddSession(src);
        MoveReader(Holding(x.id, n));
      }
    }

    /** Make a session for a source without one and list it; its goroutine may start at once. */
    method AddSession(src: string) returns (x: SessionObject)
      requires Valid()
      modifies this`started, this`sessions, this`state
      ensures Valid() && fresh(x) && x.id == |old(started)| && started == old(started) + [x]
      ensures state == old(state).(table := old(state).table[src := |old(started)|],
                                   sessions := old(state).sessions + [NewSession(src, now, Checking)])
    {
      x := NewSessionObject(src, Checking);
      SetEntry(src, x);
    }

    /** The tunnel's first critical section. */
    method LookUp()
      requires Valid() && reader.Received?
      modifies this`reader, this`state, started
      ensures Valid() && state == LookupStep(old(state))
    {
      var src, n := reader.src, reader.n;
      if src in sessions {
        var x := sessions[src];
        Refresh(x);
        MoveReader(Sending(x.id, n));
      } else {
        MoveReader(Missed(src, n));
      }
    }

    /** Dial the target and make the session, outside the lock. */
    method BuildSession(dialed: bool)
      requires Valid() && reader.Missed?
      modifies this`started, this`reader, this`state
      ensures Valid() && Extended(old(started)) && forall i | |old(started)| <= i < |started| :: fresh(started[i])
      ensures state == BuildStep(old(state), dialed)
    {
      var src, n := reader.src, reader.n;
      if dialed {
        var x := NewSessionObject(src, NotStarted);
        MoveReader(Built(src, n, x.id));
      } else {
        MoveReader(Waiting);
      }
    }

    /** The tunnel's second critical section, and the go statement after it. */
    method InsertSession()
      requires Valid() && reader.Built?
      modifies this`sessions, this`reader, this`state, started
      ensures Valid() && state == InsertStep(old(state))
    {
      var x, src, n := started[reader.sid], reader.src, reader.n;
      SetEntry(src, x);
      SetHandler(x, Checking);
      MoveReader(Sending(x.id, n));
    }

    /** Write buf[:n] to the session's connection, which succeeds only if that is still open. */
    method WriteBuffer(ok: bool)
      requires Valid() && reader.Sending?
      modifies this`reader, this`written, this`state
      ensures Valid() && state == SendStep(old(state), ok)
    {
      var x, n := started[reader.sid], reader.n;
      if ok && x.connOpen {
        written := written + [Forward(x.id, x.key, count - 1, buf[..n])];
      }
      reader := Waiting;
      state := SendStep(state, ok);
    }

    method SetHandler(x: SessionObject, pc: Handler)
      requires Valid() && x in started
      modifies this`state, x
      ensures Valid() && state == SetPc(old(state), x.id, pc)
    {
      x.pc := pc;
      state := SetPc(state, x.id, pc);
    }

    method HangUp(x: SessionObject)
      requires Valid() && x in started
      modifies this`state, x
      ensures Valid()
      ensures var v := old(state).sessions; state == old(state).(sessions := v[x.id := CloseConn(v[x.id])])
    {
      x.connOpen := false;
      state := state.(sessions := state.sessions[x.id := CloseConn(state.sessions[x.id])]);
    }

    /** The deferred calls, in the order of each file. */
    method TearDown(x: SessionObject)
      requires Valid() && x in started && Deferred(x.pc)
      modifies this`sessions, this`state, x
      ensures Valid() && state == HandlerStep(kind, old(state), x.id, Ok)
    {
      var next := if x.pc.Leaving? then LeavingLate else Finished;
      if x.pc.Leaving? == kind.Proxy? {
        RemoveSession(x);
      } else {
        HangUp(x);
      }
      SetHandler(x, next);
    }

    /** One step of the reply goroutine of the i-th session made. */
    method RunHandler(i: nat, o: Outcome)
      requires Valid() && i < |started|
      modifies this`sessions, this`state, started
      ensures Valid() && state == HandlerStep(kind, old(state), i, o)
    {
      var x := started[i];
      if Deferred(x.pc) {
        TearDown(x);
      } else {
        x.LoopStep(kind, o, now, timeout, state.sessions[i]);
        state := HandlerStep(kind, state, i, o);
      }
    }

    /** The reader at its socket: a datagram is read into the buffer, or the loop ends. */
    method RunSocket(a: Action)
      requires Valid() && (a.Receive? || a.Misread? || a.Return?)
      modifies this`reader, this`count, this`state, buf
      ensures Valid() && state == ReaderStep(kind, old(state), a)
    {
      if a.Receive? {
        if reader.Waiting? {
          TakeDatagram(a.data);
          count := count + 1;
          reader := Received(a.src, |a.data|);
        }
      } else if a.Misread? {
        if kind.Tunnel? && reader.Waiting? { TakeDatagram(a.data); }
      } else if reader.Waiting? {
        reader := Returned;
      }
      state := ReaderStep(kind, state, a);
    }

    /** The proxy's second write of lastActive, outside the lock. */
    method RunRefresh()
      requires Valid()
      modifies this`reader, this`state, started
      ensures Valid() && state == ReaderStep(kind, old(state), UdpModel.Refresh)
    {
      if reader.Holding? {
        var i, n := reader.sid, reader.n;
        Refresh(started[i]);
        MoveReader(Sending(i, n));
      }
    }

    /** One step of the reader goroutine, if it stands where the action belongs. */
    method RunReader(a: Action)
      requires Valid() && !a.Sweep? && !a.StopReaper? && !a.Handle? && !a.Advance?
      modifies this`started, this`sessions, this`reader, this`count, this`written, this`state, started, buf
      ensures Valid() && Extended(old(started)) && forall i | |old(started)| <= i < |started| :: fresh(started[i])
      ensures state == ReaderStep(kind, old(state), a)
    {
      if a.Receive? || a.Misread? || a.Return? {
        RunSocket(a);
      } else if a.Refresh? {
        RunRefresh();
      } else {
        RunCriticalSection(a);
      }
    }

    method RunCriticalSection(a: Action)
      requires Valid() && (a.FindOrCreate? || a.Lookup? || a.Build? || a.Insert? || a.Send?)
      modifies this`started, this`sessions, this`reader, this`written, this`state, started
      ensures Valid() && Extended(old(started)) && forall i | |old(started)| <= i < |started| :: fresh(started[i])
      ensures state == ReaderStep(kind, old(state), a)
    {
      if a.FindOrCreate? {
        if kind.Proxy? && reader.Received? { GetOrCreate(a.dialed); }
      } else if a.Lookup? {
        if kind.Tunnel? && reader.Received? { LookUp(); }
      } else if a.Build? {
        if reader.Missed? { BuildSession(a.dialed); }
      } else if a.Insert? {
        if reader.Built? { InsertSession(); }
      } else if reader.Sending? {
        WriteBuffer(a.ok);
      }
    }

    /** One step of the reaper. */
    method RunReaper(a: Action)
      requires Valid() && TableOk(state) && (a.Sweep? || a.StopReaper?)
      modifies this`sessions, this`nextSweep, this`reaper, this`state, started
      ensures Valid() && state == Step(kind, old(state), a)
    {
      if a.StopReaper? {
        reaper := false;
        state := state.(reaper := false);
      } else if reaper {
        SweepPass(a.t);
      }
    }

    method Tick(dt: nat)
      requires Valid()
      modifies this`now, this`state
      ensures Valid() && state == Step(kind, old(state), Advance(dt))
    {
      now := now + dt;
      state := state.(now := now);
    }

    /** One turn of whichever goroutine the action belongs to. */
    method Perform(a: Action)
      requires Valid() && TableOk(state)
      modifies this, started, buf
      ensures Valid() && state == Step(kind, old(state), a)
      ensures Extended(old(started)) && forall i | |old(started)| <= i < |started| :: fresh(started[i])
    {
      match a
      case Sweep(_) => RunReaper(a);
      case StopReaper => RunReaper(a);
      case Handle(i, o) => if i < |started| { RunHandler(i, o); }
      case Advance(dt) => Tick(dt);
      case _ => RunReader(a);
    }

    /** The whole program under a schedule: exactly a run of the transition system. */
    method Execute(schedule: seq<Action>)
      requires Valid() && Inv(kind, state)
      modifies this, started, buf
      ensures Valid() && Inv(kind, state) && state == Run(kind, old(state), schedule)
    {
      for k := 0 to |schedule|
        invariant Valid() && Inv(kind, state) && state == Run(kind, old(state), schedule[..k])
        invariant Extended(old(started)) && forall i | |old(started)| <= i < |started| :: fresh(started[i])
      {
        StepKeepsInv(kind, state, schedule[k]);
        Perform(schedule[k]);
        assert schedule[..k + 1][..k] == schedule[..k];
      }
      assert schedule[..|schedule|] == schedule;
    }
  }

  function Noted(s: State, i: nat): State
    requires i < |s.sessions|
  {
    s.(sessions := s.sessions[i := s.sessions[i].(lastActive := s.now)])
  }

  /** The sessions and the table once every listed source outside `todo` has been visited. */
  ghost function AfterVisits(s: State, t: int, todo: set<string>): (v: seq<Session>)
    requires Bounded(s)
    ensures |v| == |s.sessions|
  {
    seq(|s.sessions|, i requires 0 <= i < |s.sessions| =>
      if Listed(s, i) && s.sessions[i].key !in todo && Expired(s.sessions[i], t, s.timeout)
      then CloseChan(s.sessions[i], s.now) else s.sessions[i])
  }

  ghost function Remaining(s: State, t: int, todo: set<string>): map<string, nat>
    requires Bounded(s)
  {
    map k | k in s.table && (k in todo || !Expired(s.sessions[s.table[k]], t, s.timeout)) :: s.table[k]
  }

  lemma SweepStartsWithAll(s: State, t: int)
    requires Bounded(s) && TableOk(s)
    ensures AfterVisits(s, t, s.table.Keys) == s.sessions
    ensures Remaining(s, t, s.table.Keys) == s.table
  {
  }

  lemma VisitOne(s: State, t: int, todo: set<string>, k: string)
    requires Bounded(s) && TableOk(s) && k in todo && k in s.table
    ensures var i, v, r := s.table[k], AfterVisits(s, t, todo), Remaining(s, t, todo);
            && v[i] == s.sessions[i] && k in r && r[k] == i
            && AfterVisits(s, t, todo - {k}) ==
                 (if Expired(s.sessions[i], t, s.timeout) then v[i := CloseChan(s.sessions[i], s.now)] else v)
            && Remaining(s, t, todo - {k}) == (if Expired(s.sessions[i], t, s.timeout) then r - {k} else r)
  {
  }

  /** Whatever the order of the visits, they amount to filtering the table by age. */
  lemma SweepIsVisitingAll(s: State, t: int)
    requires Bounded(s)
    ensures SweepTable(s, t).sessions == AfterVisits(s, t, {})
    ensures SweepTable(s, t).table == Remaining(s, t, {})
  {
  }
}
