/**
  Consequences of the invariant for every schedule: at most one open session per source, no double
  close, the teardown orders of the two files, and how a told handler winds down.
 */
module UdpTheorems {
  import opened UdpModel
  import opened UdpSafety

  /** The table, the channels and the close counts in every reachable state. */
  lemma TableHoldsExactlyTheOpenSessions(kind: Kind, s: State, schedule: seq<Action>)
    requires Initial(s)
    ensures var r := Run(kind, s, schedule);
            && (forall i: nat | i < |r.sessions| ::
                  && (r.sessions[i].chanOpen <==> (Listed(r, i) || Pending(r, i)))
                  && r.sessions[i].chanCloses <= 1 && r.sessions[i].connCloses <= 1)
            && (forall k <- r.table :: r.sessions[r.table[k]].key == k)
            && (forall i: nat, j: nat | i < |r.sessions| && j < |r.sessions| && i != j
                  && r.sessions[i].chanOpen && r.sessions[j].chanOpen :: r.sessions[i].key != r.sessions[j].key)
  {
    EveryRunKeepsInv(kind, s, schedule);
  }

  /** A proxy never lists a session without its connection; a tunnel does between its two deferred calls. */
  lemma ListedSessionsAreConnected(kind: Kind, s: State, schedule: seq<Action>, i: nat)
    requires Initial(s)
    requires var r := Run(kind, s, schedule); i < |r.sessions| && Listed(r, i)
    ensures var x := Run(kind, s, schedule).sessions[i];
            && (kind.Proxy? ==> x.connOpen)
            && (kind.Tunnel? ==> (x.connOpen <==> !x.pc.LeavingLate?))
  {
    EveryRunKeepsInv(kind, s, schedule);
  }

  /**
    Between its handler's two deferred calls the tunnel does list a session with a closed
    connection; the proxy has unlisted it by then, and closes the connection only afterwards.
   */
  lemma TeardownOrders(s: State, i: nat, o: Outcome)
    requires i < |s.sessions| && s.sessions[i].pc == Leaving && s.sessions[i].connOpen
    requires Bounded(s) && Listed(s, i)
    ensures var r := Step(Tunnel, s, Handle(i, o)); Listed(r, i) && !r.sessions[i].connOpen && r.table == s.table
    ensures var r := Step(Proxy, s, Handle(i, o)); !Listed(r, i) && r.sessions[i].connOpen
  {
  }

  /** What a step that is not session i's own handler may do to session i. */
  lemma OthersLeaveHandlerAlone(kind: Kind, s: State, a: Action, i: nat)
    requires Inv(kind, s) && i < |s.sessions| && !(a.Handle? && a.sid == i)
    ensures var r := Step(kind, s, a);
            && i < |r.sessions|
            && var x, y := s.sessions[i], r.sessions[i];
               && y.key == x.key && y.connOpen == x.connOpen && y.connCloses == x.connCloses
               && y.deadline == x.deadline && y.heard == x.heard && y.replies == x.replies
               && (y.chanOpen ==> x.chanOpen)
               && (x.chanOpen && !y.chanOpen ==> y.closedAt == s.now)
               && (!x.chanOpen ==> y.closedAt == x.closedAt)
               && (y.pc == x.pc || (x.pc.NotStarted? && x.chanOpen && a.Insert?))
               && (y.lastActive == x.lastActive || y.lastActive == s.now)
  {
    if a.Handle? {
      if a.sid < |s.sessions| { OtherHandler(kind, s, a.sid, a.outcome, i); }
    } else if a.Sweep? {
      SweepLeavesHandlerAlone(s, a.t, i);
    } else {
      ReaderOnlyAdds(kind, s, a);
      ReaderFrame(kind, s, a, i);
    }
  }

  lemma SweepLeavesHandlerAlone(s: State, t: int, i: nat)
    requires Bounded(s) && i < |s.sessions|
    ensures var r := SweepTable(s, t);
            && |r.sessions| == |s.sessions|
            && (r.sessions[i] == s.sessions[i] || r.sessions[i] == CloseChan(s.sessions[i], s.now))
  {
  }

  lemma OtherHandler(kind: Kind, s: State, j: nat, o: Outcome, i: nat)
    requires Inv(kind, s) && i < |s.sessions| && j < |s.sessions| && i != j
    ensures |HandlerStep(kind, s, j, o).sessions| == |s.sessions|
    ensures HandlerStep(kind, s, j, o).sessions[i] == s.sessions[i]
  {
  }

  /** Nothing but a sweep, or its own handler, takes a session out of the table. */
  lemma OnlySweepsAndItsHandlerUnlist(kind: Kind, s: State, a: Action, i: nat)
    requires Inv(kind, s) && i < |s.sessions| && Listed(s, i) && !a.Sweep? && !(a.Handle? && a.sid == i)
    ensures var r := Step(kind, s, a); i < |r.sessions| && Listed(r, i)
  {
    if a.Handle? {
      if a.sid < |s.sessions| { OtherHandlerKeepsListed(kind, s, a.sid, a.outcome, i); }
    } else {
      ReaderOnlyAdds(kind, s, a);
      ReaderFrame(kind, s, a, i);
    }
  }

  lemma OtherHandlerKeepsListed(kind: Kind, s: State, j: nat, o: Outcome, i: nat)
    requires Inv(kind, s) && i < |s.sessions| && j < |s.sessions| && i != j && Listed(s, i)
    ensures var r := HandlerStep(kind, s, j, o); i < |r.sessions| && Listed(r, i)
  {
    OtherHandler(kind, s, j, o, i);
  }

  /** An upper bound on the steps left to a handler whose channel is closed. */
  function Rank(pc: Handler): nat {
    match pc
    case NotStarted => 9
    case Arming => 8
    case Reading => 7
    case Touching(_) => 6
    case Resolving(_) => 5
    case Replying(_) => 4
    case Checking => 3
    case Rechecking => 3
    case Leaving => 2
    case LeavingLate => 1
    case Finished => 0
  }

  lemma ToldGetsCloser(kind: Kind, x: Session, o: Outcome, now: int, timeout: int)
    requires SessionOk(kind, x) && !x.chanOpen && !x.pc.NotStarted? && !Deferred(x.pc)
    ensures var y := Proceed(kind, x, o, now, timeout);
            && ((y.pc == x.pc) <==> (x.pc.Finished? || (x.pc.Reading? && o.Ok?)))
            && (y.pc != x.pc ==> Rank(y.pc) < Rank(x.pc))
  {
  }

  /** Once told to stop, every step of the handler takes it closer to its end, assuming Read returns. */
  lemma ToldHandlerGetsCloser(kind: Kind, s: State, i: nat, o: Outcome)
    requires Inv(kind, s) && i < |s.sessions| && !s.sessions[i].chanOpen
    ensures var r := Step(kind, s, Handle(i, o));
            && |r.sessions| == |s.sessions| && !r.sessions[i].chanOpen
            && var x, y := s.sessions[i], r.sessions[i];
               && ((y.pc == x.pc) <==> (x.pc.Finished? || (x.pc.Reading? && o.Ok?)))
               && (y.pc != x.pc ==> Rank(y.pc) < Rank(x.pc))
  {
    var x := s.sessions[i];
    if Deferred(x.pc) {
    } else {
      ProceedKeepsSession(kind, x, o, s.now, s.timeout);
      ToldGetsCloser(kind, x, o, s.now, s.timeout);
    }
  }

  /** How many steps session i's handler really takes along a schedule. */
  function Moves(kind: Kind, s: State, schedule: seq<Action>, i: nat): nat
    requires Bounded(s)
  {
    if schedule == [] then 0
    else
      var before := schedule[..|schedule| - 1];
      var m, r := Run(kind, s, before), Run(kind, s, schedule);
      Moves(kind, s, before, i) +
      if i < |m.sessions| && i < |r.sessions| && m.sessions[i].pc != r.sessions[i].pc then 1 else 0
  }

  /**
    From the moment closeChan is closed the handler, whatever else runs, takes at most Rank(pc)
    more steps; taking them all means it has finished.  It starts at most one more Read and
    forwards at most one more datagram.
   */
  lemma {:induction false} ToldHandlerWindsDown(kind: Kind, s: State, schedule: seq<Action>, i: nat)
    requires Inv(kind, s) && i < |s.sessions| && !s.sessions[i].chanOpen
    ensures var r := Run(kind, s, schedule);
            && Inv(kind, r) && i < |r.sessions| && !r.sessions[i].chanOpen
            && Rank(r.sessions[i].pc) + Moves(kind, s, schedule, i) <= Rank(s.sessions[i].pc)
            && r.sessions[i].lateReads <= 1 && r.sessions[i].lateReplies <= 1
  {
    if schedule != [] {
      var before, a := schedule[..|schedule| - 1], schedule[|schedule| - 1];
      ToldHandlerWindsDown(kind, s, before, i);
      var m := Run(kind, s, before);
      StepKeepsInv(kind, m, a);
      if a.Handle? && a.sid == i {
        ToldHandlerGetsCloser(kind, m, i, a.outcome);
      } else {
        OthersLeaveHandlerAlone(kind, m, a, i);
      }
    }
  }

  /** Different places in the schedule, in order, at which session i's handler moves. */
  ghost predicate MovesAt(kind: Kind, s: State, schedule: seq<Action>, i: nat, at: seq<nat>)
    requires Bounded(s)
  {
    && (forall j, k | 0 <= j < k < |at| :: at[j] < at[k])
    && forall j | 0 <= j < |at| :: at[j] < |schedule| && MovesNow(kind, s, schedule, i, at[j])
  }

  ghost predicate MovesNow(kind: Kind, s: State, schedule: seq<Action>, i: nat, k: nat)
    requires Bounded(s) && k < |schedule|
  {
    var m, r := Run(kind, s, schedule[..k]), Run(kind, s, schedule[..k + 1]);
    i < |m.sessions| && i < |r.sessions| && m.sessions[i].pc != r.sessions[i].pc
  }

  lemma {:induction false} PlacesAreMoves(kind: Kind, s: State, schedule: seq<Action>, i: nat, at: seq<nat>)
    requires Bounded(s) && MovesAt(kind, s, schedule, i, at)
    ensures |at| <= Moves(kind, s, schedule, i)
  {
    if at != [] {
      var n, last := |at| - 1, |schedule| - 1;
      assert at[n] <= last;
      var before := schedule[..last];
      LastMove(kind, s, schedule, i);
      if at[n] == last {
        MovesBefore(kind, s, schedule, i, at[..n]);
        PlacesAreMoves(kind, s, before, i, at[..n]);
        assert MovesNow(kind, s, schedule, i, last);
      } else {
        assert forall j | 0 <= j <= n :: at[j] <= at[n];
        MovesBefore(kind, s, schedule, i, at);
        PlacesAreMoves(kind, s, before, i, at);
      }
    }
  }

  lemma LastMove(kind: Kind, s: State, schedule: seq<Action>, i: nat)
    requires Bounded(s) && schedule != []
    ensures Moves(kind, s, schedule, i) ==
            Moves(kind, s, schedule[..|schedule| - 1], i) +
            if MovesNow(kind, s, schedule, i, |schedule| - 1) then 1 else 0
  {
    assert schedule[..|schedule|] == schedule;
  }

  lemma MovesBefore(kind: Kind, s: State, schedule: seq<Action>, i: nat, at: seq<nat>)
    requires Bounded(s) && MovesAt(kind, s, schedule, i, at) && schedule != []
    requires forall j | 0 <= j < |at| :: at[j] < |schedule| - 1
    ensures MovesAt(kind, s, schedule[..|schedule| - 1], i, at)
  {
    var before := schedule[..|schedule| - 1];
    forall j | 0 <= j < |at| ensures MovesNow(kind, s, before, i, at[j]) {
      assert MovesNow(kind, s, schedule, i, at[j]);
      assert before[..at[j]] == schedule[..at[j]] && before[..at[j] + 1] == schedule[..at[j] + 1];
    }
  }

  /** In plain numbers: a handler told to stop moves at most nine more times, in any schedule. */
  lemma ToldHandlerMovesNineTimesAtMost(kind: Kind, s: State, schedule: seq<Action>, i: nat, at: seq<nat>)
    requires Inv(kind, s) && i < |s.sessions| && !s.sessions[i].chanOpen
    requires MovesAt(kind, s, schedule, i, at)
    ensures |at| <= 9
  {
    PlacesAreMoves(kind, s, schedule, i, at);
    ToldHandlerWindsDown(kind, s, schedule, i);
  }

  /** Only the session's own handler closes its connection, in either file. */
  lemma OnlyItsHandlerClosesAConnection(kind: Kind, s: State, a: Action, i: nat)
    requires Inv(kind, s) && i < |s.sessions| && s.sessions[i].connOpen
    requires var r := Step(kind, s, a); i < |r.sessions| ==> !r.sessions[i].connOpen
    ensures a.Handle? && a.sid == i
    ensures s.sessions[i].pc == if kind.Proxy? then LeavingLate else Leaving
  {
    if !(a.Handle? && a.sid == i) {
      OthersLeaveHandlerAlone(kind, s, a, i);
    } else {
      var pc := s.sessions[i].pc;
      if !Deferred(pc) {
        ProceedKeepsSession(kind, s.sessions[i], a.outcome, s.now, s.timeout);
      }
    }
  }
}
