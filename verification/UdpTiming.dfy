/**
  Timed eviction.  The assumptions on the environment are a predicate on actions: sweeps happen
  on the tick and at once, `done` stays open, and time passes only while every goroutine is
  blocked in a Read, which returns by its deadline.
 */
module UdpTiming {
  import opened UdpModel
  import opened UdpSafety
  import opened UdpTheorems

  /** Nothing but a Read holds this goroutine up until the given time. */
  predicate BlockedUntil(x: Session, t: int) {
    x.pc.Finished? || (x.pc.Reading? && t <= x.deadline)
  }

  predicate Timely(s: State, a: Action) {
    match a
    case Sweep(t) => t == s.now == s.nextSweep
    case StopReaper => false
    case Advance(dt) =>
      && s.now + dt <= s.nextSweep && (s.reader.Waiting? || s.reader.Returned?)
      && (forall x <- s.sessions :: BlockedUntil(x, s.now + dt))
    case _ => true
  }

  ghost predicate TimelyRun(kind: Kind, s: State, schedule: seq<Action>)
    requires Bounded(s)
  {
    schedule == [] || (
      var before := schedule[..|schedule| - 1];
      TimelyRun(kind, s, before) && Timely(Run(kind, s, before), schedule[|schedule| - 1]))
  }

  /** What time adds to one session's invariant; `swept` is the time of the last sweep. */
  ghost predicate SessionTimed(x: Session, now: int, swept: int, timeout: int) {
    && x.lastActive <= now
    && (x.chanOpen ==> swept - timeout < x.lastActive)
    && (x.pc.Reading? ==> now <= x.deadline <= now + READ_DEADLINE)
    && (!x.chanOpen ==> x.closedAt <= now)
    && (!x.chanOpen && x.pc.Arming? ==> x.closedAt == now)
    && (!x.chanOpen && x.pc.Reading? ==> x.deadline <= x.closedAt + READ_DEADLINE)
    && (!x.chanOpen && !x.pc.Finished? ==> now <= x.closedAt + READ_DEADLINE)
  }

  ghost predicate TimedInv(kind: Kind, s: State) {
    && Inv(kind, s) && s.reaper && s.timeout > 0
    && s.nextSweep - SWEEP_PERIOD <= s.now <= s.nextSweep
    && (forall i: nat | i < |s.sessions| && Pending(s, i) :: s.sessions[i].lastActive == s.now)
    && forall i | 0 <= i < |s.sessions| ::
         SessionTimed(s.sessions[i], s.now, s.nextSweep - SWEEP_PERIOD, s.timeout)
  }

  lemma ProceedKeepsTime(kind: Kind, x: Session, o: Outcome, now: int, swept: int, timeout: int)
    requires SessionTimed(x, now, swept, timeout) && swept <= now && timeout > 0
    ensures SessionTimed(Proceed(kind, x, o, now, timeout), now, swept, timeout)
  {
  }

  /** Replacing one session by one that keeps time keeps the whole. */
  lemma ReplaceKeepsTime(kind: Kind, s: State, r: State, i: nat)
    requires TimedInv(kind, s) && Inv(kind, r) && i < |s.sessions| == |r.sessions|
    requires r == s.(table := r.table, sessions := s.sessions[i := r.sessions[i]])
    requires SessionTimed(r.sessions[i], s.now, s.nextSweep - SWEEP_PERIOD, s.timeout) && !Pending(s, i)
    ensures TimedInv(kind, r)
  {
  }

  lemma HandlerKeepsTime(kind: Kind, s: State, i: nat, o: Outcome)
    requires TimedInv(kind, s) && i < |s.sessions|
    ensures TimedInv(kind, HandlerStep(kind, s, i, o))
  {
    var x, r := s.sessions[i], HandlerStep(kind, s, i, o);
    HandlerKeepsInv(kind, s, i, o);
    if x.pc.NotStarted? {
      assert s.sessions[i := x] == s.sessions;
    } else {
      if !Deferred(x.pc) {
        ProceedKeepsTime(kind, x, o, s.now, s.nextSweep - SWEEP_PERIOD, s.timeout);
      }
      ReplaceKeepsTime(kind, s, r, i);
    }
  }

  lemma SweepKeepsTime(kind: Kind, s: State)
    requires TimedInv(kind, s) && s.now == s.nextSweep
    ensures TimedInv(kind, SweepTable(s, s.now))
  {
    SweepKeepsInv(kind, s, s.now);
    var r := SweepTable(s, s.now);
    forall i | 0 <= i < |s.sessions|
      ensures SessionTimed(r.sessions[i], s.now, s.now, s.timeout)
    {
      assert SessionTimed(s.sessions[i], s.now, s.nextSweep - SWEEP_PERIOD, s.timeout);
    }
  }

  lemma ReaderKeepsTime(kind: Kind, s: State, a: Action)
    requires TimedInv(kind, s)
    ensures TimedInv(kind, ReaderStep(kind, s, a))
  {
    ReaderKeepsInv(kind, s, a);
    var r := ReaderStep(kind, s, a);
    ReaderKeepsClock(kind, s, a);
    forall i: nat | i < |r.sessions|
      ensures SessionTimed(r.sessions[i], s.now, s.nextSweep - SWEEP_PERIOD, s.timeout)
      ensures Pending(r, i) ==> r.sessions[i].lastActive == s.now
    {
      ReaderFrame(kind, s, a, i);
      if i < |s.sessions| {
        assert SessionTimed(s.sessions[i], s.now, s.nextSweep - SWEEP_PERIOD, s.timeout);
      }
    }
  }

  lemma ReaderKeepsClock(kind: Kind, s: State, a: Action)
    requires Bounded(s)
    ensures var r := ReaderStep(kind, s, a);
            && r.now == s.now && r.timeout == s.timeout && r.reaper == s.reaper && r.nextSweep == s.nextSweep
            && forall i: nat :: i < |s.sessions| && Pending(r, i) ==> Pending(s, i)
  {
  }

  lemma StepKeepsTime(kind: Kind, s: State, a: Action)
    requires TimedInv(kind, s) && Timely(s, a)
    ensures TimedInv(kind, Step(kind, s, a))
  {
    match a
    case Sweep(_) => SweepKeepsTime(kind, s);
    case Handle(i, o) => if i < |s.sessions| { HandlerKeepsTime(kind, s, i, o); }
    case Advance(dt) =>
      forall i | 0 <= i < |s.sessions|
        ensures SessionTimed(s.sessions[i], s.now + dt, s.nextSweep - SWEEP_PERIOD, s.timeout)
      {
        assert s.sessions[i] in s.sessions;
      }
    case _ => ReaderKeepsTime(kind, s, a);
  }

  lemma {:induction false} EveryTimelyRunKeepsTime(kind: Kind, s: State, schedule: seq<Action>)
    requires Initial(s) && s.timeout > 0 && TimelyRun(kind, s, schedule)
    ensures TimedInv(kind, Run(kind, s, schedule))
  {
    if schedule != [] {
      var before := schedule[..|schedule| - 1];
      EveryTimelyRunKeepsTime(kind, s, before);
      StepKeepsTime(kind, Run(kind, s, before), schedule[|schedule| - 1]);
    }
  }

  /**
    A session last active at L that its handler does not remove first leaves the table at a sweep,
    at a time t with L + timeout <= t < L + timeout + 10 s, and no sweep in that window spares it.
   */
  lemma EvictionIsTimely(kind: Kind, s: State, schedule: seq<Action>, a: Action, i: nat)
    requires Initial(s) && s.timeout > 0 && TimelyRun(kind, s, schedule)
    requires var r := Run(kind, s, schedule);
             i < |r.sessions| && Listed(r, i) && Timely(r, a) && !(a.Handle? && a.sid == i)
    ensures var r := Run(kind, s, schedule);
            var L, q := r.sessions[i].lastActive, Step(kind, r, a);
            && r.now < L + s.timeout + SWEEP_PERIOD && i < |q.sessions|
            && (!Listed(q, i) <==> a.Sweep? && L + s.timeout <= r.now)
            && (!Listed(q, i) ==> !q.sessions[i].chanOpen && q.sessions[i].closedAt == r.now)
  {
    EveryTimelyRunKeepsTime(kind, s, schedule);
    RunKeepsTimeout(kind, s, schedule);
    var r := Run(kind, s, schedule);
    assert SessionTimed(r.sessions[i], r.now, r.nextSweep - SWEEP_PERIOD, r.timeout);
    if !a.Sweep? {
      OnlySweepsAndItsHandlerUnlist(kind, r, a, i);
    }
  }

  /** Once a session's channel has been closed, its connection is closed at most 5 s later. */
  lemma ConnectionsCloseInTime(kind: Kind, s: State, schedule: seq<Action>, i: nat)
    requires Initial(s) && s.timeout > 0 && TimelyRun(kind, s, schedule)
    requires i < |Run(kind, s, schedule).sessions|
    ensures var r := Run(kind, s, schedule);
            !r.sessions[i].chanOpen && r.now > r.sessions[i].closedAt + READ_DEADLINE ==>
            !r.sessions[i].connOpen && r.sessions[i].pc.Finished?
  {
    EveryTimelyRunKeepsTime(kind, s, schedule);
    var r := Run(kind, s, schedule);
    assert SessionTimed(r.sessions[i], r.now, r.nextSweep - SWEEP_PERIOD, r.timeout);
    assert SessionOk(kind, r.sessions[i]);
  }

  lemma {:induction false} RunKeepsTimeout(kind: Kind, s: State, schedule: seq<Action>)
    requires Bounded(s)
    ensures Run(kind, s, schedule).timeout == s.timeout
  {
    if schedule != [] {
      var before, a := schedule[..|schedule| - 1], schedule[|schedule| - 1];
      RunKeepsTimeout(kind, s, before);
      StepKeepsTimeout(kind, Run(kind, s, before), a);
    }
  }
}
