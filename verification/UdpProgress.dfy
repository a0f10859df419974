/**
  The timing assumptions never block the program: from every state of a timely run the run can go on,
  timely, to any later time; with nothing arriving and every Read timing out, if the reader is at rest.
 */
module UdpProgress {
  import opened UdpModel
  import opened UdpSafety
  import opened UdpTiming

  lemma {:induction false} RunAppend(kind: Kind, s: State, a: seq<Action>, b: seq<Action>)
    requires Bounded(s)
    ensures Run(kind, s, a + b) == Run(kind, Run(kind, s, a), b)
    ensures TimelyRun(kind, s, a) && TimelyRun(kind, Run(kind, s, a), b) ==> TimelyRun(kind, s, a + b)
    decreases |b|
  {
    if b == [] {
      assert a + b == a;
    } else {
      assert (a + b)[..|a + b| - 1] == a + b[..|b| - 1];
      RunAppend(kind, s, a, b[..|b| - 1]);
    }
  }

  lemma RunOne(kind: Kind, s: State, a: Action)
    requires Bounded(s)
    ensures Run(kind, s, [a]) == Step(kind, s, a)
    ensures TimelyRun(kind, s, [a]) <==> Timely(s, a)
  {
    assert [a][..0] == [];
  }

  lemma StepThen(kind: Kind, s: State, a: Action, rest: seq<Action>)
    requires Bounded(s) && Timely(s, a) && TimelyRun(kind, Step(kind, s, a), rest)
    ensures TimelyRun(kind, s, [a] + rest) && Run(kind, s, [a] + rest) == Run(kind, Step(kind, s, a), rest)
  {
    RunOne(kind, s, a);
    RunAppend(kind, s, [a], rest);
  }

  /** What goes on while nothing arrives: sweeps, Reads that time out, and the passing of time. */
  predicate Idle(a: Action) {
    a.Sweep? || a.Advance? || (a.Handle? && a.outcome.Timeout?)
  }

  predicate AllIdle(schedule: seq<Action>) {
    forall a <- schedule :: Idle(a)
  }

  lemma {:induction false} IdleKeepsReader(kind: Kind, s: State, schedule: seq<Action>)
    requires Bounded(s) && AllIdle(schedule)
    ensures Run(kind, s, schedule).reader == s.reader
  {
    if schedule != [] {
      var before, a := schedule[..|schedule| - 1], schedule[|schedule| - 1];
      IdleKeepsReader(kind, s, before);
      assert Idle(a);
      IdleStepKeepsReader(kind, Run(kind, s, before), a);
    }
  }

  lemma IdleStepKeepsReader(kind: Kind, s: State, a: Action)
    requires Bounded(s) && Idle(a)
    ensures Step(kind, s, a).reader == s.reader
  {
  }

  predicate AtRest(s: State) {
    s.reader.Waiting? || s.reader.Returned?
  }

  function ReaderRank(r: Reader): nat {
    match r
    case Received(_, _) => 3
    case Missed(_, _) => 2
    case Built(_, _, _) => 2
    case Holding(_, _) => 2
    case Sending(_, _) => 1
    case _ => 0
  }

  /** What takes the reader on from where it stands, should every call fail that can. */
  function NextOf(kind: Kind, r: Reader): Action {
    match r
    case Received(_, _) => if kind.Proxy? then FindOrCreate(false) else Lookup
    case Missed(_, _) => Build(false)
    case Built(_, _, _) => Insert
    case Holding(_, _) => Refresh
    case _ => Send(false)
  }

  lemma ReaderComesCloser(kind: Kind, s: State)
    requires Bounded(s) && !AtRest(s)
    ensures var r := Step(kind, s, NextOf(kind, s.reader));
            ReaderRank(r.reader) < ReaderRank(s.reader) && r.now == s.now && r.nextSweep == s.nextSweep
  {
  }

  lemma {:induction false} ReaderComesToRest(kind: Kind, s: State) returns (schedule: seq<Action>)
    requires TimedInv(kind, s)
    ensures TimelyRun(kind, s, schedule)
    ensures AtRest(s) ==> schedule == []
    ensures var r := Run(kind, s, schedule);
            TimedInv(kind, r) && AtRest(r) && r.now == s.now && r.nextSweep == s.nextSweep
    decreases ReaderRank(s.reader)
  {
    if AtRest(s) {
      schedule := [];
    } else {
      var a := NextOf(kind, s.reader);
      ReaderComesCloser(kind, s);
      StepKeepsTime(kind, s, a);
      var rest := ReaderComesToRest(kind, Step(kind, s, a));
      StepThen(kind, s, a, rest);
      schedule := [a] + rest;
    }
  }

  /** Steps left until the handler is blocked in a fresh Read, or has finished. */
  function SettleRank(pc: Handler): nat {
    match pc
    case NotStarted => 9
    case Touching(_) => 8
    case Resolving(_) => 7
    case Replying(_) => 6
    case Reading => 5
    case Rechecking => 4
    case Checking => 3
    case Arming => 2
    case Leaving => 2
    case LeavingLate => 1
    case Finished => 0
  }

  lemma ProceedSettles(kind: Kind, x: Session, now: int, timeout: int)
    requires timeout > 0 && !Deferred(x.pc) && !x.pc.NotStarted? && !BlockedUntil(x, now + 1)
    ensures var y := Proceed(kind, x, Timeout, now, timeout);
            BlockedUntil(y, now + 1) || SettleRank(y.pc) < SettleRank(x.pc)
  {
  }

  lemma HandlerSettles(kind: Kind, s: State, i: nat)
    requires Bounded(s) && i < |s.sessions| && s.timeout > 0
    requires !s.sessions[i].pc.NotStarted? && !BlockedUntil(s.sessions[i], s.now + 1)
    ensures var r := HandlerStep(kind, s, i, Timeout);
            && (BlockedUntil(r.sessions[i], s.now + 1) || SettleRank(r.sessions[i].pc) < SettleRank(s.sessions[i].pc))
            && r == s.(table := r.table, sessions := s.sessions[i := r.sessions[i]])
  {
    if !Deferred(s.sessions[i].pc) {
      ProceedSettles(kind, s.sessions[i], s.now, s.timeout);
    }
  }

  lemma {:induction false} HandlerComesToRest(kind: Kind, s: State, i: nat) returns (schedule: seq<Action>)
    requires TimedInv(kind, s) && AtRest(s) && i < |s.sessions|
    ensures TimelyRun(kind, s, schedule)
    ensures AllIdle(schedule)
    ensures var r := Run(kind, s, schedule);
            && TimedInv(kind, r) && |r.sessions| == |s.sessions| && BlockedUntil(r.sessions[i], s.now + 1)
            && r == s.(table := r.table, sessions := s.sessions[i := r.sessions[i]])
    decreases if BlockedUntil(s.sessions[i], s.now + 1) then 0 else SettleRank(s.sessions[i].pc) + 1
  {
    if BlockedUntil(s.sessions[i], s.now + 1) {
      schedule := [];
      assert s.sessions[i := s.sessions[i]] == s.sessions;
    } else {
      var a := Handle(i, Timeout);
      HandlerSettles(kind, s, i);
      StepKeepsTime(kind, s, a);
      var rest := HandlerComesToRest(kind, Step(kind, s, a), i);
      StepThen(kind, s, a, rest);
      schedule := [a] + rest;
    }
  }

  lemma {:induction false} HandlersComeToRest(kind: Kind, s: State, n: nat) returns (schedule: seq<Action>)
    requires TimedInv(kind, s) && AtRest(s) && n <= |s.sessions|
    ensures TimelyRun(kind, s, schedule)
    ensures AllIdle(schedule)
    ensures var r := Run(kind, s, schedule);
            && TimedInv(kind, r) && |r.sessions| == |s.sessions| && r.reader == s.reader
            && r.now == s.now && r.nextSweep == s.nextSweep
            && forall i | 0 <= i < n :: BlockedUntil(r.sessions[i], s.now + 1)
    decreases n
  {
    if n == 0 {
      schedule := [];
    } else {
      var first := HandlersComeToRest(kind, s, n - 1);
      var m := Run(kind, s, first);
      var second := HandlerComesToRest(kind, m, n - 1);
      RunAppend(kind, s, first, second);
      schedule := first + second;
    }
  }

  lemma SweepIfDue(kind: Kind, s: State) returns (schedule: seq<Action>)
    requires TimedInv(kind, s)
    ensures TimelyRun(kind, s, schedule)
    ensures AllIdle(schedule)
    ensures var r := Run(kind, s, schedule); TimedInv(kind, r) && r.now == s.now < r.nextSweep
  {
    if s.now == s.nextSweep {
      schedule := [Sweep(s.now)];
      RunOne(kind, s, Sweep(s.now));
      StepKeepsTime(kind, s, Sweep(s.now));
    } else {
      schedule := [];
    }
  }

  ghost predicate AllBlocked(s: State) {
    && AtRest(s) && s.now < s.nextSweep
    && forall i | 0 <= i < |s.sessions| :: BlockedUntil(s.sessions[i], s.now + 1)
  }

  lemma AllComeToRest(kind: Kind, s: State) returns (schedule: seq<Action>)
    requires TimedInv(kind, s) && s.now < s.nextSweep
    ensures TimelyRun(kind, s, schedule)
    ensures AtRest(s) ==> AllIdle(schedule)
    ensures var r := Run(kind, s, schedule); TimedInv(kind, r) && AllBlocked(r) && r.now == s.now
  {
    var first := ReaderComesToRest(kind, s);
    var m := Run(kind, s, first);
    var second := HandlersComeToRest(kind, m, |m.sessions|);
    RunAppend(kind, s, first, second);
    schedule := first + second;
  }

  lemma BlockedCanTick(kind: Kind, s: State)
    requires TimedInv(kind, s) && AllBlocked(s)
    ensures TimelyRun(kind, s, [Advance(1)])
    ensures var r := Run(kind, s, [Advance(1)]); TimedInv(kind, r) && r.now == s.now + 1
  {
    assert Timely(s, Advance(1));
    RunOne(kind, s, Advance(1));
    StepKeepsTime(kind, s, Advance(1));
  }

  lemma TickFromSweep(kind: Kind, s: State) returns (schedule: seq<Action>)
    requires TimedInv(kind, s) && s.now < s.nextSweep
    ensures TimelyRun(kind, s, schedule)
    ensures AtRest(s) ==> AllIdle(schedule)
    ensures var r := Run(kind, s, schedule); TimedInv(kind, r) && r.now == s.now + 1
  {
    var rest := AllComeToRest(kind, s);
    BlockedCanTick(kind, Run(kind, s, rest));
    RunAppend(kind, s, rest, [Advance(1)]);
    schedule := rest + [Advance(1)];
  }

  lemma TimeCanPass(kind: Kind, s: State) returns (schedule: seq<Action>)
    requires TimedInv(kind, s)
    ensures TimelyRun(kind, s, schedule)
    ensures AtRest(s) ==> AllIdle(schedule)
    ensures var r := Run(kind, s, schedule); TimedInv(kind, r) && r.now == s.now + 1
  {
    var first := SweepIfDue(kind, s);
    IdleKeepsReader(kind, s, first);
    var second := TickFromSweep(kind, Run(kind, s, first));
    RunAppend(kind, s, first, second);
    schedule := first + second;
  }

  /** From every state of a timely run, and for every later time, some timely run gets there. */
  lemma {:induction false} EveryTimeIsReached(kind: Kind, s: State, t: int) returns (schedule: seq<Action>)
    requires TimedInv(kind, s) && s.now <= t
    ensures TimelyRun(kind, s, schedule)
    ensures AtRest(s) ==> AllIdle(schedule)
    ensures TimedInv(kind, Run(kind, s, schedule)) && Run(kind, s, schedule).now == t
    decreases t - s.now
  {
    if s.now == t {
      schedule := [];
    } else {
      var first := TimeCanPass(kind, s);
      if AtRest(s) { IdleKeepsReader(kind, s, first); }
      var second := EveryTimeIsReached(kind, Run(kind, s, first), t);
      RunAppend(kind, s, first, second);
      schedule := first + second;
    }
  }
}
