/**
  Eviction over a whole timely run: a session left alone from its last activity on is taken out by a
  sweep in the promised window, stays out, and its connection is closed soon after.
 */
module UdpEviction {
  import opened UdpModel
  import opened UdpSafety
  import opened UdpTheorems
  import opened UdpTiming
  import opened UdpProgress
  import opened UdpDelivery

  /** The state after the first k actions. */
  function At(kind: Kind, s: State, schedule: seq<Action>, k: nat): (r: State)
    requires Bounded(s) && k <= |schedule|
    ensures Bounded(r)
  {
    Run(kind, s, schedule[..k])
  }

  lemma AtNext(kind: Kind, s: State, schedule: seq<Action>, k: nat)
    requires Bounded(s) && k < |schedule|
    ensures At(kind, s, schedule, k + 1) == Step(kind, At(kind, s, schedule, k), schedule[k])
  {
    assert schedule[..k + 1][..k] == schedule[..k];
  }

  lemma {:induction false} TimelyThroughout(kind: Kind, s: State, schedule: seq<Action>, k: nat)
    requires Initial(s) && s.timeout > 0 && TimelyRun(kind, s, schedule) && k <= |schedule|
    ensures TimelyRun(kind, s, schedule[..k]) && TimedInv(kind, At(kind, s, schedule, k))
    ensures k < |schedule| ==> Timely(At(kind, s, schedule, k), schedule[k])
    ensures At(kind, s, schedule, k).timeout == s.timeout
    decreases |schedule| - k
  {
    if k == |schedule| {
      assert schedule[..k] == schedule;
    } else {
      TimelyThroughout(kind, s, schedule, k + 1);
      assert schedule[..k + 1][..k] == schedule[..k];
    }
    EveryTimelyRunKeepsTime(kind, s, schedule[..k]);
    RunKeepsTimeout(kind, s, schedule[..k]);
  }

  /** While it is listed the session shows no activity after L, and its handler does not remove it. */
  ghost predicate LeftAlone(kind: Kind, s: State, schedule: seq<Action>, m: nat, i: nat, L: int)
    requires Bounded(s)
  {
    forall k | m <= k <= |schedule| ::
      var r := At(kind, s, schedule, k);
      i < |r.sessions| && Listed(r, i) ==>
        && r.sessions[i].lastActive == L
        && (k < |schedule| && schedule[k].Handle? && schedule[k].sid == i ==> !Deferred(r.sessions[i].pc))
  }

  /** A session out of the table stays out, with the closing time it has. */
  lemma OutStaysOut(kind: Kind, s: State, a: Action, i: nat)
    requires Inv(kind, s) && i < |s.sessions| && !s.sessions[i].chanOpen
    ensures var r := Step(kind, s, a);
            && Inv(kind, r) && i < |r.sessions| && !r.sessions[i].chanOpen && !Listed(r, i)
            && r.sessions[i].closedAt == s.sessions[i].closedAt
  {
    StepKeepsInv(kind, s, a);
    if a.Handle? && a.sid == i {
      ToldHandlerGetsCloser(kind, s, i, a.outcome);
      HandlerKeepsClosedAt(kind, s, i, a.outcome);
    } else {
      OthersLeaveHandlerAlone(kind, s, a, i);
    }
    ClosedIsUnlisted(kind, Step(kind, s, a), i);
  }

  lemma ClosedIsUnlisted(kind: Kind, s: State, i: nat)
    requires Inv(kind, s) && i < |s.sessions| && !s.sessions[i].chanOpen
    ensures !Listed(s, i)
  {
  }

  lemma HandlerKeepsClosedAt(kind: Kind, s: State, i: nat, o: Outcome)
    requires Bounded(s) && i < |s.sessions| && !s.sessions[i].chanOpen
    ensures Step(kind, s, Handle(i, o)).sessions[i].closedAt == s.sessions[i].closedAt
  {
    if !Deferred(s.sessions[i].pc) {
      assert Proceed(kind, s.sessions[i], o, s.now, s.timeout).closedAt == s.sessions[i].closedAt;
    }
  }

  lemma {:induction false} OutFromThenOn(kind: Kind, s: State, schedule: seq<Action>, m: nat, k: nat, i: nat)
    requires Bounded(s) && m <= k <= |schedule|
    requires var r := At(kind, s, schedule, m); Inv(kind, r) && i < |r.sessions| && !r.sessions[i].chanOpen
    ensures var r := At(kind, s, schedule, k);
            && Inv(kind, r) && i < |r.sessions| && !r.sessions[i].chanOpen && !Listed(r, i)
            && r.sessions[i].closedAt == At(kind, s, schedule, m).sessions[i].closedAt
    decreases k
  {
    if m < k {
      OutFromThenOn(kind, s, schedule, m, k - 1, i);
      AtNext(kind, s, schedule, k - 1);
      OutStaysOut(kind, At(kind, s, schedule, k - 1), schedule[k - 1], i);
    }
  }

  /** One step from a state that lists the session: it stays listed, or the sweep in the window takes it out. */
  ghost predicate StaysOrSwept(r: State, a: Action, q: State, i: nat, L: int, timeout: int)
    requires Bounded(r) && Bounded(q)
  {
    && r.now < L + timeout + SWEEP_PERIOD && i < |q.sessions|
    && (Listed(q, i) || (
          && a == Sweep(r.now) && L + timeout <= r.now
          && !q.sessions[i].chanOpen && q.sessions[i].closedAt == r.now))
  }

  lemma OwnStepStaysListed(kind: Kind, s: State, o: Outcome, i: nat)
    requires Inv(kind, s) && i < |s.sessions| && Listed(s, i) && !Deferred(s.sessions[i].pc)
    ensures var r := Step(kind, s, Handle(i, o)); i < |r.sessions| && Listed(r, i)
  {
    ProceedKeepsSession(kind, s.sessions[i], o, s.now, s.timeout);
  }

  lemma ListedIsRecent(kind: Kind, r: State, i: nat)
    requires TimedInv(kind, r) && i < |r.sessions| && Listed(r, i)
    ensures r.now < r.sessions[i].lastActive + r.timeout + SWEEP_PERIOD
  {
    assert SessionTimed(r.sessions[i], r.now, r.nextSweep - SWEEP_PERIOD, r.timeout);
  }

  lemma StepStaysOrSweeps(kind: Kind, s: State, schedule: seq<Action>, m: nat, i: nat)
    requires Initial(s) && s.timeout > 0 && TimelyRun(kind, s, schedule) && m < |schedule|
    requires var r := At(kind, s, schedule, m); i < |r.sessions| && Listed(r, i)
    requires schedule[m].Handle? && schedule[m].sid == i ==> !Deferred(At(kind, s, schedule, m).sessions[i].pc)
    ensures var r := At(kind, s, schedule, m);
            StaysOrSwept(r, schedule[m], At(kind, s, schedule, m + 1), i, r.sessions[i].lastActive, s.timeout)
  {
    var r, a := At(kind, s, schedule, m), schedule[m];
    TimelyThroughout(kind, s, schedule, m);
    AtNext(kind, s, schedule, m);
    ListedIsRecent(kind, r, i);
    if a.Handle? && a.sid == i {
      OwnStepStaysListed(kind, r, a.outcome, i);
    } else {
      EvictionIsTimely(kind, s, schedule[..m], a, i);
    }
  }

  ghost predicate ListedAt(kind: Kind, s: State, schedule: seq<Action>, k: nat, i: nat)
    requires Bounded(s) && k <= |schedule|
  {
    i < |At(kind, s, schedule, k).sessions| && Listed(At(kind, s, schedule, k), i)
  }

  /** The session is listed from m to e, and the action at e is the sweep that takes it out, in time. */
  ghost predicate SweptAt(kind: Kind, s: State, schedule: seq<Action>, m: nat, e: nat, i: nat, L: int)
    requires Bounded(s)
  {
    && m <= e < |schedule|
    && (forall k | m <= k <= e :: ListedAt(kind, s, schedule, k, i))
    && schedule[e].Sweep? && L + s.timeout <= schedule[e].t < L + s.timeout + SWEEP_PERIOD
    && var q := At(kind, s, schedule, e + 1);
       i < |q.sessions| && !q.sessions[i].chanOpen && q.sessions[i].closedAt == schedule[e].t
  }

  lemma LaterSweep(kind: Kind, s: State, schedule: seq<Action>, m: nat, e: nat, i: nat, L: int)
    requires Bounded(s) && m < |schedule| && ListedAt(kind, s, schedule, m, i)
    requires SweptAt(kind, s, schedule, m + 1, e, i, L)
    ensures SweptAt(kind, s, schedule, m, e, i, L)
  {
  }

  lemma RunsOutOfTime(kind: Kind, s: State, schedule: seq<Action>, i: nat, L: int)
    requires Initial(s) && s.timeout > 0 && TimelyRun(kind, s, schedule)
    requires LeftAlone(kind, s, schedule, |schedule|, i, L)
    requires Run(kind, s, schedule).now >= L + s.timeout + SWEEP_PERIOD
    ensures !ListedAt(kind, s, schedule, |schedule|, i)
  {
    assert schedule[..|schedule|] == schedule;
    TimelyThroughout(kind, s, schedule, |schedule|);
    if ListedAt(kind, s, schedule, |schedule|, i) {
      ListedIsRecent(kind, Run(kind, s, schedule), i);
    }
  }

  lemma SweptOrListed(kind: Kind, s: State, schedule: seq<Action>, m: nat, i: nat, L: int)
    requires Initial(s) && s.timeout > 0 && TimelyRun(kind, s, schedule) && m < |schedule|
    requires LeftAlone(kind, s, schedule, m, i, L) && ListedAt(kind, s, schedule, m, i)
    ensures LeftAlone(kind, s, schedule, m + 1, i, L)
    ensures ListedAt(kind, s, schedule, m + 1, i) || SweptAt(kind, s, schedule, m, m, i, L)
  {
    StepStaysOrSweeps(kind, s, schedule, m, i);
  }

  lemma {:induction false} SomeSweepEvicts(kind: Kind, s: State, schedule: seq<Action>, m: nat, i: nat, L: int)
    returns (e: nat)
    requires Initial(s) && s.timeout > 0 && TimelyRun(kind, s, schedule) && m <= |schedule|
    requires LeftAlone(kind, s, schedule, m, i, L) && ListedAt(kind, s, schedule, m, i)
    requires Run(kind, s, schedule).now >= L + s.timeout + SWEEP_PERIOD
    ensures SweptAt(kind, s, schedule, m, e, i, L)
    decreases |schedule| - m
  {
    if m == |schedule| {
      RunsOutOfTime(kind, s, schedule, i, L);
    }
    SweptOrListed(kind, s, schedule, m, i, L);
    if ListedAt(kind, s, schedule, m + 1, i) {
      e := SomeSweepEvicts(kind, s, schedule, m + 1, i, L);
      LaterSweep(kind, s, schedule, m, e, i, L);
    } else {
      e := m;
    }
  }

  lemma SweptStaysOut(kind: Kind, s: State, schedule: seq<Action>, m: nat, e: nat, i: nat, L: int)
    requires Initial(s) && s.timeout > 0 && TimelyRun(kind, s, schedule)
    requires SweptAt(kind, s, schedule, m, e, i, L)
    ensures var q := Run(kind, s, schedule);
            && i < |q.sessions| && !Listed(q, i) && !q.sessions[i].chanOpen
            && (q.now > schedule[e].t + READ_DEADLINE ==> !q.sessions[i].connOpen && q.sessions[i].pc.Finished?)
  {
    TimelyThroughout(kind, s, schedule, e + 1);
    OutFromThenOn(kind, s, schedule, e + 1, |schedule|, i);
    assert schedule[..|schedule|] == schedule;
    ConnectionsCloseInTime(kind, s, schedule, i);
  }

  /**
    The promise about inactivity.  In every timely run that goes on long enough, a session listed
    with last activity L, and not removed by its own handler, is listed until one sweep at a time t
    with L + timeout <= t < L + timeout + 10 s; at the end it is still out of the table, and if more
    than 5 s have passed since t its connection is closed.
   */
  lemma InactiveSessionIsEvicted(kind: Kind, s: State, schedule: seq<Action>, m: nat, i: nat, L: int) returns (e: nat)
    requires Initial(s) && s.timeout > 0 && TimelyRun(kind, s, schedule) && m <= |schedule|
    requires LeftAlone(kind, s, schedule, m, i, L) && ListedAt(kind, s, schedule, m, i)
    requires Run(kind, s, schedule).now >= L + s.timeout + SWEEP_PERIOD
    ensures SweptAt(kind, s, schedule, m, e, i, L)
    ensures var q := Run(kind, s, schedule);
            && i < |q.sessions| && !Listed(q, i) && !q.sessions[i].chanOpen
            && (q.now > schedule[e].t + READ_DEADLINE ==> !q.sessions[i].connOpen && q.sessions[i].pc.Finished?)
  {
    e := SomeSweepEvicts(kind, s, schedule, m, i, L);
    SweptStaysOut(kind, s, schedule, m, e, i, L);
  }

  // Such runs exist: the promise is not empty.

  /** About to note activity, or to tear down: where a handler disturbs its session without a new datagram. */
  predicate Busy(pc: Handler) {
    pc.Touching? || Deferred(pc)
  }

  /** Nothing is under way that would note activity of session i, or remove it, short of a sweep. */
  ghost predicate Calm(kind: Kind, s: State, i: nat, L: int) {
    && Inv(kind, s) && AtRest(s) && i < |s.sessions|
    && (Listed(s, i) ==> s.sessions[i].lastActive == L && !Busy(s.sessions[i].pc))
  }

  /** A handler's step takes entries out of the table, if it changes it at all. */
  lemma HandlersOnlyUnlist(kind: Kind, s: State, j: nat, o: Outcome, i: nat)
    requires Bounded(s) && i < |s.sessions| && j < |s.sessions|
    ensures var r := HandlerStep(kind, s, j, o);
            |r.sessions| == |s.sessions| && (Listed(r, i) ==> Listed(s, i))
  {
    var r := HandlerStep(kind, s, j, o);
    assert r.table == s.table || r.table == s.table - {s.sessions[j].key};
    if !Deferred(s.sessions[j].pc) {
      assert Proceed(kind, s.sessions[j], o, s.now, s.timeout).key == s.sessions[j].key;
    }
  }

  lemma TimeoutStaysCalm(kind: Kind, x: Session, now: int, timeout: int)
    requires x.chanOpen && !Busy(x.pc)
    ensures var y := Proceed(kind, x, Timeout, now, timeout); y.lastActive == x.lastActive && !Busy(y.pc)
  {
  }

  lemma IdleHandlerKeepsCalm(kind: Kind, s: State, j: nat, i: nat, L: int)
    requires Calm(kind, s, i, L) && j < |s.sessions|
    ensures var r := Step(kind, s, Handle(j, Timeout));
            && |r.sessions| == |s.sessions|
            && (Listed(r, i) ==> r.sessions[i].lastActive == L && !Busy(r.sessions[i].pc))
  {
    HandlersOnlyUnlist(kind, s, j, Timeout, i);
    if j != i {
      OtherHandler(kind, s, j, Timeout, i);
    } else if Listed(s, i) {
      TimeoutStaysCalm(kind, s.sessions[i], s.now, s.timeout);
    }
  }

  lemma IdleStepKeepsCalm(kind: Kind, s: State, a: Action, i: nat, L: int)
    requires Calm(kind, s, i, L) && Idle(a)
    ensures Calm(kind, Step(kind, s, a), i, L)
  {
    StepKeepsInv(kind, s, a);
    IdleStepKeepsReader(kind, s, a);
    if a.Handle? && a.sid < |s.sessions| {
      IdleHandlerKeepsCalm(kind, s, a.sid, i, L);
    }
  }

  lemma {:induction false} IdleRunKeepsCalm(kind: Kind, s: State, schedule: seq<Action>, i: nat, L: int)
    requires Calm(kind, s, i, L) && AllIdle(schedule)
    ensures Calm(kind, Run(kind, s, schedule), i, L)
  {
    if schedule != [] {
      var before, a := schedule[..|schedule| - 1], schedule[|schedule| - 1];
      IdleRunKeepsCalm(kind, s, before, i, L);
      assert Idle(a);
      IdleStepKeepsCalm(kind, Run(kind, s, before), a, i, L);
    }
  }

  lemma AtAfter(kind: Kind, s: State, before: seq<Action>, rest: seq<Action>, k: nat)
    requires Bounded(s) && |before| <= k <= |before + rest|
    ensures At(kind, s, before + rest, k) == Run(kind, Run(kind, s, before), rest[..k - |before|])
  {
    assert (before + rest)[..k] == before + rest[..k - |before|];
    RunAppend(kind, s, before, rest[..k - |before|]);
  }

  lemma IdleLeavesAlone(kind: Kind, s: State, before: seq<Action>, rest: seq<Action>, i: nat, L: int)
    requires Bounded(s) && Calm(kind, Run(kind, s, before), i, L) && AllIdle(rest)
    ensures LeftAlone(kind, s, before + rest, |before|, i, L)
  {
    forall k | |before| <= k <= |before + rest|
      ensures Calm(kind, At(kind, s, before + rest, k), i, L)
    {
      AtAfter(kind, s, before, rest, k);
      IdleRunKeepsCalm(kind, Run(kind, s, before), rest[..k - |before|], i, L);
    }
  }

  /**
    From every state of a timely run with the reader waiting, and for every listed session whose
    handler is not about to note activity or to tear down, there is a timely run that leaves it alone
    up to any time from L + timeout + 10 s on; and in that run a sweep in the window evicts it.
   */
  lemma EvictionHappens(kind: Kind, s: State, before: seq<Action>, i: nat, t: int) returns (rest: seq<Action>, e: nat)
    requires Initial(s) && s.timeout > 0 && TimelyRun(kind, s, before)
    requires var r := Run(kind, s, before);
             && AtRest(r) && i < |r.sessions| && Listed(r, i) && !Busy(r.sessions[i].pc)
             && t >= r.sessions[i].lastActive + s.timeout + SWEEP_PERIOD
    ensures var L, schedule := Run(kind, s, before).sessions[i].lastActive, before + rest;
            && TimelyRun(kind, s, schedule) && LeftAlone(kind, s, schedule, |before|, i, L)
            && Run(kind, s, schedule).now == t && SweptAt(kind, s, schedule, |before|, e, i, L)
  {
    var r := Run(kind, s, before);
    var L := r.sessions[i].lastActive;
    EveryTimelyRunKeepsTime(kind, s, before);
    RunKeepsTimeout(kind, s, before);
    ListedIsRecent(kind, r, i);
    rest := EveryTimeIsReached(kind, r, t);
    RunAppend(kind, s, before, rest);
    IdleLeavesAlone(kind, s, before, rest, i, L);
    AtAfter(kind, s, before, rest, |before|);
    assert ListedAt(kind, s, before + rest, |before|, i);
    e := InactiveSessionIsEvicted(kind, s, before + rest, |before|, i, L);
  }

  lemma {:induction false} ReaderNeedsNoTime(kind: Kind, s: State, schedule: seq<Action>)
    requires Bounded(s) && forall a <- schedule :: !a.Sweep? && !a.StopReaper? && !a.Advance?
    ensures TimelyRun(kind, s, schedule)
  {
    if schedule != [] {
      ReaderNeedsNoTime(kind, s, schedule[..|schedule| - 1]);
    }
  }

  /** The life of a session: one datagram makes it, and if nothing more is heard a sweep ends it in time. */
  lemma AFreshSessionIsEvicted(kind: Kind, s: State, src: string, d: Datagram, t: int)
    returns (rest: seq<Action>, e: nat)
    requires Initial(s) && s.timeout > 0 && t >= s.now + s.timeout + SWEEP_PERIOD
    ensures var before := ReaderTurn(kind, src, d, true, true);
            var q := Run(kind, s, before);
            && Serving(q, src) == 0 < |q.sessions| && q.sessions[0].key == src
            && q.forwarded == [Forward(0, src, 0, d)]
            && TimelyRun(kind, s, before + rest) && Run(kind, s, before + rest).now == t
            && SweptAt(kind, s, before + rest, |before|, e, 0, s.now)
  {
    var before := ReaderTurn(kind, src, d, true, true);
    EveryRunKeepsInv(kind, s, []);
    ADatagramLeftAloneIsForwarded(kind, s, src, d, true, true);
    ReaderNeedsNoTime(kind, s, before);
    rest, e := EvictionHappens(kind, s, before, 0, t);
  }
}
