/**
  After Close: the read loop has returned and the reaper has stopped.  Nothing more is read, made or
  forwarded; and no session is torn down, except by its own handler.
 */
module UdpStopping {
  import opened UdpModel
  import opened UdpSafety
  import opened UdpTheorems
  import opened UdpProgress

  predicate Stopped(s: State) {
    s.reader.Returned? && !s.reaper
  }

  lemma ReturnedReaderStands(kind: Kind, s: State, a: Action)
    requires Bounded(s) && s.reader.Returned?
    ensures ReaderStep(kind, s, a) == s
  {
  }

  lemma HandlersOnlyHandle(kind: Kind, s: State, j: nat, o: Outcome)
    requires Bounded(s) && j < |s.sessions|
    ensures var r := HandlerStep(kind, s, j, o); r == s.(table := r.table, sessions := r.sessions)
  {
  }

  lemma StoppedStepKeepsStill(kind: Kind, s: State, a: Action, i: nat)
    requires Inv(kind, s) && Stopped(s) && i < |s.sessions| && Listed(s, i) && !(a.Handle? && a.sid == i)
    ensures var r := Step(kind, s, a);
            && Inv(kind, r) && Stopped(r) && r.received == s.received && r.forwarded == s.forwarded
            && |r.sessions| == |s.sessions| && r.sessions[i] == s.sessions[i] && Listed(r, i)
  {
    StepKeepsInv(kind, s, a);
    if a.Handle? && a.sid < |s.sessions| {
      HandlersOnlyHandle(kind, s, a.sid, a.outcome);
      OtherHandler(kind, s, a.sid, a.outcome, i);
      OtherHandlerKeepsListed(kind, s, a.sid, a.outcome, i);
    } else {
      ReturnedReaderStands(kind, s, a);
    }
  }

  lemma {:induction false} StoppedRunKeepsStill(kind: Kind, s: State, schedule: seq<Action>, i: nat)
    requires Inv(kind, s) && Stopped(s) && i < |s.sessions| && Listed(s, i)
    requires forall a <- schedule :: !(a.Handle? && a.sid == i)
    ensures var r := Run(kind, s, schedule);
            && Inv(kind, r) && Stopped(r) && r.received == s.received && r.forwarded == s.forwarded
            && |r.sessions| == |s.sessions| && r.sessions[i] == s.sessions[i] && Listed(r, i)
  {
    if schedule != [] {
      StoppedRunKeepsStill(kind, s, schedule[..|schedule| - 1], i);
      StoppedStepKeepsStill(kind, Run(kind, s, schedule[..|schedule| - 1]), schedule[|schedule| - 1], i);
    }
  }

  lemma CloseStops(kind: Kind, s: State, i: nat)
    requires Inv(kind, s) && s.reader.Waiting? && i < |s.sessions| && Listed(s, i)
    ensures var r := Run(kind, s, [Return] + [StopReaper]);
            && Inv(kind, r) && Stopped(r) && r.received == s.received && r.forwarded == s.forwarded
            && r.sessions == s.sessions && r.table == s.table
  {
    RunOne(kind, s, Return);
    RunAppend(kind, s, [Return], [StopReaper]);
    RunOne(kind, Step(kind, s, Return), StopReaper);
    StepKeepsInv(kind, s, Return);
    StepKeepsInv(kind, Step(kind, s, Return), StopReaper);
  }

  /**
    What Close does to the sessions: nothing.  Whatever runs afterwards, for however long and however
    many sweeps are due, nothing is read, made or forwarded, and a session stays as it was, open and
    listed, until its own handler takes a step.
   */
  lemma CloseLeavesSessionsAlone(kind: Kind, s: State, schedule: seq<Action>, i: nat)
    requires Inv(kind, s) && s.reader.Waiting? && i < |s.sessions| && Listed(s, i)
    requires forall a <- schedule :: !(a.Handle? && a.sid == i)
    ensures var r := Run(kind, s, [Return] + [StopReaper] + schedule);
            && r.received == s.received && r.forwarded == s.forwarded && |r.sessions| == |s.sessions|
            && r.sessions[i] == s.sessions[i] && r.sessions[i].chanOpen && Listed(r, i)
  {
    CloseStops(kind, s, i);
    RunAppend(kind, s, [Return] + [StopReaper], schedule);
    StoppedRunKeepsStill(kind, Run(kind, s, [Return] + [StopReaper]), schedule, i);
  }
}
