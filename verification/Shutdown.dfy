/**
  Bind, Serve and Close: shutdown judged by intent (routine.go, http.go and the two UDP files).
  Close is three separate steps (mark, close `done`, close the listener), and any number of Close
  calls may interleave with a serve loop.  The loop meets them at two points: while it is blocked
  in Accept or ReadFrom, and between a failure and its judgement.
 */
module Shutdown {

  /** Two unrelated error domains, any other error, and %w wrapping. */
  datatype Error =
    | NetClosed                               // net.ErrClosed, from a host socket
    | EndpointInvalid                         // what a netstack listener reports
    | Other(text: string)
    | Wrapped(prefix: string, inner: Error)

  /** errors.Is(err, net.ErrClosed) */
  predicate IsNetClosed(e: Error) {
    e.NetClosed? || (e.Wrapped? && IsNetClosed(e.inner))
  }

  /** The serve loops: those that return a fault, the HTTP proxy's two, and the UDP loops, which go on. */
  datatype Loop = Returning(name: string) | Http | Udp

  datatype Done = Absent | Open | Shut

  /** Where one call of Close stands. */
  datatype CloseAt = Start | Marked | SawOpen | AtListener | Finished(result: Result)

  datatype Result = Clean | Failed(error: Error)

  datatype CloseState = CloseState(
    closed: bool,               // the intent, an atomic flag
    done: Done,
    listening: bool,
    calls: map<nat, CloseAt>,
    panicked: bool)             // close of a closed channel

  /** One step of one call; `report` is what the listener's own Close says, if that is the step. */
  datatype CloseStep = CloseStep(call: nat, report: Result)

  function At(s: CloseState, call: nat): CloseAt {
    if call in s.calls then s.calls[call] else Start
  }

  /** closeListener: an already closed listener is not worth surfacing. */
  function CloseListener(report: Result): Result {
    if report.Failed? && !IsNetClosed(report.error) then report else Clean
  }

  function StepClose(loop: Loop, s: CloseState, c: CloseStep): CloseState {
    match At(s, c.call)
    case Start => s.(closed := true, calls := s.calls[c.call := Marked])
    case Marked =>
      s.(calls := s.calls[c.call := if loop.Udp? && s.done.Open? then SawOpen else AtListener])
    case SawOpen =>
      s.(done := Shut, panicked := s.panicked || s.done.Shut?, calls := s.calls[c.call := AtListener])
    case AtListener => s.(listening := false, calls := s.calls[c.call := Finished(CloseListener(c.report))])
    case Finished(_) => s
  }

  function RunClose(loop: Loop, s: CloseState, steps: seq<CloseStep>): CloseState {
    if steps == [] then s
    else StepClose(loop, RunClose(loop, s, steps[..|steps| - 1]), steps[|steps| - 1])
  }

  /** One turn of a serve loop: `offered` says a connection or datagram arrived, else `error` did. */
  datatype Turn = Turn(before: seq<CloseStep>, offered: bool, error: Error, between: seq<CloseStep>)

  /** A failure as it was judged, and whether Close's own listener close was its cause. */
  datatype Judgement = Judgement(error: Error, byClose: bool, marked: bool)

  datatype Served = Stopped | Fault(error: Error) | Running

  datatype Outcome = Outcome(served: Served, state: CloseState, log: seq<Judgement>)

  /** closedByUs, for an error that is not nil */
  predicate ClosedByUs(closed: bool, e: Error) {
    closed || IsNetClosed(e)
  }

  /** HTTPServer.Serve has no intent to consult: it swallows net.ErrClosed and wraps the rest. */
  function HttpInner(e: Error): Result {
    if IsNetClosed(e) then Clean else Failed(Wrapped("accept request failed", e))
  }

  /** What a failure makes the loop do, `closed` being the intent when it is judged. */
  function Verdict(loop: Loop, closed: bool, e: Error): Served {
    match loop
    case Returning(name) => if ClosedByUs(closed, e) then Stopped else Fault(Wrapped(name, e))
    case Http =>
      var inner := HttpInner(e);
      if inner.Clean? || ClosedByUs(closed, inner.error) then Stopped
      else Fault(Wrapped("http proxy", inner.error))
    case Udp => if ClosedByUs(closed, e) then Stopped else Running
  }

  function ServeFrom(loop: Loop, s: CloseState, world: seq<Turn>, log: seq<Judgement>): Outcome
    decreases |world|
  {
    if world == [] then Outcome(Running, s, log)
    else
      var t := world[0];
      var atAccept := RunClose(loop, s, t.before);
      if atAccept.listening && t.offered then ServeFrom(loop, atAccept, world[1..], log)
      else
        var atJudge := RunClose(loop, atAccept, t.between);
        var next := log + [Judgement(t.error, !atAccept.listening, atJudge.closed)];
        var verdict := Verdict(loop, atJudge.closed, t.error);
        if verdict.Running? then ServeFrom(loop, atJudge, world[1..], next)
        else Outcome(verdict, atJudge, next)
  }

  /** After Bind: the listener is up and no Close has started. */
  ghost predicate Bound(loop: Loop, s: CloseState) {
    && s.listening && s.calls == map[] && !s.panicked && !s.closed
    && s.done == if loop.Udp? then Open else Absent
  }

  /** The intent is recorded before anything is closed. */
  ghost predicate MarkFirst(s: CloseState) {
    && (!s.listening ==> s.closed)
    && (forall c <- s.calls :: s.calls[c] != Start ==> s.closed)
  }

  lemma {:induction false} MarkPrecedesClosing(loop: Loop, s: CloseState, steps: seq<CloseStep>)
    requires MarkFirst(s)
    ensures var r := RunClose(loop, s, steps);
            MarkFirst(r) && (s.closed ==> r.closed) && (!s.listening ==> !r.listening)
  {
    if steps != [] {
      MarkPrecedesClosing(loop, s, steps[..|steps| - 1]);
    }
  }

  /** The fault returned still unwraps to the error the listener reported. */
  predicate Carries(e: Error, cause: Error) {
    e == cause || (e.Wrapped? && Carries(e.inner, cause))
  }

  /** errors.Is follows the whole chain of wrapping. */
  lemma {:induction false} NetClosedIsCarried(e: Error)
    ensures IsNetClosed(e) <==> Carries(e, NetClosed)
  {
    if e.Wrapped? {
      NetClosedIsCarried(e.inner);
    }
  }

  /** What every judgement but the last one of a returning loop looks like. */
  ghost predicate LogOk(loop: Loop, o: Outcome) {
    && (forall j | 0 <= j < |o.log| :: o.log[j].byClose ==> o.log[j].marked)
    && (forall j | 0 <= j < |o.log| - 1 :: !o.log[j].marked && !IsNetClosed(o.log[j].error))
    && (loop.Udp? ==> !o.served.Fault?)
    && (o.served.Running? && o.log != [] ==> !o.log[|o.log| - 1].marked && !IsNetClosed(o.log[|o.log| - 1].error))
    && (o.served.Stopped? ==> o.log != [] && (o.log[|o.log| - 1].marked || IsNetClosed(o.log[|o.log| - 1].error)))
    && (o.served.Fault? ==>
          && o.log != [] && !o.log[|o.log| - 1].marked && !o.log[|o.log| - 1].byClose
          && !IsNetClosed(o.log[|o.log| - 1].error)
          && Carries(o.served.error, o.log[|o.log| - 1].error))
  }

  lemma {:induction false} ServeJudges(loop: Loop, s: CloseState, world: seq<Turn>, log: seq<Judgement>)
    requires MarkFirst(s)
    requires forall j | 0 <= j < |log| :: !log[j].marked && !log[j].byClose && !IsNetClosed(log[j].error)
    ensures LogOk(loop, ServeFrom(loop, s, world, log)) && MarkFirst(ServeFrom(loop, s, world, log).state)
    decreases |world|
  {
    if world != [] {
      var t := world[0];
      MarkPrecedesClosing(loop, s, t.before);
      var atAccept := RunClose(loop, s, t.before);
      if atAccept.listening && t.offered {
        ServeJudges(loop, atAccept, world[1..], log);
      } else {
        MarkPrecedesClosing(loop, atAccept, t.between);
        var atJudge := RunClose(loop, atAccept, t.between);
        if Verdict(loop, atJudge.closed, t.error).Running? {
          ServeJudges(loop, atJudge, world[1..], log + [Judgement(t.error, !atAccept.listening, atJudge.closed)]);
        }
      }
    }
  }

  /**
    The headline.  For every interleaving: a failure that Close's own listener close caused ends
    Serve with nil, whatever error the listener reports; a fault comes only from a failure judged
    before the mark; a UDP loop never returns a fault, and leaves at the first failure judged after it.
   */
  lemma ShutdownIsJudgedByIntent(loop: Loop, s: CloseState, world: seq<Turn>)
    requires Bound(loop, s)
    ensures var o := ServeFrom(loop, s, world, []);
            && (forall j | 0 <= j < |o.log| && o.log[j].byClose :: j == |o.log| - 1 && o.served == Stopped)
            && (forall j | 0 <= j < |o.log| && o.log[j].marked :: j == |o.log| - 1 && o.served == Stopped)
            && (o.served.Fault? ==>
                  && !loop.Udp? && o.log != []
                  && !o.log[|o.log| - 1].marked && !o.log[|o.log| - 1].byClose)
            && (!loop.Udp? ==> (o.served.Running? <==> o.log == []))
            && (!loop.Udp? && o.log != [] ==>
                  var last := o.log[|o.log| - 1];
                  && (o.served.Fault? <==> !last.marked && !IsNetClosed(last.error))
                  && (o.served.Fault? ==> o.served.error == FaultOf(loop, last.error)))
  {
    ServeJudges(loop, s, world, []);
    LastJudgementDecides(loop, s, world, []);
  }

  /** Once Close has shut the listener the loop does not spin: its next turn is its last. */
  lemma ShutListenerEndsTheLoop(loop: Loop, s: CloseState, world: seq<Turn>, log: seq<Judgement>)
    requires MarkFirst(s) && !s.listening && world != []
    ensures ServeFrom(loop, s, world, log).served == Stopped
    ensures |ServeFrom(loop, s, world, log).log| == |log| + 1
  {
    MarkPrecedesClosing(loop, s, world[0].before);
    MarkPrecedesClosing(loop, RunClose(loop, s, world[0].before), world[0].between);
  }

  /** HTTPServer.Serve by itself, as a caller with a listener of its own sees it. */
  lemma HttpServerEndsCleanlyOnNetClosed(e: Error)
    ensures HttpInner(e).Clean? <==> Carries(e, NetClosed)
    ensures HttpInner(e).Failed? ==> HttpInner(e).error == Wrapped("accept request failed", e)
  {
    NetClosedIsCarried(e);
  }

  // What each failure comes to.

  /** The turn goes well: something arrived on a listener that is up. */
  ghost predicate Accepts(loop: Loop, s: CloseState, t: Turn) {
    t.offered && RunClose(loop, s, t.before).listening
  }

  /** All these turns go well, one after the other; `After` is where they lead. */
  ghost predicate AllAccepted(loop: Loop, s: CloseState, world: seq<Turn>)
    decreases |world|
  {
    world == [] || (Accepts(loop, s, world[0]) && AllAccepted(loop, RunClose(loop, s, world[0].before), world[1..]))
  }

  function After(loop: Loop, s: CloseState, world: seq<Turn>): CloseState
    decreases |world|
  {
    if world == [] then s else After(loop, RunClose(loop, s, world[0].before), world[1..])
  }

  lemma {:induction false} AcceptedTurnsGoOn(loop: Loop, s: CloseState, world: seq<Turn>, rest: seq<Turn>,
                                             log: seq<Judgement>)
    requires AllAccepted(loop, s, world)
    ensures ServeFrom(loop, s, world + rest, log) == ServeFrom(loop, After(loop, s, world), rest, log)
    decreases |world|
  {
    if world == [] {
      assert world + rest == rest;
    } else {
      assert (world + rest)[0] == world[0] && (world + rest)[1..] == world[1..] + rest;
      AcceptedTurnsGoOn(loop, RunClose(loop, s, world[0].before), world[1..], rest, log);
    }
  }

  /** Serve wraps the fault with its own name, the HTTP proxy twice. */
  function FaultOf(loop: Loop, e: Error): Error {
    match loop
    case Returning(name) => Wrapped(name, e)
    case Http => Wrapped("http proxy", Wrapped("accept request failed", e))
    case Udp => e
  }

  /**
    The first failure after any number of good turns.  If Close had marked its intent by then, or the
    error is net.ErrClosed, Serve ends with nil.  Otherwise a returning loop ends with that failure, at
    once; and a UDP loop goes on.
   */
  lemma FirstFailureDecides(loop: Loop, s: CloseState, good: seq<Turn>, turn: Turn, rest: seq<Turn>)
    requires AllAccepted(loop, s, good) && !Accepts(loop, After(loop, s, good), turn)
    ensures var atAccept := RunClose(loop, After(loop, s, good), turn.before);
            var atJudge := RunClose(loop, atAccept, turn.between);
            var judged := Judgement(turn.error, !atAccept.listening, atJudge.closed);
            var o := ServeFrom(loop, s, good + ([turn] + rest), []);
            if atJudge.closed || IsNetClosed(turn.error) then o == Outcome(Stopped, atJudge, [judged])
            else if loop.Udp? then o == ServeFrom(loop, atJudge, rest, [judged])
            else o == Outcome(Fault(FaultOf(loop, turn.error)), atJudge, [judged])
  {
    AcceptedTurnsGoOn(loop, s, good, [turn] + rest, []);
    var m := After(loop, s, good);
    assert ([turn] + rest)[0] == turn && ([turn] + rest)[1..] == rest;
    var atAccept := RunClose(loop, m, turn.before);
    var judged := Judgement(turn.error, !atAccept.listening, RunClose(loop, atAccept, turn.between).closed);
    assert [] + [judged] == [judged];
  }

  /** Whatever came before, the last judgement tells how Serve stands. */
  lemma {:induction false} LastJudgementDecides(loop: Loop, s: CloseState, world: seq<Turn>, log: seq<Judgement>)
    requires MarkFirst(s)
    requires forall j | 0 <= j < |log| :: !log[j].marked && !log[j].byClose && !IsNetClosed(log[j].error)
    requires log != [] ==> loop.Udp?
    ensures var o := ServeFrom(loop, s, world, log);
            && (o.log == [] ==> o.served.Running?)
            && (o.log != [] ==>
                  var last := o.log[|o.log| - 1];
                  if last.marked || IsNetClosed(last.error) then o.served.Stopped?
                  else if loop.Udp? then o.served.Running?
                  else o.served == Fault(FaultOf(loop, last.error)))
    decreases |world|
  {
    if world != [] {
      var t := world[0];
      MarkPrecedesClosing(loop, s, t.before);
      var atAccept := RunClose(loop, s, t.before);
      if atAccept.listening && t.offered {
        LastJudgementDecides(loop, atAccept, world[1..], log);
      } else {
        MarkPrecedesClosing(loop, atAccept, t.between);
        var atJudge := RunClose(loop, atAccept, t.between);
        if Verdict(loop, atJudge.closed, t.error).Running? {
          LastJudgementDecides(loop, atJudge, world[1..],
            log + [Judgement(t.error, !atAccept.listening, atJudge.closed)]);
        }
      }
    }
  }

  /**
    Why intent and not the error.  Judged by its value alone a failure stops the loop only if it is
    net.ErrClosed; so for every other error a listener may report when Close shuts it, in whatever
    interleaving, that judgement is wrong, and the judgement by intent is right.
   */
  lemma ErrorValueAloneMisjudges(loop: Loop, s: CloseState, turn: Turn, rest: seq<Turn>, log: seq<Judgement>)
    requires MarkFirst(s) && !RunClose(loop, s, turn.before).listening
    ensures Verdict(loop, false, turn.error).Stopped? <==> IsNetClosed(turn.error)
    ensures ServeFrom(loop, s, [turn] + rest, log).served == Stopped
  {
    var atAccept := RunClose(loop, s, turn.before);
    MarkPrecedesClosing(loop, s, turn.before);
    MarkPrecedesClosing(loop, atAccept, turn.between);
    assert ([turn] + rest)[0] == turn;
  }

  /** How far the calls of Close have come tells what is closed already. */
  ghost predicate Orderly(loop: Loop, s: CloseState) {
    && (loop.Udp? <==> !s.done.Absent?)
    && forall c <- s.calls ::
         && (s.calls[c] != Start ==> s.closed)
         && (s.calls[c] == SawOpen ==> loop.Udp?)
         && (s.calls[c] == AtListener || s.calls[c].Finished? ==> !s.done.Open?)
         && (s.calls[c].Finished? ==> !s.listening)
  }

  lemma {:induction false} EveryRunIsOrderly(loop: Loop, s: CloseState, steps: seq<CloseStep>)
    requires Orderly(loop, s)
    ensures Orderly(loop, RunClose(loop, s, steps))
  {
    if steps != [] {
      EveryRunIsOrderly(loop, s, steps[..|steps| - 1]);
    }
  }

  lemma {:induction false} ClosedStaysClosed(loop: Loop, s: CloseState, steps: seq<CloseStep>)
    requires Orderly(loop, s) && s.closed && !s.listening && !s.done.Open?
    ensures var r := RunClose(loop, s, steps);
            Orderly(loop, r) && r.closed && !r.listening && r.done == s.done
  {
    if steps != [] {
      ClosedStaysClosed(loop, s, steps[..|steps| - 1]);
    }
  }

  /**
    Idempotence.  When a call of Close has returned, whatever the others are at, the intent is
    recorded and both `done` and the listener are closed; no call of Close, begun or to come,
    changes any of the three; and the serve loop's next turn is its last.
   */
  lemma OneReturnedCallSettlesAll(loop: Loop, s: CloseState, steps: seq<CloseStep>, more: seq<CloseStep>,
                                  world: seq<Turn>)
    requires Bound(loop, s) && exists c <- RunClose(loop, s, steps).calls :: RunClose(loop, s, steps).calls[c].Finished?
    ensures var r := RunClose(loop, s, steps);
            && r.closed && !r.listening && r.done == (if loop.Udp? then Shut else Absent)
            && var q := RunClose(loop, r, more);
               && (q.closed, q.listening, q.done) == (r.closed, r.listening, r.done)
               && (world != [] ==> ServeFrom(loop, q, world, []).served == Stopped)
  {
    var r := RunClose(loop, s, steps);
    EveryRunIsOrderly(loop, s, steps);
    ClosedStaysClosed(loop, r, more);
    if world != [] {
      ShutListenerEndsTheLoop(loop, RunClose(loop, r, more), world, []);
    }
  }

  // Overlapping calls of Close.

  /** Two calls have both seen `done` open and neither has closed it yet. */
  ghost predicate TwoPastTheCheck(s: CloseState) {
    exists a, b :: a in s.calls && b in s.calls && a != b && s.calls[a] == SawOpen && s.calls[b] == SawOpen
  }

  ghost predicate NonePastTheCheck(s: CloseState) {
    forall c <- s.calls :: s.calls[c] != SawOpen
  }

  ghost predicate Overlapped(loop: Loop, s: CloseState, steps: seq<CloseStep>) {
    exists k :: 0 <= k <= |steps| && TwoPastTheCheck(RunClose(loop, s, steps[..k]))
  }

  lemma {:induction false} NoOverlapNoPanic(loop: Loop, s: CloseState, steps: seq<CloseStep>)
    requires Bound(loop, s) && !Overlapped(loop, s, steps)
    ensures var r := RunClose(loop, s, steps); !r.panicked && (r.done.Shut? ==> NonePastTheCheck(r))
  {
    if steps != [] {
      var before := steps[..|steps| - 1];
      forall k | 0 <= k <= |before| ensures !TwoPastTheCheck(RunClose(loop, s, before[..k])) {
        assert before[..k] == steps[..k];
      }
      NoOverlapNoPanic(loop, s, before);
      assert steps[..|before|] == before && steps[..|steps|] == steps;
      var m := RunClose(loop, s, before);
      assert !TwoPastTheCheck(m);
      if At(m, steps[|before|].call) == SawOpen {
        assert forall c <- m.calls :: c != steps[|before|].call ==> m.calls[c] != SawOpen;
      }
    }
  }

  /** `done` has been closed twice, or is bound to be by one of the two calls. */
  predicate Doomed(s: CloseState, a: nat, b: nat) {
    || s.panicked
    || (At(s, a) == SawOpen && At(s, b) == SawOpen)
    || (s.done.Shut? && (At(s, a) == SawOpen || At(s, b) == SawOpen))
  }

  lemma StepAfterOverlap(loop: Loop, s: CloseState, c: CloseStep, a: nat, b: nat)
    requires a != b && Doomed(s, a, b)
    ensures Doomed(StepClose(loop, s, c), a, b)
  {
  }

  lemma {:induction false} OverlapPanics(loop: Loop, s: CloseState, steps: seq<CloseStep>, k: nat, a: nat, b: nat)
    requires k <= |steps| && a != b
    requires At(RunClose(loop, s, steps[..k]), a) == SawOpen && At(RunClose(loop, s, steps[..k]), b) == SawOpen
    ensures Doomed(RunClose(loop, s, steps), a, b)
    decreases |steps|
  {
    if k == |steps| {
      assert steps[..k] == steps;
    } else {
      var before := steps[..|steps| - 1];
      assert before[..k] == steps[..k];
      OverlapPanics(loop, s, before, k, a, b);
      StepAfterOverlap(loop, RunClose(loop, s, before), steps[|steps| - 1], a, b);
    }
  }

  /** `done` has been closed twice, or will be as soon as the calls past the check go on. */
  ghost predicate PanicsOrMust(s: CloseState) {
    s.panicked || TwoPastTheCheck(s) || (s.done.Shut? && !NonePastTheCheck(s))
  }

  /**
    "Idempotent, and safe to call from another goroutine" fails of the UDP routines in exactly the
    runs in which, at some time, two calls stand between the check of `done` and its close.
   */
  lemma ClosePanicsExactlyWhenCallsOverlap(loop: Loop, s: CloseState, steps: seq<CloseStep>)
    requires Bound(loop, s)
    ensures PanicsOrMust(RunClose(loop, s, steps)) <==> Overlapped(loop, s, steps)
    ensures var r := RunClose(loop, s, steps);
            NonePastTheCheck(r) ==> (r.panicked <==> Overlapped(loop, s, steps))
  {
    if Overlapped(loop, s, steps) {
      var k :| 0 <= k <= |steps| && TwoPastTheCheck(RunClose(loop, s, steps[..k]));
      var m := RunClose(loop, s, steps[..k]);
      var a, b :| a in m.calls && b in m.calls && a != b && m.calls[a] == SawOpen && m.calls[b] == SawOpen;
      OverlapPanics(loop, s, steps, k, a, b);
    } else {
      NoOverlapNoPanic(loop, s, steps);
      assert steps[..|steps|] == steps;
    }
  }

  /** What is bound to happen does: any one step of a call past the check of a shut `done` panics. */
  lemma PastTheCheckPanics(loop: Loop, s: CloseState, c: CloseStep)
    requires s.done.Shut? && At(s, c.call) == SawOpen
    ensures StepClose(loop, s, c).panicked
  {
  }

  /** Calls made one after another: a call takes its first step only when all others have returned. */
  ghost predicate Serial(loop: Loop, s: CloseState, steps: seq<CloseStep>) {
    forall k | 0 <= k < |steps| ::
      var m := RunClose(loop, s, steps[..k]);
      At(m, steps[k].call) == Start ==> forall c <- m.calls :: m.calls[c].Finished?
  }

  /** At most one call is under way. */
  ghost predicate OneUnderWay(s: CloseState) {
    forall c, d | c in s.calls && d in s.calls && !s.calls[c].Finished? && !s.calls[d].Finished? :: c == d
  }

  lemma {:induction false} SerialCallsDoNotPanic(loop: Loop, s: CloseState, steps: seq<CloseStep>)
    requires Bound(loop, s) && Serial(loop, s, steps)
    ensures !RunClose(loop, s, steps).panicked && OneUnderWay(RunClose(loop, s, steps))
    ensures !Overlapped(loop, s, steps)
  {
    forall k | 0 <= k <= |steps| ensures OneUnderWay(RunClose(loop, s, steps[..k])) {
      SerialRunsOne(loop, s, steps, k);
    }
    assert steps[..|steps|] == steps;
    NoOverlapNoPanic(loop, s, steps);
  }

  lemma {:induction false} SerialRunsOne(loop: Loop, s: CloseState, steps: seq<CloseStep>, k: nat)
    requires Bound(loop, s) && Serial(loop, s, steps) && k <= |steps|
    ensures OneUnderWay(RunClose(loop, s, steps[..k]))
    decreases k
  {
    if k > 0 {
      SerialRunsOne(loop, s, steps, k - 1);
      assert steps[..k][..k - 1] == steps[..k - 1];
    }
  }

  /** The call has not taken the decision on `done` yet, or has just seen it open. */
  predicate NotYetPast(s: CloseState, c: nat) {
    At(s, c).Start? || At(s, c).Marked? || At(s, c).SawOpen?
  }

  /** Left to run by itself, such a call sees `done` open. */
  lemma SeesOpen(s: CloseState, c: nat) returns (steps: seq<CloseStep>)
    requires s.done.Open? && NotYetPast(s, c)
    ensures var r := RunClose(Udp, s, steps);
            r.done.Open? && At(r, c) == SawOpen && forall d | d != c :: At(r, d) == At(s, d)
  {
    var a := CloseStep(c, Clean);
    if At(s, c).SawOpen? {
      steps := [];
    } else if At(s, c).Marked? {
      steps := [a];
      RunFirst(Udp, s, a, []);
    } else {
      steps := [a, a];
      RunFirst(Udp, s, a, [a]);
      RunFirst(Udp, StepClose(Udp, s, a), a, []);
      assert [a] + [a] == steps;
    }
  }

  /**
    The converse for callers: as long as `done` is open, two calls neither of which has closed it,
    begun or not, can still close it twice.  Only callers that keep their calls apart are safe.
   */
  lemma OverlappingUdpCallsCanPanic(s: CloseState, a: nat, b: nat) returns (steps: seq<CloseStep>)
    requires s.done.Open? && a != b && NotYetPast(s, a) && NotYetPast(s, b)
    ensures RunClose(Udp, s, steps).panicked
  {
    var first := SeesOpen(s, a);
    var m := RunClose(Udp, s, first);
    var second := SeesOpen(m, b);
    var r := RunClose(Udp, m, second);
    var close := [CloseStep(a, Clean), CloseStep(b, Clean)];
    RunFirst(Udp, r, close[0], [close[1]]);
    RunFirst(Udp, StepClose(Udp, r, close[0]), close[1], []);
    assert [close[0]] + [close[1]] == close;
    RunThen(Udp, s, first, second);
    RunThen(Udp, s, first + second, close);
    steps := first + second + close;
  }

  lemma {:induction false} RunThen(loop: Loop, s: CloseState, a: seq<CloseStep>, b: seq<CloseStep>)
    ensures RunClose(loop, s, a + b) == RunClose(loop, RunClose(loop, s, a), b)
    decreases |b|
  {
    if b == [] {
      assert a + b == a;
    } else {
      assert (a + b)[..|a + b| - 1] == a + b[..|b| - 1];
      RunThen(loop, s, a, b[..|b| - 1]);
    }
  }

  lemma RunFirst(loop: Loop, s: CloseState, c: CloseStep, rest: seq<CloseStep>)
    ensures RunClose(loop, s, [c] + rest) == RunClose(loop, StepClose(loop, s, c), rest)
    ensures RunClose(loop, s, [c]) == StepClose(loop, s, c)
  {
    assert [c][..0] == [];
    RunThen(loop, s, [c], rest);
  }

  // What a call of Close returns.

  /** The k-th step is the one in which this call closes the listener. */
  ghost predicate ClosesListenerAt(loop: Loop, s: CloseState, steps: seq<CloseStep>, call: nat, k: nat) {
    k < |steps| && steps[k].call == call && At(RunClose(loop, s, steps[..k]), call) == AtListener
  }

  lemma {:induction false} ReturnedStaysReturned(loop: Loop, s: CloseState, steps: seq<CloseStep>, call: nat)
    requires At(s, call).Finished?
    ensures At(RunClose(loop, s, steps), call) == At(s, call)
  {
    if steps != [] {
      ReturnedStaysReturned(loop, s, steps[..|steps| - 1], call);
    }
  }

  /** How many of the steps are this call's own. */
  function OwnSteps(steps: seq<CloseStep>, call: nat): nat {
    if steps == [] then 0
    else OwnSteps(steps[..|steps| - 1], call) + if steps[|steps| - 1].call == call then 1 else 0
  }

  function StepsLeft(at: CloseAt): nat {
    match at
    case Start => 4
    case Marked => 3
    case SawOpen => 2
    case AtListener => 1
    case Finished(_) => 0
  }

  lemma {:induction false} OwnStepsReturn(loop: Loop, s: CloseState, steps: seq<CloseStep>, call: nat)
    ensures StepsLeft(At(RunClose(loop, s, steps), call)) <=
            if OwnSteps(steps, call) >= StepsLeft(At(s, call)) then 0
            else StepsLeft(At(s, call)) - OwnSteps(steps, call)
  {
    if steps != [] {
      OwnStepsReturn(loop, s, steps[..|steps| - 1], call);
      OneStepLess(loop, RunClose(loop, s, steps[..|steps| - 1]), steps[|steps| - 1], call);
    }
  }

  /** Different places in the schedule, in order, at which the call takes a step. */
  ghost predicate OwnPlaces(steps: seq<CloseStep>, call: nat, at: seq<nat>) {
    && (forall j | 0 <= j < |at| :: at[j] < |steps| && steps[at[j]].call == call)
    && (forall j, k | 0 <= j < k < |at| :: at[j] < at[k])
  }

  lemma {:induction false} PlacesAreOwnSteps(steps: seq<CloseStep>, call: nat, at: seq<nat>)
    requires OwnPlaces(steps, call, at)
    ensures |at| <= OwnSteps(steps, call)
  {
    if at != [] {
      var n, last := |at| - 1, |steps| - 1;
      assert at[n] <= last;
      var before := steps[..last];
      if at[n] == last {
        assert OwnPlaces(before, call, at[..n]);
        PlacesAreOwnSteps(before, call, at[..n]);
      } else {
        assert forall j | 0 <= j <= n :: at[j] <= at[n];
        assert OwnPlaces(before, call, at);
        PlacesAreOwnSteps(before, call, at);
      }
    }
  }

  /** No call waits for another: whatever runs in between, four steps of its own and it has returned. */
  lemma FourStepsReturn(loop: Loop, s: CloseState, steps: seq<CloseStep>, call: nat, at: seq<nat>)
    requires OwnPlaces(steps, call, at) && |at| == 4
    ensures At(RunClose(loop, s, steps), call).Finished?
  {
    PlacesAreOwnSteps(steps, call, at);
    OwnStepsReturn(loop, s, steps, call);
  }

  lemma OneStepLess(loop: Loop, s: CloseState, c: CloseStep, call: nat)
    ensures var now, next := StepsLeft(At(s, call)), StepsLeft(At(StepClose(loop, s, c), call));
            if c.call == call && now > 0 then next < now else next == now
  {
  }

  /** No call closes the listener twice. */
  lemma ClosesListenerOnce(loop: Loop, s: CloseState, steps: seq<CloseStep>, call: nat, j: nat, k: nat)
    requires ClosesListenerAt(loop, s, steps, call, j) && ClosesListenerAt(loop, s, steps, call, k)
    ensures k <= j
  {
    if j < k {
      var m := RunClose(loop, s, steps[..j]);
      assert steps[..j + 1] == steps[..j] + [steps[j]];
      RunThen(loop, s, steps[..j], [steps[j]]);
      RunFirst(loop, m, steps[j], []);
      assert steps[..k] == steps[..j + 1] + steps[j + 1..k];
      RunThen(loop, s, steps[..j + 1], steps[j + 1..k]);
      ReturnedStaysReturned(loop, StepClose(loop, m, steps[j]), steps[j + 1..k], call);
      assert false;
    }
  }

  lemma StepThatReturns(loop: Loop, s: CloseState, c: CloseStep, call: nat)
    requires !At(s, call).Finished? && At(StepClose(loop, s, c), call).Finished?
    ensures c.call == call && At(s, call) == AtListener
    ensures At(StepClose(loop, s, c), call).result == CloseListener(c.report)
  {
  }

  /** What a call returned is what the listener reported in its own step, net.ErrClosed being no error. */
  lemma {:induction false} ReturnsTheReport(loop: Loop, s: CloseState, steps: seq<CloseStep>, call: nat)
    returns (k: nat)
    requires At(s, call).Start? && At(RunClose(loop, s, steps), call).Finished?
    ensures ClosesListenerAt(loop, s, steps, call, k)
    ensures At(RunClose(loop, s, steps), call).result == CloseListener(steps[k].report)
  {
    var n := |steps| - 1;
    var before := steps[..n];
    var m := RunClose(loop, s, before);
    if At(m, call).Finished? {
      k := ReturnsTheReport(loop, s, before, call);
      StillClosesListenerAt(loop, s, steps, call, k);
      OneStepLess(loop, m, steps[n], call);
    } else {
      StepThatReturns(loop, m, steps[n], call);
      k := n;
    }
  }

  lemma StillClosesListenerAt(loop: Loop, s: CloseState, steps: seq<CloseStep>, call: nat, k: nat)
    requires steps != [] && ClosesListenerAt(loop, s, steps[..|steps| - 1], call, k)
    ensures ClosesListenerAt(loop, s, steps, call, k)
  {
    assert steps[..|steps| - 1][..k] == steps[..k];
  }

  /**
    A call that has returned closed the listener in exactly one step, and returned an error exactly
    when the listener reported one there that is not net.ErrClosed: then it returned that error.
   */
  lemma CloseReturnsTheListenersError(loop: Loop, s: CloseState, steps: seq<CloseStep>, call: nat) returns (k: nat)
    requires At(s, call).Start? && At(RunClose(loop, s, steps), call).Finished?
    ensures ClosesListenerAt(loop, s, steps, call, k)
    ensures forall j: nat :: ClosesListenerAt(loop, s, steps, call, j) ==> j == k
    ensures var result := At(RunClose(loop, s, steps), call).result;
            && (result.Failed? <==> steps[k].report.Failed? && !IsNetClosed(steps[k].report.error))
            && (result.Failed? ==> result == steps[k].report)
  {
    k := ReturnsTheReport(loop, s, steps, call);
    forall j: nat | ClosesListenerAt(loop, s, steps, call, j) ensures j == k {
      ClosesListenerOnce(loop, s, steps, call, j, k);
      ClosesListenerOnce(loop, s, steps, call, k, j);
    }
  }

  /** A routine: its intent, its `done` channel, its listener, and the calls of Close under way. */
  class Routine {
    const loop: Loop
    var closed: bool
    var done: Done
    var listening: bool
    var calls: map<nat, CloseAt>
    var panicked: bool

    function View(): CloseState
      reads this
    {
      CloseState(closed, done, listening, calls, panicked)
    }

    constructor Bind(loop: Loop)
      ensures this.loop == loop && Bound(loop, View())
    {
      this.loop := loop;
      closed, listening, calls, panicked := false, true, map[], false;
      done := if loop.Udp? then Open else Absent;
    }

    /** The next step of one call of Close. */
    method AdvanceClose(c: CloseStep)
      modifies this
      ensures View() == StepClose(loop, old(View()), c)
    {
      match if c.call in calls then calls[c.call] else Start
      case Start =>
        closed, calls := true, calls[c.call := Marked];
      case Marked =>
        calls := calls[c.call := if loop.Udp? && done.Open? then SawOpen else AtListener];
      case SawOpen =>
        if done.Shut? {
          panicked := true;
        }
        done, calls := Shut, calls[c.call := AtListener];
      case AtListener =>
        listening, calls := false, calls[c.call := Finished(CloseListener(c.report))];
      case Finished(_) =>
    }

    /** Other goroutines run while this one is blocked or descheduled. */
    method Interfere(steps: seq<CloseStep>)
      modifies this
      ensures View() == RunClose(loop, old(View()), steps)
    {
      for k := 0 to |steps|
        invariant View() == RunClose(loop, old(View()), steps[..k])
      {
        AdvanceClose(steps[k]);
        assert steps[..k + 1][..k] == steps[..k];
      }
      assert steps[..|steps|] == steps;
    }

    /** The accept or read loop. */
    method Serve(world: seq<Turn>) returns (served: Served, ghost log: seq<Judgement>)
      modifies this
      ensures Outcome(served, View(), log) == ServeFrom(loop, old(View()), world, [])
    {
      served, log := Running, [];
      for k := 0 to |world|
        invariant served == Running
        invariant ServeFrom(loop, View(), world[k..], log) == ServeFrom(loop, old(View()), world, [])
      {
        var t := world[k];
        assert world[k..][0] == t && world[k..][1..] == world[k + 1..];
        Interfere(t.before);
        var shut := !listening;
        if shut || !t.offered {
          Interfere(t.between);
          log := log + [Judgement(t.error, shut, closed)];
          served := Verdict(loop, closed, t.error);
          if !served.Running? {
            return;
          }
        }
      }
    }
  }
}
