/**
  The program from its start: what a constructed Forwarder does under any schedule, and what it does
  with an idle session under a timely one.
 */
module UdpService {
  import opened UdpModel
  import opened UdpSafety
  import opened UdpTheorems
  import opened UdpForwarding
  import opened UdpTiming
  import opened UdpEviction
  import opened UdpProgram

  /** Source by source an in-order choice of whole packets, each packet written at most once. */
  ghost predicate Faithful(written: seq<Forward>, received: seq<Packet>) {
    && Traced(written, received)
    && forall src: string :: Subsequence(WrittenFor(written, src), ReceivedFrom(received, src))
  }

  ghost predicate AnswersSource(x: SessionObject)
    reads x
  {
    forall j | 0 <= j < |x.replies| :: x.replies[j].dest == x.key
  }

  /** What a Forwarder has done so far is right: sessions, forwarding and replies. */
  ghost predicate InOrder(f: Forwarder)
    reads f, f.started
  {
    && Faithful(f.written, f.state.received)
    && (forall x <- f.started :: AnswersSource(x))
    && (forall k <- f.sessions :: f.sessions[k] in f.started && f.sessions[k].key == k && f.sessions[k].chanOpen)
    && forall i, j | 0 <= i < j < |f.started| ::
         f.started[i].chanOpen && f.started[j].chanOpen ==> f.started[i].key != f.started[j].key
  }

  lemma RunIsInOrder(f: Forwarder, s: State, schedule: seq<Action>)
    requires f.Valid() && Initial(s) && f.state == Run(f.kind, s, schedule)
    ensures InOrder(f)
  {
    EveryRunForwards(f.kind, s, schedule);
    TableHoldsExactlyTheOpenSessions(f.kind, s, schedule);
    forall src: string ensures Subsequence(WrittenFor(f.written, src), ReceivedFrom(f.state.received, src)) {
      ForwardingIsFaithful(f.kind, s, schedule, src);
    }
    forall x <- f.started ensures AnswersSource(x) {
      var i :| 0 <= i < |f.started| && f.started[i] == x;
      RepliesReachTheirSource(f.kind, s, schedule, i);
    }
    forall k <- f.sessions
      ensures f.sessions[k] in f.started && f.sessions[k].key == k && f.sessions[k].chanOpen
    {
      var i := f.state.table[k];
      assert f.sessions[k] == f.started[i] && Listed(f.state, i);
    }
  }

  /** From Serve on, under any schedule: a run of the transition system from its initial state. */
  method ServeUnder(kind: Kind, inactivityTimeout: int, now: int, schedule: seq<Action>) returns (f: Forwarder)
    ensures fresh(f) && f.Valid() && InOrder(f)
    ensures f.kind == kind && f.state == Run(kind, InitialState(now, inactivityTimeout), schedule)
  {
    f := new Forwarder(kind, inactivityTimeout, now);
    EveryRunKeepsInv(kind, f.state, []);
    f.Execute(schedule);
    RunIsInOrder(f, InitialState(now, inactivityTimeout), schedule);
  }

  /** Session i is neither in the map nor open. */
  ghost predicate Evicted(f: Forwarder, i: nat)
    reads f, f.started
  {
    i < |f.started| && !f.started[i].chanOpen && forall k <- f.sessions :: f.sessions[k] != f.started[i]
  }

  lemma UnlistedIsEvicted(f: Forwarder, i: nat)
    requires f.Valid() && Inv(f.kind, f.state) && i < |f.state.sessions|
    requires !Listed(f.state, i) && !Pending(f.state, i)
    ensures Evicted(f, i) && f.started[i].connOpen == f.state.sessions[i].connOpen
  {
    forall k <- f.sessions ensures f.sessions[k] != f.started[i] {
      var j := f.state.table[k];
      assert f.sessions[k] == f.started[j] && f.started[j].id == j && f.started[i].id == i;
    }
  }

  lemma IdleIsEvicted(kind: Kind, s: State, schedule: seq<Action>, m: nat, i: nat, L: int) returns (e: nat)
    requires Initial(s) && s.timeout > 0 && TimelyRun(kind, s, schedule) && m <= |schedule|
    requires LeftAlone(kind, s, schedule, m, i, L) && ListedAt(kind, s, schedule, m, i)
    requires Run(kind, s, schedule).now >= L + s.timeout + 10 * 1_000_000_000
    ensures m <= e < |schedule| && schedule[e].Sweep?
    ensures L + s.timeout <= schedule[e].t < L + s.timeout + 10 * 1_000_000_000
    ensures var q := Run(kind, s, schedule);
            && Inv(kind, q) && i < |q.sessions| && !Listed(q, i) && !Pending(q, i)
            && (q.now > schedule[e].t + 5 * 1_000_000_000 ==> !q.sessions[i].connOpen)
  {
    e := InactiveSessionIsEvicted(kind, s, schedule, m, i, L);
    EveryRunKeepsInv(kind, s, schedule);
  }

  /**
    An idle session of the program itself: the i-th one made, listed when m actions are done, last
    active at L and left alone since, is evicted by the e-th action, a sweep in the promised window;
    at the end it is not in the map, and 5 s after that sweep its connection is closed.
   */
  method ServeIdle(kind: Kind, inactivityTimeout: int, now: int, schedule: seq<Action>, ghost m: nat, ghost i: nat,
                   ghost L: int)
    returns (f: Forwarder, ghost e: nat)
    requires inactivityTimeout > 0 && m <= |schedule|
    requires var s := InitialState(now, inactivityTimeout);
             && TimelyRun(kind, s, schedule) && LeftAlone(kind, s, schedule, m, i, L)
             && ListedAt(kind, s, schedule, m, i)
             && Run(kind, s, schedule).now >= L + (inactivityTimeout + 10) * 1_000_000_000
    ensures fresh(f) && f.Valid() && InOrder(f) && Evicted(f, i)
    ensures f.state == Run(kind, InitialState(now, inactivityTimeout), schedule)
    ensures m <= e < |schedule| && schedule[e].Sweep?
    ensures L + inactivityTimeout * 1_000_000_000 <= schedule[e].t < L + (inactivityTimeout + 10) * 1_000_000_000
    ensures f.now > schedule[e].t + 5 * 1_000_000_000 ==> !f.started[i].connOpen
  {
    f := ServeUnder(kind, inactivityTimeout, now, schedule);
    ServeStartsInitial(now, inactivityTimeout);
    e := IdleIsEvicted(kind, InitialState(now, inactivityTimeout), schedule, m, i, L);
    UnlistedIsEvicted(f, i);
  }
}
