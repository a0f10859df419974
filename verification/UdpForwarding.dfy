/**
  Forwarding over the one reused buffer: for each source, what is written is an in-order, whole and
  unmodified subsequence of what was received from it, across evictions and re-creations; and
  replies go back, in order, to the source that created the session.
 */
module UdpForwarding {
  import opened UdpModel
  import opened UdpSafety

  /** a can be got from b by leaving out elements. */
  ghost predicate Subsequence<T>(a: seq<T>, b: seq<T>) {
    || a == []
    || (b != [] && (|| (a[|a| - 1] == b[|b| - 1] && Subsequence(a[..|a| - 1], b[..|b| - 1]))
                    || Subsequence(a, b[..|b| - 1])))
  }

  ghost predicate Increasing(at: seq<nat>) {
    forall j, k | 0 <= j < k < |at| :: at[j] < at[k]
  }

  /** The elements of a, in order, are those of b at these places. */
  ghost predicate PicksOut<T>(a: seq<T>, b: seq<T>, at: seq<nat>) {
    && |at| == |a| && Increasing(at)
    && forall j | 0 <= j < |a| :: at[j] < |b| && a[j] == b[at[j]]
  }

  /** That is: a is what stands in b at some increasing places. */
  lemma {:induction false} SubsequencePicksOut<T>(a: seq<T>, b: seq<T>) returns (at: seq<nat>)
    requires Subsequence(a, b)
    ensures PicksOut(a, b, at)
  {
    if a == [] {
      at := [];
    } else if a[|a| - 1] == b[|b| - 1] && Subsequence(a[..|a| - 1], b[..|b| - 1]) {
      var front := SubsequencePicksOut(a[..|a| - 1], b[..|b| - 1]);
      at := front + [|b| - 1];
    } else {
      at := SubsequencePicksOut(a, b[..|b| - 1]);
    }
  }

  lemma {:induction false} PickedOutIsSubsequence<T>(a: seq<T>, b: seq<T>, at: seq<nat>)
    requires PicksOut(a, b, at)
    ensures Subsequence(a, b)
    decreases |b|
  {
    if a != [] {
      var n := |a| - 1;
      if at[n] == |b| - 1 {
        PickedOutIsSubsequence(a[..n], b[..|b| - 1], at[..n]);
      } else {
        assert forall j | 0 <= j <= n :: at[j] <= at[n];
        PickedOutIsSubsequence(a, b[..|b| - 1], at);
      }
    }
  }

  function ReceivedFrom(log: seq<Packet>, src: string): seq<seq<Byte>> {
    if log == [] then []
    else
      var p := log[|log| - 1];
      ReceivedFrom(log[..|log| - 1], src) + if p.src == src then [p.data] else []
  }

  function WrittenFor(log: seq<Forward>, src: string): seq<seq<Byte>> {
    if log == [] then []
    else
      var f := log[|log| - 1];
      WrittenFor(log[..|log| - 1], src) + if f.dest == src then [f.data] else []
  }

  function RepliesData(replies: seq<Reply>): seq<Datagram> {
    seq(|replies|, i requires 0 <= i < |replies| => replies[i].data)
  }

  /** Every write carries the packet its index names, whole, for that packet's source; indices increase. */
  ghost predicate Traced(written: seq<Forward>, received: seq<Packet>) {
    && (forall j | 0 <= j < |written| ::
          && 0 <= written[j].index < |received|
          && written[j].dest == received[written[j].index].src
          && written[j].data == received[written[j].index].data)
    && (forall j, k | 0 <= j < k < |written| :: written[j].index < written[k].index)
  }

  /** The packet the reader is working on is the last received, and still stands in the buffer. */
  ghost predicate InHand(s: State, src: string, n: nat) {
    && s.received != [] && n <= BUFFER_SIZE
    && s.received[|s.received| - 1].src == src
    && s.buf[..n] == s.received[|s.received| - 1].data
    && (forall j | 0 <= j < |s.forwarded| :: s.forwarded[j].index < |s.received| - 1)
  }

  ghost predicate ReaderCarries(s: State)
    requires Bounded(s)
  {
    match s.reader
    case Received(src, n) => InHand(s, src, n)
    case Missed(src, n) => InHand(s, src, n)
    case Built(src, n, i) => InHand(s, src, n)
    case Holding(i, n) => InHand(s, s.sessions[i].key, n)
    case Sending(i, n) => InHand(s, s.sessions[i].key, n)
    case _ => true
  }

  /** Writes are made by sessions of the packet's source. */
  ghost predicate RightSession(s: State) {
    forall j | 0 <= j < |s.forwarded| ::
      s.forwarded[j].sid < |s.sessions| && s.sessions[s.forwarded[j].sid].key == s.forwarded[j].dest
  }

  predicate Carrying(x: Session) {
    x.pc.Touching? || x.pc.Resolving? || x.pc.Replying?
  }

  /** A reply goroutine answers its own source with what it read, in order, at most once each. */
  ghost predicate RepliesOk(x: Session) {
    && (forall j | 0 <= j < |x.replies| :: x.replies[j].dest == x.key)
    && (if Carrying(x) then
          && x.heard != [] && x.heard[|x.heard| - 1] == x.pc.data
          && Subsequence(RepliesData(x.replies), x.heard[..|x.heard| - 1])
        else Subsequence(RepliesData(x.replies), x.heard))
  }

  ghost predicate ForwardOk(s: State) {
    Bounded(s) && Traced(s.forwarded, s.received) && ReaderCarries(s) && RightSession(s)
  }

  ghost predicate AllRepliesOk(s: State) {
    forall i | 0 <= i < |s.sessions| :: RepliesOk(s.sessions[i])
  }

  /** Steps that move no packet: sessions keep their sources, the reader and its buffer stand still. */
  lemma QuietKeepsForwarding(s: State, r: State)
    requires ForwardOk(s) && Bounded(r)
    requires r.reader == s.reader && r.buf == s.buf && r.received == s.received && r.forwarded == s.forwarded
    requires |s.sessions| <= |r.sessions|
    requires forall i | 0 <= i < |s.sessions| :: r.sessions[i].key == s.sessions[i].key
    ensures ForwardOk(r)
  {
  }

  /** The reader goes from one program point to another with the same packet in hand, or drops it. */
  lemma CarryKeepsForwarding(s: State, r: State, src: string, n: nat)
    requires ForwardOk(s) && Bounded(r) && InHand(s, src, n)
    requires r.buf == s.buf && r.received == s.received && r.forwarded == s.forwarded
    requires |s.sessions| <= |r.sessions|
    requires forall i | 0 <= i < |s.sessions| :: r.sessions[i].key == s.sessions[i].key
    requires match r.reader
             case Missed(k, m) => k == src && m == n
             case Built(k, m, _) => k == src && m == n
             case Holding(i, m) => r.sessions[i].key == src && m == n
             case Sending(i, m) => r.sessions[i].key == src && m == n
             case _ => r.reader.Waiting?
    ensures ForwardOk(r)
  {
  }

  lemma ReceiveKeepsForwarding(s: State, src: string, d: Datagram)
    requires ForwardOk(s) && s.reader.Waiting?
    ensures ForwardOk(ReaderStep(Proxy, s, Receive(src, d))) && ForwardOk(ReaderStep(Tunnel, s, Receive(src, d)))
  {
    var r := ReaderStep(Proxy, s, Receive(src, d));
    assert r.buf[..|d|] == d;
    assert InHand(r, src, |d|);
  }

  lemma SendKeepsForwarding(s: State, ok: bool)
    requires ForwardOk(s) && s.reader.Sending?
    ensures ForwardOk(SendStep(s, ok))
  {
  }

  /** Finding, making and inserting a session, on the way from a packet received to its write. */
  lemma FindingKeepsForwarding(kind: Kind, s: State, a: Action)
    requires Inv(kind, s) && ForwardOk(s) && (s.reader.Received? || s.reader.Missed? || s.reader.Built?)
    requires a.FindOrCreate? || a.Lookup? || a.Build? || a.Insert?
    ensures ForwardOk(ReaderStep(kind, s, a))
  {
    var r := ReaderStep(kind, s, a);
    if r != s {
      CarryKeepsForwarding(s, r, s.reader.src, s.reader.n);
    }
  }

  lemma RefreshKeepsForwarding(kind: Kind, s: State)
    requires Bounded(s) && ForwardOk(s) && s.reader.Holding?
    ensures ForwardOk(ReaderStep(kind, s, Refresh))
  {
    CarryKeepsForwarding(s, ReaderStep(kind, s, Refresh), s.sessions[s.reader.sid].key, s.reader.n);
  }

  lemma OverwriteKeepsForwarding(kind: Kind, s: State, a: Action)
    requires ForwardOk(s) && (a.Misread? || a.Return?)
    ensures ForwardOk(ReaderStep(kind, s, a))
  {
  }

  lemma ReaderKeepsForwarding(kind: Kind, s: State, a: Action)
    requires Inv(kind, s) && ForwardOk(s)
    ensures ForwardOk(ReaderStep(kind, s, a))
  {
    if a.Receive? {
      if s.reader.Waiting? { ReceiveKeepsForwarding(s, a.src, a.data); }
    } else if a.Send? {
      if s.reader.Sending? { SendKeepsForwarding(s, a.ok); }
    } else if a.Refresh? {
      if s.reader.Holding? { RefreshKeepsForwarding(kind, s); }
    } else if a.Misread? || a.Return? {
      OverwriteKeepsForwarding(kind, s, a);
    } else if a.FindOrCreate? || a.Lookup? || a.Build? || a.Insert? {
      if s.reader.Received? || s.reader.Missed? || s.reader.Built? { FindingKeepsForwarding(kind, s, a); }
    }
  }

  lemma HandlerKeepsForwarding(kind: Kind, s: State, i: nat, o: Outcome)
    requires ForwardOk(s) && i < |s.sessions|
    ensures ForwardOk(HandlerStep(kind, s, i, o))
  {
    var r := HandlerStep(kind, s, i, o);
    assert Proceed(kind, s.sessions[i], o, s.now, s.timeout).key == s.sessions[i].key;
    QuietKeepsForwarding(s, r);
  }

  lemma WeakenSubsequence<T>(a: seq<T>, b: seq<T>)
    requires b != [] && Subsequence(a, b[..|b| - 1])
    ensures Subsequence(a, b)
  {
  }

  lemma HearKeepsReplies(x: Session, y: Session, d: Datagram)
    requires RepliesOk(x) && !Carrying(x)
    requires y.key == x.key && y.replies == x.replies && y.heard == x.heard + [d] && y.pc == Touching(d)
    ensures RepliesOk(y)
  {
    assert y.heard[..|y.heard| - 1] == x.heard;
  }

  lemma AnswerKeepsReplies(x: Session, y: Session)
    requires RepliesOk(x) && Carrying(x) && !Carrying(y) && y.key == x.key && y.heard == x.heard
    requires y.replies == x.replies || y.replies == x.replies + [Reply(x.key, x.pc.data)]
    ensures RepliesOk(y)
  {
    if y.replies == x.replies {
      WeakenSubsequence(RepliesData(x.replies), x.heard);
    } else {
      assert RepliesData(y.replies)[..|y.replies| - 1] == RepliesData(x.replies);
    }
  }

  lemma SameKeepsReplies(x: Session, y: Session)
    requires RepliesOk(x) && y.key == x.key && y.heard == x.heard && y.replies == x.replies
    requires Carrying(x) == Carrying(y) && (Carrying(x) ==> x.pc.data == y.pc.data)
    ensures RepliesOk(y)
  {
  }

  lemma ProceedKeepsReplies(kind: Kind, x: Session, o: Outcome, now: int, timeout: int)
    requires RepliesOk(x)
    ensures RepliesOk(Proceed(kind, x, o, now, timeout))
  {
    var y := Proceed(kind, x, o, now, timeout);
    if x.pc.Reading? && o.Data? {
      HearKeepsReplies(x, y, o.data);
    } else if Carrying(x) && !Carrying(y) {
      AnswerKeepsReplies(x, y);
    } else {
      SameKeepsReplies(x, y);
    }
  }

  /** y has said and heard what x has, and holds the same datagram, if any. */
  predicate SameTalk(x: Session, y: Session) {
    && y.key == x.key && y.heard == x.heard && y.replies == x.replies
    && (y.pc == x.pc || (!Carrying(x) && !Carrying(y)))
  }

  /** Everything but a handler's own loop body leaves every conversation alone. */
  lemma OthersKeepTalk(kind: Kind, s: State, a: Action)
    requires Inv(kind, s) && !a.Handle?
    ensures var r := Step(kind, s, a);
            && |s.sessions| <= |r.sessions|
            && (forall i | 0 <= i < |s.sessions| :: SameTalk(s.sessions[i], r.sessions[i]))
            && (forall i | |s.sessions| <= i < |r.sessions| :: r.sessions[i].replies == [] && !Carrying(r.sessions[i]))
  {
    if a.Sweep? {
      SweepKeepsTalk(s, a.t);
    } else {
      ReaderKeepsTalk(kind, s, a);
    }
  }

  lemma SweepKeepsTalk(s: State, t: int)
    requires Bounded(s)
    ensures var r := SweepTable(s, t);
            |r.sessions| == |s.sessions| && forall i | 0 <= i < |s.sessions| :: SameTalk(s.sessions[i], r.sessions[i])
  {
  }

  lemma ReaderKeepsTalk(kind: Kind, s: State, a: Action)
    requires Inv(kind, s)
    ensures var r := ReaderStep(kind, s, a);
            && |s.sessions| <= |r.sessions|
            && (forall i | 0 <= i < |s.sessions| :: SameTalk(s.sessions[i], r.sessions[i]))
            && (forall i | |s.sessions| <= i < |r.sessions| :: r.sessions[i].replies == [] && !Carrying(r.sessions[i]))
  {
    ReaderOnlyAdds(kind, s, a);
    var r := ReaderStep(kind, s, a);
    forall i: nat | i < |r.sessions|
      ensures if i < |s.sessions| then SameTalk(s.sessions[i], r.sessions[i])
              else r.sessions[i].replies == [] && !Carrying(r.sessions[i])
    {
      ReaderFrame(kind, s, a, i);
    }
  }

  lemma HandlerKeepsReplies(kind: Kind, s: State, i: nat, o: Outcome)
    requires Bounded(s) && i < |s.sessions| && AllRepliesOk(s)
    ensures AllRepliesOk(HandlerStep(kind, s, i, o))
  {
    var x, r := s.sessions[i], HandlerStep(kind, s, i, o);
    assert |r.sessions| == |s.sessions| && forall j | 0 <= j < |s.sessions| && j != i :: r.sessions[j] == s.sessions[j];
    if Deferred(x.pc) {
      assert SameTalk(x, r.sessions[i]);
    } else {
      ProceedKeepsReplies(kind, x, o, s.now, s.timeout);
    }
  }

  lemma StepKeepsReplies(kind: Kind, s: State, a: Action)
    requires Inv(kind, s) && AllRepliesOk(s)
    ensures AllRepliesOk(Step(kind, s, a))
  {
    if a.Handle? {
      if a.sid < |s.sessions| {
        HandlerKeepsReplies(kind, s, a.sid, a.outcome);
      }
    } else {
      OthersKeepTalk(kind, s, a);
      var r := Step(kind, s, a);
      forall i | 0 <= i < |r.sessions| ensures RepliesOk(r.sessions[i]) {
        if i < |s.sessions| {
          assert SameTalk(s.sessions[i], r.sessions[i]) && RepliesOk(s.sessions[i]);
        } else {
          assert RepliesData(r.sessions[i].replies) == [];
        }
      }
    }
  }

  lemma StepKeepsForwarding(kind: Kind, s: State, a: Action)
    requires Inv(kind, s) && ForwardOk(s)
    ensures ForwardOk(Step(kind, s, a))
  {
    if a.Handle? {
      if a.sid < |s.sessions| { HandlerKeepsForwarding(kind, s, a.sid, a.outcome); }
    } else if a.Sweep? || a.StopReaper? || a.Advance? {
      QuietKeepsForwarding(s, Step(kind, s, a));
    } else {
      ReaderKeepsForwarding(kind, s, a);
    }
  }

  lemma {:induction false} EveryRunForwards(kind: Kind, s: State, schedule: seq<Action>)
    requires Initial(s)
    ensures var r := Run(kind, s, schedule); Inv(kind, r) && ForwardOk(r) && AllRepliesOk(r)
  {
    if schedule != [] {
      var before, a := schedule[..|schedule| - 1], schedule[|schedule| - 1];
      EveryRunForwards(kind, s, before);
      var m := Run(kind, s, before);
      StepKeepsInv(kind, m, a);
      StepKeepsReplies(kind, m, a);
      StepKeepsForwarding(kind, m, a);
    }
  }

  lemma LastWritten(written: seq<Forward>, src: string)
    requires written != []
    ensures var front, f := written[..|written| - 1], written[|written| - 1];
            WrittenFor(written, src) == if f.dest == src then WrittenFor(front, src) + [f.data]
                                        else WrittenFor(front, src)
  {
  }

  lemma LastReceived(received: seq<Packet>, src: string)
    requires received != []
    ensures var front, p := received[..|received| - 1], received[|received| - 1];
            ReceivedFrom(received, src) == if p.src == src then ReceivedFrom(front, src) + [p.data]
                                           else ReceivedFrom(front, src)
  {
  }

  lemma ExtendSubsequence<T>(a: seq<T>, b: seq<T>, x: T)
    requires Subsequence(a, b)
    ensures Subsequence(a + [x], b + [x]) && Subsequence(a, b + [x])
  {
    assert (a + [x])[..|a|] == a && (b + [x])[..|b|] == b;
  }

  lemma TracedFront(written: seq<Forward>, received: seq<Packet>)
    requires Traced(written, received) && written != []
    ensures Traced(written[..|written| - 1], received[..written[|written| - 1].index])
  {
  }

  lemma TracedEarlier(written: seq<Forward>, received: seq<Packet>)
    requires Traced(written, received) && written != [] && written[|written| - 1].index < |received| - 1
    ensures Traced(written, received[..|received| - 1])
  {
  }

  /** A log traced to distinct, increasing packets is, source by source, a subsequence of them. */
  lemma {:induction false} TracedIsSubsequence(written: seq<Forward>, received: seq<Packet>, src: string)
    requires Traced(written, received)
    ensures Subsequence(WrittenFor(written, src), ReceivedFrom(received, src))
    decreases |received|
  {
    if written != [] {
      var f, n := written[|written| - 1], |received| - 1;
      LastReceived(received, src);
      if f.index == n {
        LastWritten(written, src);
        TracedFront(written, received);
        TracedIsSubsequence(written[..|written| - 1], received[..n], src);
        ExtendSubsequence(WrittenFor(written[..|written| - 1], src), ReceivedFrom(received[..n], src), f.data);
      } else {
        TracedEarlier(written, received);
        TracedIsSubsequence(written, received[..n], src);
        ExtendSubsequence(WrittenFor(written, src), ReceivedFrom(received[..n], src), received[n].data);
      }
    }
  }

  /** For every schedule and source: in order, whole and unmodified; each packet to one session at most. */
  lemma ForwardingIsFaithful(kind: Kind, s: State, schedule: seq<Action>, src: string)
    requires Initial(s)
    ensures var r := Run(kind, s, schedule);
            && Subsequence(WrittenFor(r.forwarded, src), ReceivedFrom(r.received, src))
            && Traced(r.forwarded, r.received) && RightSession(r)
  {
    EveryRunForwards(kind, s, schedule);
    var r := Run(kind, s, schedule);
    TracedIsSubsequence(r.forwarded, r.received, src);
  }

  /** Replies of a session go only to the source that created it, in the order they were read. */
  lemma RepliesReachTheirSource(kind: Kind, s: State, schedule: seq<Action>, i: nat)
    requires Initial(s) && i < |Run(kind, s, schedule).sessions|
    ensures var x := Run(kind, s, schedule).sessions[i];
            && (forall j | 0 <= j < |x.replies| :: x.replies[j].dest == x.key)
            && Subsequence(RepliesData(x.replies), x.heard)
  {
    EveryRunForwards(kind, s, schedule);
    var x := Run(kind, s, schedule).sessions[i];
    if Carrying(x) {
      WeakenSubsequence(RepliesData(x.replies), x.heard);
    }
  }
}
