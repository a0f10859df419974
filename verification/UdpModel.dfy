/**
  The UDP session tables of udp_proxy.go and udp_server_tunnel.go as one transition system.

  A step is one critical section, or one access to shared state made outside the mutex.  Every
  choice of the environment (which goroutine runs, what a socket call returns, what the clock
  says) is part of the action, so a schedule is a sequence of actions and `Run` is a function.
  An action whose goroutine is not at the matching program point leaves the state unchanged.
  Fields that the program does not have (close counts, logs) only record history.
 */
module UdpModel {
  import Text
  import opened Durations

  const BUFFER_SIZE := 65536
  const READ_DEADLINE := 5 * SECOND
  const SWEEP_PERIOD := 10 * SECOND

  type Byte = Text.Byte

  /** The UDP length field is 16 bits wide, so a datagram always fits the 64 KiB buffer. */
  type Datagram = d: seq<Byte> | |d| < BUFFER_SIZE

  type Buffer = b: seq<Byte> | |b| == BUFFER_SIZE witness seq(BUFFER_SIZE, _ => 0)

  /** Which file: they differ in how the reader finds its session and in the teardown order. */
  datatype Kind = Proxy | Tunnel

  /** Program points of a session's reply goroutine. */
  datatype Handler =
    | NotStarted
    | Checking                    // select on closeChan at the top of the loop
    | Arming                      // closeChan seen open, Read not yet started
    | Reading                     // blocked in Read
    | Rechecking                  // select on closeChan after a timeout
    | Touching(data: Datagram)    // about to write lastActive
    | Resolving(data: Datagram)   // proxy only: resolving the source address
    | Replying(data: Datagram)    // about to write to the source
    | Leaving                     // first deferred action
    | LeavingLate                 // second deferred action
    | Finished

  datatype Reply = Reply(dest: string, data: Datagram)

  datatype Session = Session(
    key: string,
    lastActive: int,
    chanOpen: bool,
    connOpen: bool,
    pc: Handler,
    deadline: int,
    closedAt: int,
    chanCloses: nat,
    connCloses: nat,
    heard: seq<Datagram>,
    replies: seq<Reply>,
    lateReads: nat,
    lateReplies: nat)

  /** Program points of the one reader goroutine; n is the length ReadFrom returned. */
  datatype Reader =
    | Waiting
    | Received(src: string, n: nat)
    | Missed(src: string, n: nat)              // tunnel: lookup found nothing
    | Built(src: string, n: nat, sid: nat)     // tunnel: session made, not inserted
    | Holding(sid: nat, n: nat)                // proxy: session found, lastActive not refreshed
    | Sending(sid: nat, n: nat)
    | Returned

  datatype Packet = Packet(src: string, data: Datagram)

  /** One successful write: by which session, to serve which source, which received packet. */
  datatype Forward = Forward(sid: nat, dest: string, index: int, data: seq<Byte>)

  datatype State = State(
    now: int,
    timeout: int,
    reaper: bool,
    nextSweep: int,
    table: map<string, nat>,
    sessions: seq<Session>,
    buf: Buffer,
    reader: Reader,
    received: seq<Packet>,
    forwarded: seq<Forward>)

  datatype Outcome = Ok | Timeout | Fail | Data(data: Datagram)

  datatype Action =
    | Receive(src: string, data: Datagram)
    | Misread(data: Datagram)      // tunnel: a datagram whose source is no UDP address
    | Return                       // the read loop ends
    | FindOrCreate(dialed: bool)   // proxy: the one critical section
    | Lookup                       // tunnel: first critical section
    | Build(dialed: bool)
    | Insert                       // tunnel: second critical section, and the go statement
    | Refresh
    | Send(ok: bool)
    | Sweep(t: int)                // t is the time sampled before the lock was taken
    | StopReaper
    | Handle(sid: nat, outcome: Outcome)
    | Advance(dt: nat)

  /** What make leaves in a new buffer. */
  function Zeroed(): (buf: Buffer)
    ensures forall i | 0 <= i < BUFFER_SIZE :: buf[i] == 0
  {
    seq(BUFFER_SIZE, (i: nat) => 0)
  }

  /** Serve up to its loops; InactivityTimeout is in seconds, and starts the reaper if positive. */
  function InitialState(now: int, inactivityTimeout: int): (s: State)
    ensures Bounded(s)
  {
    State(now, inactivityTimeout * SECOND, inactivityTimeout > 0, now + SWEEP_PERIOD,
          map[], [], Zeroed(), Waiting, [], [])
  }

  function NewSession(key: string, now: int, pc: Handler): Session {
    Session(key, now, true, true, pc, now, now, 0, 0, [], [], 0, 0)
  }

  /** Every session number in use exists, and a length read fits the buffer. */
  predicate Bounded(s: State) {
    && (forall k <- s.table :: s.table[k] < |s.sessions|)
    && ReaderBounded(s.reader, |s.sessions|)
  }

  predicate ReaderBounded(r: Reader, count: nat) {
    match r
    case Received(_, n) => n <= BUFFER_SIZE
    case Missed(_, n) => n <= BUFFER_SIZE
    case Built(_, n, i) => n <= BUFFER_SIZE && i < count
    case Holding(i, n) => n <= BUFFER_SIZE && i < count
    case Sending(i, n) => n <= BUFFER_SIZE && i < count
    case _ => true
  }

  /** Session i is the one the table holds for its source. */
  predicate Listed(s: State, i: nat)
    requires i < |s.sessions|
  {
    s.sessions[i].key in s.table && s.table[s.sessions[i].key] == i
  }

  function CloseChan(x: Session, now: int): Session {
    if x.chanOpen then x.(chanOpen := false, closedAt := now, chanCloses := x.chanCloses + 1) else x
  }

  function CloseConn(x: Session): Session {
    x.(connOpen := false, connCloses := x.connCloses + 1)
  }

  /** removeSession and closeSession: close and delete only if the table still holds this session. */
  function Remove(s: State, i: nat): (r: State)
    requires Bounded(s) && i < |s.sessions|
    ensures Bounded(r) && |r.sessions| == |s.sessions|
  {
    if Listed(s, i) then
      s.(table := s.table - {s.sessions[i].key},
         sessions := s.sessions[i := CloseChan(s.sessions[i], s.now)])
    else s
  }

  predicate Expired(x: Session, t: int, timeout: int) {
    t - x.lastActive >= timeout
  }

  /** One pass of the reaper, as a filter of the table by age: no iteration order is involved. */
  function SweepTable(s: State, t: int): (r: State)
    requires Bounded(s)
    ensures Bounded(r)
  {
    s.(table := map k | k in s.table && !Expired(s.sessions[s.table[k]], t, s.timeout) :: s.table[k],
       sessions := seq(|s.sessions|, i requires 0 <= i < |s.sessions| =>
         if Listed(s, i) && Expired(s.sessions[i], t, s.timeout)
         then CloseChan(s.sessions[i], s.now) else s.sessions[i]),
       nextSweep := s.nextSweep + SWEEP_PERIOD)
  }

  function Fill(buf: Buffer, d: Datagram): Buffer {
    d + buf[|d|..]
  }

  function FindOrCreateStep(s: State, dialed: bool): State
    requires Bounded(s) && s.reader.Received?
  {
    var src, n := s.reader.src, s.reader.n;
    if src in s.table then
      var i := s.table[src];
      s.(sessions := s.sessions[i := s.sessions[i].(lastActive := s.now)], reader := Holding(i, n))
    else if !dialed then s.(reader := Waiting)
    else
      s.(table := s.table[src := |s.sessions|],
         sessions := s.sessions + [NewSession(src, s.now, Checking)],
         reader := Holding(|s.sessions|, n))
  }

  function LookupStep(s: State): State
    requires Bounded(s) && s.reader.Received?
  {
    var src, n := s.reader.src, s.reader.n;
    if src in s.table then
      var i := s.table[src];
      s.(sessions := s.sessions[i := s.sessions[i].(lastActive := s.now)], reader := Sending(i, n))
    else s.(reader := Missed(src, n))
  }

  function BuildStep(s: State, dialed: bool): State
    requires s.reader.Missed?
  {
    var src, n := s.reader.src, s.reader.n;
    if !dialed then s.(reader := Waiting)
    else s.(sessions := s.sessions + [NewSession(src, s.now, NotStarted)],
            reader := Built(src, n, |s.sessions|))
  }

  function InsertStep(s: State): State
    requires Bounded(s) && s.reader.Built?
  {
    var src, n, i := s.reader.src, s.reader.n, s.reader.sid;
    s.(table := s.table[src := i],
       sessions := s.sessions[i := s.sessions[i].(pc := Checking)],
       reader := Sending(i, n))
  }

  /** The write of buf[:n]; it can only succeed on an open connection. */
  function SendStep(s: State, ok: bool): State
    requires Bounded(s) && s.reader.Sending?
  {
    var i, n := s.reader.sid, s.reader.n;
    if ok && s.sessions[i].connOpen then
      s.(reader := Waiting,
         forwarded := s.forwarded +
           [Forward(i, s.sessions[i].key, |s.received| - 1, s.buf[..n])])
    else s.(reader := Waiting)
  }

  function SetPc(s: State, i: nat, pc: Handler): State
    requires i < |s.sessions|
  {
    s.(sessions := s.sessions[i := s.sessions[i].(pc := pc)])
  }

  /** The goroutine's own bookkeeping steps: everything before its deferred calls. */
  function Proceed(kind: Kind, x: Session, o: Outcome, now: int, timeout: int): Session {
    match x.pc
    case Checking => x.(pc := if x.chanOpen then Arming else Leaving)
    case Arming =>
      x.(pc := Reading,
         deadline := if kind.Proxy? || timeout > 0 then now + READ_DEADLINE else x.deadline,
         lateReads := if x.chanOpen then x.lateReads else x.lateReads + 1)
    case Reading => (
      match o
      case Ok => x
      case Timeout => x.(pc := Rechecking)
      case Fail => x.(pc := Leaving)
      case Data(d) => x.(pc := Touching(d), heard := x.heard + [d]))
    case Rechecking => x.(pc := if x.chanOpen then Checking else Leaving)
    case Touching(d) => x.(lastActive := now, pc := if kind.Proxy? then Resolving(d) else Replying(d))
    case Resolving(d) => x.(pc := if o.Fail? then Leaving else Replying(d))
    case Replying(d) =>
      if o.Fail? then x.(pc := Leaving)
      else x.(pc := Checking, replies := x.replies + [Reply(x.key, d)],
              lateReplies := if x.chanOpen then x.lateReplies else x.lateReplies + 1)
    case _ => x
  }

  predicate Deferred(pc: Handler) {
    pc.Leaving? || pc.LeavingLate?
  }

  /** The proxy removes the session and then closes the connection; the tunnel does the reverse. */
  function TeardownStep(kind: Kind, s: State, i: nat): (r: State)
    requires Bounded(s) && i < |s.sessions| && Deferred(s.sessions[i].pc)
    ensures Bounded(r)
  {
    var first := s.sessions[i].pc.Leaving?;
    var next := if first then LeavingLate else Finished;
    if first == kind.Proxy? then SetPc(Remove(s, i), i, next)
    else s.(sessions := s.sessions[i := CloseConn(s.sessions[i]).(pc := next)])
  }

  function HandlerStep(kind: Kind, s: State, i: nat, o: Outcome): (r: State)
    requires Bounded(s) && i < |s.sessions|
    ensures Bounded(r)
  {
    if Deferred(s.sessions[i].pc) then TeardownStep(kind, s, i)
    else s.(sessions := s.sessions[i := Proceed(kind, s.sessions[i], o, s.now, s.timeout)])
  }

  function ReaderStep(kind: Kind, s: State, a: Action): (r: State)
    requires Bounded(s)
    ensures Bounded(r)
  {
    match a
    case Receive(src, d) =>
      if s.reader.Waiting? then
        s.(buf := Fill(s.buf, d), reader := Received(src, |d|), received := s.received + [Packet(src, d)])
      else s
    case Misread(d) => if kind.Tunnel? && s.reader.Waiting? then s.(buf := Fill(s.buf, d)) else s
    case Return => if s.reader.Waiting? then s.(reader := Returned) else s
    case FindOrCreate(dialed) =>
      if kind.Proxy? && s.reader.Received? then FindOrCreateStep(s, dialed) else s
    case Lookup => if kind.Tunnel? && s.reader.Received? then LookupStep(s) else s
    case Build(dialed) => if s.reader.Missed? then BuildStep(s, dialed) else s
    case Insert => if s.reader.Built? then InsertStep(s) else s
    case Refresh =>
      if s.reader.Holding? then
        var i := s.reader.sid;
        s.(sessions := s.sessions[i := s.sessions[i].(lastActive := s.now)], reader := Sending(i, s.reader.n))
      else s
    case Send(ok) => if s.reader.Sending? then SendStep(s, ok) else s
    case _ => s
  }

  function Step(kind: Kind, s: State, a: Action): (r: State)
    requires Bounded(s)
    ensures Bounded(r)
  {
    match a
    case Sweep(t) => if s.reaper then SweepTable(s, t) else s
    case StopReaper => s.(reaper := false)
    case Handle(i, o) => if i < |s.sessions| then HandlerStep(kind, s, i, o) else s
    case Advance(dt) => s.(now := s.now + dt)
    case _ => ReaderStep(kind, s, a)
  }

  function Run(kind: Kind, s: State, schedule: seq<Action>): (r: State)
    requires Bounded(s)
    ensures Bounded(r)
  {
    if schedule == [] then s
    else Step(kind, Run(kind, s, schedule[..|schedule| - 1]), schedule[|schedule| - 1])
  }
}
