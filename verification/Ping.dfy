/**
  Freshness of ping answers behind /readyz (routine.go).  Times are nanoseconds since the epoch; a
  record keeps whole seconds.
 */
module Ping {
  import opened Durations

  /** How many nanoseconds may have passed: the interval, and two seconds for the ping itself. */
  function Allowed(interval: int): int {
    (interval + 2) * SECOND
  }

  predicate Fresh(record: nat, interval: int, now: int) {
    now - record * SECOND <= Allowed(interval)
  }

  datatype Pong = Pong(addr: string, t: int)

  ghost predicate InOrder(pongs: seq<Pong>) {
    && (forall p <- pongs :: p.t >= 0)
    && forall i, j | 0 <= i < j < |pongs| :: pongs[i].t <= pongs[j].t
  }

  /** How long each address takes to answer each round. */
  type Delays = string -> (nat -> int)

  /** The pongs are the answers of all rounds that arrive by time t, and nothing else. */
  ghost predicate AllAnswers(pongs: seq<Pong>, addrs: seq<string>, t: int, r0: int, interval: int, delay: Delays) {
    && (forall a <- addrs :: forall k: nat :: AnswerTime(r0, interval, delay(a), k) <= t ==>
          Pong(a, AnswerTime(r0, interval, delay(a), k)) in pongs)
    && forall p <- pongs ::
         p.addr in addrs && p.t <= t && exists k: nat :: p.t == AnswerTime(r0, interval, delay(p.addr), k)
  }

  /** The clock as it is read over and over: it does not go back. */
  ghost predicate Advances(clock: nat -> int) {
    forall i: nat, j: nat :: i <= j ==> clock(i) <= clock(j)
  }

  class PingRecord {
    const interval: int
    const checkAlive: seq<string>
    var record: map<string, nat>
    ghost var answered: map<string, nat>    // when each address last answered, exactly

    ghost predicate Valid()
      reads this
    {
      && (forall a :: a in record <==> a in checkAlive)
      && answered.Keys <= record.Keys
      && forall a <- record :: record[a] == if a in answered then answered[a] / 1_000_000_000 else 0
    }

    /** StartPingIPs: no address has answered yet. */
    constructor (interval: int, checkAlive: seq<string>)
      ensures Valid() && answered == map[] && this.interval == interval && this.checkAlive == checkAlive
    {
      this.interval, this.checkAlive, answered := interval, checkAlive, map[];
      var fresh0: map<string, nat> := map[];
      for i := 0 to |checkAlive|
        invariant forall a :: a in fresh0 <==> a in checkAlive[..i]
        invariant forall a <- fresh0 :: fresh0[a] == 0
      {
        fresh0 := fresh0[checkAlive[i] := 0];
      }
      assert checkAlive[..|checkAlive|] == checkAlive;
      record := fresh0;
    }

    /** A matching pong of an address that is being checked arrives. */
    method TakePong(addr: string, now: nat)
      requires Valid() && addr in checkAlive
      modifies this
      ensures Valid() && answered == old(answered)[addr := now]
    {
      record := record[addr := now / SECOND];
      answered := answered[addr := now];
    }

    /**
      /readyz, in whatever order the map is walked, the clock being read anew for each record: a 200
      means that all were fresh when the walk began, and a 503 that some record had gone stale by its end.
     */
    method Ready(clock: nat -> int) returns (ok: bool)
      requires Valid() && Advances(clock)
      ensures ok ==> forall a <- record :: clock(0) - record[a] * 1_000_000_000 <= (interval + 2) * 1_000_000_000
      ensures !ok ==>
                exists a <- record :: clock(|record|) - record[a] * 1_000_000_000 > (interval + 2) * 1_000_000_000
      ensures ok && clock(0) > (interval + 2) * 1_000_000_000 ==>
                forall a <- checkAlive :: a in answered && clock(0) - answered[a] <= (interval + 2) * 1_000_000_000
      ensures !ok && (forall a <- checkAlive :: a in answered) ==>
                exists a <- checkAlive :: clock(|record|) - answered[a] > (interval + 1) * 1_000_000_000
    {
      ok := true;
      var todo, read := record.Keys, 0;
      while todo != {}
        invariant todo <= record.Keys && read + |todo| == |record|
        invariant forall a <- record :: a in todo || Fresh(record[a], interval, clock(0))
        decreases todo
      {
        var a :| a in todo;
        todo := todo - {a};
        var now := clock(read);
        read := read + 1;
        if now - record[a] * SECOND > Allowed(interval) {
          assert a in checkAlive && clock(|record|) >= now;
          return false;
        }
        assert clock(0) <= now;
      }
    }

    /** The first k pongs are in: no record is older than any of them, and none comes from elsewhere. */
    ghost predicate TookIn(pongs: seq<Pong>, k: nat, before: map<string, nat>)
      requires k <= |pongs|
      reads this`answered
    {
      && (forall j | 0 <= j < k :: pongs[j].addr in answered && pongs[j].t <= answered[pongs[j].addr])
      && (forall a <- answered :: Pong(a, answered[a]) in pongs[..k] || (a in before && answered[a] == before[a]))
    }

    /** Pongs in the order they arrive: each record ends up holding its address's latest. */
    method Deliver(pongs: seq<Pong>)
      requires Valid() && InOrder(pongs) && forall p <- pongs :: p.addr in checkAlive
      requires forall a <- answered, p <- pongs :: answered[a] <= p.t
      modifies this
      ensures Valid() && TookIn(pongs, |pongs|, old(answered))
    {
      for k := 0 to |pongs|
        invariant Valid() && TookIn(pongs, k, old(answered))
        invariant forall a <- answered :: forall j | k <= j < |pongs| :: answered[a] <= pongs[j].t
      {
        assert pongs[k] in pongs && Pong(pongs[k].addr, pongs[k].t) == pongs[k];
        ghost var earlier := answered;
        TakePong(pongs[k].addr, pongs[k].t);
        assert pongs[..k + 1] == pongs[..k] + [pongs[k]];
        forall a <- answered
          ensures Pong(a, answered[a]) in pongs[..k + 1] || (a in old(answered) && answered[a] == old(answered)[a])
        {
          assert a == pongs[k].addr || (a in earlier && earlier[a] == answered[a]);
        }
      }
    }

    /** A whole run: if the answers to rounds an interval apart are in time, /readyz says 200. */
    method ReadyAfterRounds(pongs: seq<Pong>, t: int, ghost r0: int, ghost delay: Delays) returns (ok: bool)
      requires Valid() && answered == map[] && interval > 0 && InOrder(pongs)
      requires forall a <- checkAlive :: InTime(interval, delay(a)) && AnswerTime(r0, interval, delay(a), 0) <= t
      requires AllAnswers(pongs, checkAlive, t, r0, interval, delay)
      modifies this
      ensures Valid() && ok
    {
      Deliver(pongs);
      assert pongs[..|pongs|] == pongs;
      AllHoldLatest(pongs, checkAlive, t, r0, interval, delay, answered);
      NoFalseAlarm(r0, interval, delay, checkAlive, answered, record, t);
      ok := Ready(_ => t);
    }
  }

  // Rounds exactly one interval apart, every answer in time.

  /** When the k-th round's answer arrives. */
  function AnswerTime(r0: int, interval: int, delay: nat -> int, k: nat): int {
    r0 + k * (interval * SECOND) + delay(k)
  }

  /** Each answer takes at most a second, and at most an interval. */
  ghost predicate InTime(interval: int, delay: nat -> int) {
    forall k: nat :: 0 <= delay(k) <= SECOND && delay(k) <= interval * SECOND
  }

  /** The latest answer by time t, which is what the record holds at t. */
  ghost predicate LatestAnswer(r0: int, interval: int, delay: nat -> int, t: int, last: int) {
    && last <= t && (exists k: nat :: last == AnswerTime(r0, interval, delay, k))
    && forall k: nat :: AnswerTime(r0, interval, delay, k) <= t ==> AnswerTime(r0, interval, delay, k) <= last
  }

  lemma DeliveredIsLatest(pongs: seq<Pong>, addrs: seq<string>, t: int, r0: int, interval: int, delay: Delays,
                          answered: map<string, nat>, a: string)
    requires a in addrs && AllAnswers(pongs, addrs, t, r0, interval, delay)
    requires AnswerTime(r0, interval, delay(a), 0) <= t
    requires forall p <- pongs :: p.addr in answered && p.t <= answered[p.addr]
    requires a in answered ==> Pong(a, answered[a]) in pongs
    ensures a in answered && LatestAnswer(r0, interval, delay(a), t, answered[a])
  {
    var first := Pong(a, AnswerTime(r0, interval, delay(a), 0));
    assert first in pongs && first.addr == a;
    forall k: nat | AnswerTime(r0, interval, delay(a), k) <= t
      ensures AnswerTime(r0, interval, delay(a), k) <= answered[a]
    {
      var p := Pong(a, AnswerTime(r0, interval, delay(a), k));
      assert p in pongs && p.addr == a;
    }
  }

  lemma AllHoldLatest(pongs: seq<Pong>, addrs: seq<string>, t: int, r0: int, interval: int, delay: Delays,
                      answered: map<string, nat>)
    requires AllAnswers(pongs, addrs, t, r0, interval, delay)
    requires forall a <- addrs :: AnswerTime(r0, interval, delay(a), 0) <= t
    requires forall p <- pongs :: p.addr in answered && p.t <= answered[p.addr]
    requires forall a <- answered :: Pong(a, answered[a]) in pongs
    ensures forall a <- addrs :: a in answered && LatestAnswer(r0, interval, delay(a), t, answered[a])
  {
    forall a <- addrs ensures a in answered && LatestAnswer(r0, interval, delay(a), t, answered[a]) {
      DeliveredIsLatest(pongs, addrs, t, r0, interval, delay, answered, a);
    }
  }

  /** The round that time t falls into. */
  lemma {:induction false} RoundAt(r0: int, period: int, t: int) returns (k: nat)
    requires period > 0 && t >= r0
    ensures r0 + k * period <= t < r0 + k * period + period
    decreases t - r0
  {
    if t < r0 + period {
      k := 0;
    } else {
      var j := RoundAt(r0 + period, period, t);
      k := j + 1;
      assert k * period == j * period + period;
    }
  }

  /** From the first answer on, the record of an address whose answers are in time is always fresh. */
  lemma AnswersInTimeStayFresh(r0: int, interval: int, delay: nat -> int, t: int, last: nat)
    requires interval > 0 && InTime(interval, delay) && AnswerTime(r0, interval, delay, 0) <= t
    requires LatestAnswer(r0, interval, delay, t, last)
    ensures Fresh(last / SECOND, interval, t)
  {
    var period := interval * SECOND;
    assert 0 <= delay(0);
    var k := RoundAt(r0, period, t);
    var due := AnswerTime(r0, interval, delay, k);
    assert 0 <= delay(k) <= SECOND;
    if due > t {
      assert k > 0;
      assert (k - 1) * period == k * period - period;
      assert 0 <= delay(k - 1) <= period;
      assert AnswerTime(r0, interval, delay, k - 1) <= t;
    }
    assert last >= t - SECOND - period;
  }

  /** So no run in which all answers are in time turns 503 once every address has answered. */
  lemma NoFalseAlarm(r0: int, interval: int, delay: Delays, addrs: seq<string>, answered: map<string, nat>,
                     record: map<string, nat>, t: int)
    requires interval > 0 && forall a <- record :: a in addrs
    requires forall a <- record :: a in answered ==> record[a] == answered[a] / SECOND
    requires forall a <- addrs :: InTime(interval, delay(a)) && AnswerTime(r0, interval, delay(a), 0) <= t
    requires forall a <- addrs :: a in answered && LatestAnswer(r0, interval, delay(a), t, answered[a])
    ensures forall a <- record :: Fresh(record[a], interval, t)
  {
    forall a <- record ensures Fresh(record[a], interval, t) {
      AnswersInTimeStayFresh(r0, interval, delay(a), t, answered[a]);
    }
  }
}
