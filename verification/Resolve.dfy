/**
  Name resolution with an address-family preference (routine.go), and the strategy that "auto" is
  replaced by (wireguard.go).
 */
module Resolve {
  import opened Text
  import Netip

  type Addr = Netip.ParsedAddr

  /** netip.ParseAddr */
  type Parser = string -> Option<Addr>

  /** What a shuffle draws at position i; it swaps i with pick(i) % (i + 1). */
  type Picks = nat -> nat

  function Swap<T>(s: seq<T>, i: nat, j: nat): seq<T>
    requires i < |s| && j < |s|
  {
    s[i := s[j]][j := s[i]]
  }

  /** The rest of a shuffle, positions i down to 1 still to go. */
  function Shuffled<T>(s: seq<T>, i: nat, pick: Picks): (r: seq<T>)
    requires s == [] || i < |s|
    ensures |r| == |s|
    decreases i
  {
    if i == 0 || s == [] then s else Shuffled(Swap(s, i, pick(i) % (i + 1)), i - 1, pick)
  }

  /** rand.Shuffle on a slice, in place */
  method Shuffle<T>(a: array<T>, pick: Picks)
    modifies a
    ensures a[..] == Shuffled(old(a[..]), if a.Length == 0 then 0 else a.Length - 1, pick)
  {
    if a.Length == 0 {
      return;
    }
    var i := a.Length - 1;
    while i > 0
      invariant 0 <= i < a.Length
      invariant Shuffled(a[..], i, pick) == Shuffled(old(a[..]), a.Length - 1, pick)
    {
      var j := pick(i) % (i + 1);
      ghost var before := a[..];
      a[i], a[j] := a[j], a[i];
      assert a[..] == Swap(before, i, j);
      i := i - 1;
    }
  }

  lemma SwapPermutes<T>(s: seq<T>, i: nat, j: nat)
    requires i < |s| && j < |s|
    ensures multiset(Swap(s, i, j)) == multiset(s)
  {
  }

  lemma {:induction false} ShuffleKeepsMembers<T>(s: seq<T>, i: nat, pick: Picks)
    requires s == [] || i < |s|
    ensures multiset(Shuffled(s, i, pick)) == multiset(s)
    decreases i
  {
    if i > 0 && s != [] {
      var j := pick(i) % (i + 1);
      SwapPermutes(s, i, j);
      ShuffleKeepsMembers(Swap(s, i, j), i - 1, pick);
    }
  }

  /** Draws that leave every position alone but m, which goes to the front. */
  function BringToFront(m: nat): Picks {
    (i: nat) => if i == m then 0 else i
  }

  lemma Drawn(m: nat, i: nat)
    ensures BringToFront(m)(i) % (i + 1) == if i == m then 0 else i
  {
  }

  lemma {:induction false} AnyMemberCanComeFirst<T>(s: seq<T>, m: nat, i: nat, pick: Picks)
    requires i < |s| && m < |s| && forall k: nat :: pick(k) % (k + 1) == if k == m then 0 else k
    ensures Shuffled(s, i, pick)[0] == if m <= i then s[m] else s[0]
    decreases i
  {
    if i > 0 {
      var j := if i == m then 0 else i;
      assert pick(i) % (i + 1) == j;
      AnyMemberCanComeFirst(Swap(s, i, j), m, i - 1, pick);
    }
  }

  function Parsed(addrs: seq<string>, parse: Parser, v4: bool): seq<Addr> {
    if addrs == [] then []
    else
      var p := parse(addrs[|addrs| - 1]);
      Parsed(addrs[..|addrs| - 1], parse, v4) + if p.Some? && p.value.V4? == v4 then [p.value] else []
  }

  function Last<T>(s: seq<T>): nat {
    if s == [] then 0 else |s| - 1
  }

  /** The address chosen: the head of the shuffled lists, in the order of the strategy. */
  function Choice(addrs: seq<string>, parse: Parser, strategy: string, pick4: Picks, pick6: Picks): Option<Addr> {
    var v4, v6 := Parsed(addrs, parse, true), Parsed(addrs, parse, false);
    var s4, s6 := Shuffled(v4, Last(v4), pick4), Shuffled(v6, Last(v6), pick6);
    var all := if strategy == "ipv4" then s4 + s6 else if strategy == "ipv6" then s6 + s4 else [];
    if all == [] then None else Some(all[0])
  }

  /** The names that parse, appended to one list or the other. */
  method ParseByFamily(addrs: seq<string>, parse: Parser) returns (v4: seq<Addr>, v6: seq<Addr>)
    ensures v4 == Parsed(addrs, parse, true) && v6 == Parsed(addrs, parse, false)
  {
    v4, v6 := [], [];
    for i := 0 to |addrs|
      invariant v4 == Parsed(addrs[..i], parse, true) && v6 == Parsed(addrs[..i], parse, false)
    {
      var p := parse(addrs[i]);
      if p.Some? {
        if p.value.V4? {
          v4 := v4 + [p.value];
        } else if p.value.V6? {
          v6 := v6 + [p.value];
        }
      }
      assert addrs[..i + 1][..i] == addrs[..i];
    }
    assert addrs[..|addrs|] == addrs;
  }

  /** ResolveAddrWithContext, from the looked-up names on */
  method ResolveAddr(addrs: seq<string>, parse: Parser, strategy: string, pick4: Picks, pick6: Picks)
    returns (addr: Option<Addr>)
    ensures addr == Choice(addrs, parse, strategy, pick4, pick6)
  {
    var v4, v6 := ParseByFamily(addrs, parse);
    var a4 := new Addr[|v4|](i requires 0 <= i < |v4| => v4[i]);
    var a6 := new Addr[|v6|](i requires 0 <= i < |v6| => v6[i]);
    assert a4[..] == v4 && a6[..] == v6;
    Shuffle(a4, pick4);
    Shuffle(a6, pick6);
    var all := [];
    match strategy {
      case "ipv4" => all := a4[..] + a6[..];
      case "ipv6" => all := a6[..] + a4[..];
      case _ =>
    }
    addr := if |all| == 0 then None else Some(all[0]);
  }

  ghost predicate Named(addrs: seq<string>, parse: Parser, a: Addr) {
    exists s <- addrs :: parse(s) == Some(a)
  }

  lemma {:induction false} ParsedAreNamed(addrs: seq<string>, parse: Parser, v4: bool, a: Addr)
    ensures a in Parsed(addrs, parse, v4) <==> a.V4? == v4 && Named(addrs, parse, a)
  {
    if addrs != [] {
      var front, last := addrs[..|addrs| - 1], addrs[|addrs| - 1];
      ParsedAreNamed(front, parse, v4, a);
      if Named(front, parse, a) {
        var s :| s in front && parse(s) == Some(a);
        assert s in addrs;
      }
      if Named(addrs, parse, a) && parse(last) != Some(a) {
        var s :| s in addrs && parse(s) == Some(a);
        assert s in front;
      }
    }
  }

  predicate KnownStrategy(strategy: string) {
    strategy == "ipv4" || strategy == "ipv6"
  }

  ghost predicate FamilyNamed(addrs: seq<string>, parse: Parser, v4: bool) {
    exists a: Addr :: a.V4? == v4 && Named(addrs, parse, a)
  }

  lemma HeadIsMember(v: seq<Addr>, pick: Picks)
    ensures v != [] ==> Shuffled(v, Last(v), pick) != [] && Shuffled(v, Last(v), pick)[0] in v
  {
    ShuffleKeepsMembers(v, Last(v), pick);
    if v != [] {
      assert Shuffled(v, Last(v), pick)[0] in multiset(v);
    }
  }

  /**
    For every list and every shuffle: a parsed member of the list, of the preferred family whenever
    one exists, and an error exactly when none parses.
   */
  lemma ChoiceIsPreferred(addrs: seq<string>, parse: Parser, strategy: string, pick4: Picks, pick6: Picks)
    requires KnownStrategy(strategy)
    ensures var r := Choice(addrs, parse, strategy, pick4, pick6);
            && (r.None? <==> !FamilyNamed(addrs, parse, true) && !FamilyNamed(addrs, parse, false))
            && (r.Some? ==> Named(addrs, parse, r.value))
            && (FamilyNamed(addrs, parse, strategy == "ipv4") ==> r.Some? && r.value.V4? == (strategy == "ipv4"))
  {
    var v4, v6 := Parsed(addrs, parse, true), Parsed(addrs, parse, false);
    HeadIsMember(v4, pick4);
    HeadIsMember(v6, pick6);
    EmptyWhenUnnamed(addrs, parse, true);
    EmptyWhenUnnamed(addrs, parse, false);
    var r := Choice(addrs, parse, strategy, pick4, pick6);
    if r.Some? {
      ParsedAreNamed(addrs, parse, true, r.value);
      ParsedAreNamed(addrs, parse, false, r.value);
    }
  }

  lemma EmptyWhenUnnamed(addrs: seq<string>, parse: Parser, v4: bool)
    ensures Parsed(addrs, parse, v4) == [] <==> !FamilyNamed(addrs, parse, v4)
  {
    var v := Parsed(addrs, parse, v4);
    if v != [] {
      ParsedAreNamed(addrs, parse, v4, v[0]);
    }
    if FamilyNamed(addrs, parse, v4) {
      var a: Addr :| a.V4? == v4 && Named(addrs, parse, a);
      ParsedAreNamed(addrs, parse, v4, a);
    }
  }

  /** No other strategy resolves anything: neither "auto", unless it is replaced first, nor any other. */
  lemma OtherStrategiesFail(addrs: seq<string>, parse: Parser, strategy: string, pick4: Picks, pick6: Picks)
    requires strategy != "ipv4" && strategy != "ipv6"
    ensures Choice(addrs, parse, strategy, pick4, pick6) == None
  {
  }

  /** With one family only, its addresses are used whatever the preference. */
  lemma OtherFamilyIsUsedInstead(addrs: seq<string>, parse: Parser, strategy: string, pick4: Picks, pick6: Picks)
    requires KnownStrategy(strategy)
    requires !FamilyNamed(addrs, parse, strategy == "ipv4") && FamilyNamed(addrs, parse, strategy == "ipv6")
    ensures var r := Choice(addrs, parse, strategy, pick4, pick6);
            r.Some? && r.value.V4? == (strategy == "ipv6") && Named(addrs, parse, r.value)
  {
    ChoiceIsPreferred(addrs, parse, strategy, pick4, pick6);
  }

  /** No address of the family in use is out of reach of the shuffle. */
  lemma AnyOfTheFamilyIsReachable(addrs: seq<string>, parse: Parser, strategy: string, a: Addr)
    requires KnownStrategy(strategy) && Named(addrs, parse, a)
    requires FamilyNamed(addrs, parse, strategy == "ipv4") ==> a.V4? == (strategy == "ipv4")
    ensures exists pick: Picks :: Choice(addrs, parse, strategy, pick, pick) == Some(a)
  {
    var v := Parsed(addrs, parse, a.V4?);
    ParsedAreNamed(addrs, parse, a.V4?, a);
    var m :| 0 <= m < |v| && v[m] == a;
    forall k: nat ensures BringToFront(m)(k) % (k + 1) == if k == m then 0 else k {
      Drawn(m, k);
    }
    AnyMemberCanComeFirst(v, m, Last(v), BringToFront(m));
    EmptyWhenUnnamed(addrs, parse, true);
    EmptyWhenUnnamed(addrs, parse, false);
    assert Choice(addrs, parse, strategy, BringToFront(m), BringToFront(m)) == Some(a);
  }

  /** What StartWireguardWithLogger puts in place of "auto": always a strategy that resolves. */
  method SettleStrategy(strategy: string, deviceAddrs: seq<Addr>) returns (settled: string)
    ensures strategy != "auto" ==> settled == strategy
    ensures strategy == "auto" ==>
              && KnownStrategy(settled)
              && (settled == "ipv4" <==> deviceAddrs != [] && forall a <- deviceAddrs :: a.V4?)
  {
    var hasV4, hasV6 := false, false;
    for i := 0 to |deviceAddrs|
      invariant hasV4 <==> exists a <- deviceAddrs[..i] :: a.V4?
      invariant hasV6 <==> exists a <- deviceAddrs[..i] :: a.V6?
    {
      assert deviceAddrs[..i + 1] == deviceAddrs[..i] + [deviceAddrs[i]];
      if deviceAddrs[i].V4? {
        hasV4 := true;
      }
      if deviceAddrs[i].V6? {
        hasV6 := true;
      }
    }
    assert deviceAddrs[..|deviceAddrs|] == deviceAddrs;
    assert deviceAddrs == [] || deviceAddrs[0] in deviceAddrs;
    settled := strategy;
    if settled == "auto" {
      if hasV4 && !hasV6 {
        settled := "ipv4";
      } else {
        settled := "ipv6";
      }
    }
  }
}
