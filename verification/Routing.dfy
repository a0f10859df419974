/**
  Whitelist routing (router.go) through the dialers of routine.go and sni.go: host:port text as
  net.JoinHostPort and net.SplitHostPort build and take it apart, and the decision on the host.
  Letter case is that of ASCII.
 */
module Routing {
  import opened Text

  function IndexOf(s: string, c: char): (i: int)
    ensures -1 <= i < |s|
    ensures i == -1 <==> c !in s
    ensures i >= 0 ==> s[i] == c && forall k | 0 <= k < i :: s[k] != c
  {
    if s == "" then -1
    else if s[0] == c then 0
    else
      var i := IndexOf(s[1..], c);
      assert s == [s[0]] + s[1..];
      if i < 0 then -1 else i + 1
  }

  function LastIndexOf(s: string, c: char): (i: int)
    ensures -1 <= i < |s|
    ensures i == -1 <==> c !in s
    ensures i >= 0 ==> s[i] == c && forall k | i < k < |s| :: s[k] != c
  {
    if s == "" then -1
    else if s[|s| - 1] == c then |s| - 1
    else
      assert s == s[..|s| - 1] + [s[|s| - 1]];
      LastIndexOf(s[..|s| - 1], c)
  }

  /** net.JoinHostPort */
  function JoinHostPort(host: string, port: string): string {
    if ':' in host then "[" + host + "]:" + port else host + ":" + port
  }

  /** net.SplitHostPort, with None for each of its errors */
  function SplitHostPort(hostport: string): Option<(string, string)> {
    var i := LastIndexOf(hostport, ':');
    if i < 0 then None
    else if hostport[0] == '[' then
      var end := IndexOf(hostport, ']');
      if end < 0 || end + 1 != i then None
      else if '[' in hostport[1..] || ']' in hostport[end + 1..] then None
      else Some((hostport[1..end], hostport[i + 1..]))
    else
      var host := hostport[..i];
      if ':' in host || '[' in hostport || ']' in hostport then None
      else Some((host, hostport[i + 1..]))
  }

  /** hostFromAddr: the whole text when it does not split. */
  function HostFromAddr(address: string): string {
    match SplitHostPort(address)
    case None => address
    case Some((host, _)) => host
  }

  predicate BracketFree(s: string) {
    '[' !in s && ']' !in s
  }

  /** The text is head, then a colon at i, then a port without one. */
  lemma SplitAtPort(s: string, i: nat, port: string)
    requires i < |s| && s[i] == ':' && s[i + 1..] == port && ':' !in port
    ensures LastIndexOf(s, ':') == i
  {
    assert forall k | i < k < |s| :: s[k] == port[k - i - 1];
  }

  lemma JoinThenSplitPlain(host: string, port: string)
    requires BracketFree(host) && BracketFree(port) && ':' !in port && ':' !in host
    ensures SplitHostPort(JoinHostPort(host, port)) == Some((host, port))
  {
    var s := host + ":" + port;
    assert s[..|host|] == host && s[|host| + 1..] == port;
    SplitAtPort(s, |host|, port);
    assert BracketFree(s);
  }

  /** s is "[host]:port", said character by character. */
  ghost predicate Bracketed(s: string, host: string, port: string) {
    var end := |host| + 1;
    && |s| == end + 2 + |port| && s[0] == '[' && s[end] == ']' && s[end + 1] == ':'
    && (forall k | 1 <= k < end :: s[k] == host[k - 1])
    && (forall k | end + 2 <= k < |s| :: s[k] == port[k - end - 2])
  }

  lemma BracketedColon(s: string, host: string, port: string)
    requires Bracketed(s, host, port) && ':' !in port
    ensures LastIndexOf(s, ':') == |host| + 2
  {
    assert forall k | |host| + 3 <= k < |s| :: s[k] in port;
  }

  lemma BracketedEnd(s: string, host: string, port: string)
    requires Bracketed(s, host, port) && ']' !in host
    ensures IndexOf(s, ']') == |host| + 1
  {
    assert forall k | 1 <= k <= |host| :: s[k] in host;
  }

  lemma NoMoreBrackets(s: string, host: string, port: string)
    requires Bracketed(s, host, port) && BracketFree(host) && BracketFree(port)
    ensures '[' !in s[1..] && ']' !in s[|host| + 2..]
  {
    var tail := s[|host| + 2..];
    forall k | 0 <= k < |tail| ensures tail[k] in port || tail[k] == ':' {
      assert tail[k] == s[|host| + 2 + k];
    }
    forall k | 0 <= k < |s[1..]| ensures s[1..][k] != '[' {
      assert s[1..][k] in host || s[1..][k] in port || s[1..][k] == ']' || s[1..][k] == ':';
    }
  }

  lemma BracketedSplits(s: string, host: string, port: string)
    requires Bracketed(s, host, port) && BracketFree(host) && BracketFree(port) && ':' !in port
    ensures SplitHostPort(s) == Some((host, port))
  {
    BracketedColon(s, host, port);
    BracketedEnd(s, host, port);
    NoMoreBrackets(s, host, port);
    var end := |host| + 1;
    assert s[1..end] == host && s[end + 2..] == port;
  }

  lemma JoinThenSplitColon(host: string, port: string)
    requires BracketFree(host) && BracketFree(port) && ':' !in port && ':' in host
    ensures SplitHostPort(JoinHostPort(host, port)) == Some((host, port))
  {
    var s := JoinHostPort(host, port);
    assert Bracketed(s, host, port);
    BracketedSplits(s, host, port);
  }

  lemma JoinThenSplit(host: string, port: string)
    requires BracketFree(host) && BracketFree(port) && ':' !in port
    ensures SplitHostPort(JoinHostPort(host, port)) == Some((host, port))
  {
    if ':' in host {
      JoinThenSplitColon(host, port);
    } else {
      JoinThenSplitPlain(host, port);
    }
  }

  /** "host:port" or "[host]:port", with nothing in host and port to make that ambiguous. */
  predicate IsHostPort(s: string, host: string, port: string) {
    && BracketFree(host) && BracketFree(port) && ':' !in port
    && ((s == host + ":" + port && ':' !in host) || s == "[" + host + "]:" + port)
  }

  lemma NotInPart(s: string, i: nat, j: nat, c: char)
    requires i <= j <= |s| && c !in s[i..j]
    ensures forall k, l | i <= k <= l <= j :: c !in s[k..l]
  {
    forall k, l | i <= k <= l <= j ensures c !in s[k..l] {
      forall m | k <= m < l ensures s[m] != c {
        assert s[m] == s[i..j][m - i];
      }
    }
  }

  lemma SplitsBracketed(s: string, host: string, port: string)
    requires SplitHostPort(s) == Some((host, port)) && s[0] == '['
    ensures IsHostPort(s, host, port)
  {
    var end, n := IndexOf(s, ']'), |s|;
    assert host == s[1..end] && port == s[end + 2..n];
    assert s[1..n] == s[1..] && s[end + 1..n] == s[end + 1..];
    NotInPart(s, 1, n, '[');
    NotInPart(s, end + 1, n, ']');
    assert s == "[" + host + "]:" + port;
  }

  lemma SplitsPlain(s: string, host: string, port: string)
    requires SplitHostPort(s) == Some((host, port)) && s[0] != '['
    ensures IsHostPort(s, host, port)
  {
    var i, n := LastIndexOf(s, ':'), |s|;
    assert host == s[0..i] && port == s[i + 1..n] && s[0..n] == s;
    NotInPart(s, 0, n, '[');
    NotInPart(s, 0, n, ']');
    assert s == host + ":" + port;
  }

  lemma SplitsIntoHostPort(s: string, host: string, port: string)
    requires SplitHostPort(s) == Some((host, port))
    ensures IsHostPort(s, host, port)
  {
    if s[0] == '[' {
      SplitsBracketed(s, host, port);
    } else {
      SplitsPlain(s, host, port);
    }
  }

  lemma HostPortSplits(s: string, host: string, port: string)
    requires IsHostPort(s, host, port)
    ensures SplitHostPort(s) == Some((host, port))
  {
    if s == host + ":" + port && ':' !in host {
      assert s == JoinHostPort(host, port);
      JoinThenSplitPlain(host, port);
    } else {
      assert Bracketed(s, host, port);
      BracketedSplits(s, host, port);
    }
  }

  /** An address splits exactly if it has one of the two forms, and then into their parts. */
  lemma SplitsExactlyHostPorts(s: string, host: string, port: string)
    ensures SplitHostPort(s) == Some((host, port)) <==> IsHostPort(s, host, port)
  {
    if SplitHostPort(s) == Some((host, port)) {
      SplitsIntoHostPort(s, host, port);
    }
    if IsHostPort(s, host, port) {
      HostPortSplits(s, host, port);
    }
  }

  /** So the dialler's host is that of the form, or else the whole text. */
  lemma HostIsThatOfTheForm(s: string)
    ensures forall host, port :: IsHostPort(s, host, port) ==> HostFromAddr(s) == host
    ensures (forall host, port :: !IsHostPort(s, host, port)) ==> HostFromAddr(s) == s
  {
    forall host, port | IsHostPort(s, host, port) ensures HostFromAddr(s) == host {
      HostPortSplits(s, host, port);
    }
    match SplitHostPort(s)
    case None =>
    case Some((host, port)) => SplitsIntoHostPort(s, host, port);
  }

  lemma BracketedFails(s: string, host: string, port: string)
    requires Bracketed(s, host, port) && !BracketFree(host) && ':' !in port
    ensures SplitHostPort(s) == None
  {
    var end := |host| + 1;
    assert LastIndexOf(s, ':') == end + 1;
    if ']' in host {
      var k :| 0 <= k < |host| && host[k] == ']';
      assert s[k + 1] == ']';
    } else {
      var k :| 0 <= k < |host| && host[k] == '[';
      assert s[1..][k] == '[';
    }
  }

  lemma BracketedColonFails(host: string, port: string)
    requires ':' in host && !BracketFree(host) && ':' !in port
    ensures SplitHostPort(JoinHostPort(host, port)) == None
  {
    var s := JoinHostPort(host, port);
    assert Bracketed(s, host, port);
    BracketedFails(s, host, port);
  }

  lemma BracketedPlainFails(host: string, port: string)
    requires ':' !in host && !BracketFree(host) && BracketFree(port) && ':' !in port
    ensures var r := SplitHostPort(JoinHostPort(host, port)); r.Some? ==> |r.value.0| < |host|
  {
    var s := host + ":" + port;
    assert s[..|host|] == host && s[|host| + 1..] == port;
    SplitAtPort(s, |host|, port);
    assert forall k | 0 <= k < |host| :: s[k] == host[k];
    if s[0] != '[' {
      var k :| 0 <= k < |host| && (host[k] == '[' || host[k] == ']');
      assert s[k] in s;
    }
  }

  /** Only a host with a colon gets brackets. */
  lemma JoinedText(host: string, port: string)
    ensures ':' !in host ==> JoinHostPort(host, port) == host + ":" + port
    ensures ':' in host ==> JoinHostPort(host, port) == "[" + host + "]:" + port
  {
  }

  /** For a port such as "443": the host comes back exactly when it has no bracket. */
  lemma HostSurvivesExactlyWithoutBrackets(host: string, port: string)
    requires BracketFree(port) && ':' !in port
    ensures HostFromAddr(JoinHostPort(host, port)) == host <==> BracketFree(host)
  {
    if BracketFree(host) {
      JoinThenSplit(host, port);
    } else if ':' in host {
      BracketedColonFails(host, port);
      assert |JoinHostPort(host, port)| > |host|;
    } else {
      BracketedPlainFails(host, port);
      assert |JoinHostPort(host, port)| > |host|;
    }
  }

  // The decision.

  /** A compiled pattern is the set of names it matches. */
  type Pattern = string -> bool

  function LowerChar(c: char): char {
    if 'A' <= c <= 'Z' then (c as int + 32) as char else c
  }

  function ToLower(s: string): (r: string)
    ensures |r| == |s|
  {
    seq(|s|, i requires 0 <= i < |s| => LowerChar(s[i]))
  }

  /** strings.TrimSuffix(host, ".") */
  function TrimDot(s: string): string {
    if s != "" && s[|s| - 1] == '.' then s[..|s| - 1] else s
  }

  function Normalize(host: string): string {
    ToLower(TrimDot(host))
  }

  ghost predicate Matches(patterns: seq<Pattern>, name: string) {
    exists p <- patterns :: p(name)
  }

  ghost predicate Tunnels(patterns: seq<Pattern>, host: string) {
    patterns == [] || Matches(patterns, Normalize(host))
  }

  /** shouldTunnel: the first pattern that matches decides. */
  method ShouldTunnel(patterns: seq<Pattern>, host: string) returns (tunnel: bool)
    ensures tunnel <==> Tunnels(patterns, host)
  {
    if |patterns| == 0 {
      return true;
    }
    var name := ToLower(TrimDot(host));
    for i := 0 to |patterns|
      invariant forall j | 0 <= j < i :: !patterns[j](name)
    {
      if patterns[i](name) {
        assert patterns[i] in patterns;
        return true;
      }
    }
    return false;
  }

  /** RoutedDial: the decision is on the host of the address dialled. */
  method RoutedDial(patterns: seq<Pattern>, address: string) returns (tunnel: bool)
    ensures tunnel <==> Tunnels(patterns, HostFromAddr(address))
  {
    tunnel := ShouldTunnel(patterns, HostFromAddr(address));
  }

  /** routedSocks5Dial: on the name in the request, or on the host of the address without one. */
  method RoutedSocks5Dial(patterns: seq<Pattern>, address: string, fqdn: string) returns (tunnel: bool)
    ensures tunnel <==> Tunnels(patterns, SocksHost(address, fqdn))
  {
    var host := fqdn;
    if host == "" {
      host := HostFromAddr(address);
    }
    tunnel := ShouldTunnel(patterns, host);
  }

  /** The SNI path joins the name with port 443, and the dialer decides as on the bare name. */
  method DialServerName(patterns: seq<Pattern>, name: string) returns (tunnel: bool, target: string)
    requires BracketFree(name)
    ensures target == JoinHostPort(name, "443")
    ensures tunnel <==> Tunnels(patterns, name)
  {
    target := JoinHostPort(name, "443");
    HostSurvivesExactlyWithoutBrackets(name, "443");
    tunnel := RoutedDial(patterns, target);
  }

  /** The HTTP proxy: a request without a port gets 443 (handleConn) or 80 (handle). */
  function HttpAddress(host: string, otherwise: string): string {
    if ':' in host then host else JoinHostPort(host, otherwise)
  }

  /** What the SOCKS dialer decides on. */
  function SocksHost(address: string, fqdn: string): string {
    if fqdn == "" then HostFromAddr(address) else fqdn
  }

  /**
    On one name every path decides alike: the SNI dialer, an HTTP request with a port or (for a name
    without colons) without, and SOCKS by name, whatever the address, or by address alone.
   */
  lemma PathsAgree(patterns: seq<Pattern>, name: string, port: string, otherwise: string, address: string)
    requires BracketFree(name) && name != "" && BracketFree(port) && ':' !in port
    ensures Tunnels(patterns, HostFromAddr(JoinHostPort(name, "443"))) <==> Tunnels(patterns, name)
    ensures var http := HttpAddress(JoinHostPort(name, port), otherwise);
            Tunnels(patterns, HostFromAddr(http)) <==> Tunnels(patterns, name)
    ensures ':' !in name ==> (Tunnels(patterns, HostFromAddr(HttpAddress(name, port))) <==> Tunnels(patterns, name))
    ensures SplitHostPort(HttpAddress(JoinHostPort(name, port), otherwise)) == Some((name, port))
    ensures ':' !in name ==> SplitHostPort(HttpAddress(name, port)) == Some((name, port))
    ensures Tunnels(patterns, SocksHost(address, name)) <==> Tunnels(patterns, name)
    ensures Tunnels(patterns, SocksHost(JoinHostPort(name, port), "")) <==> Tunnels(patterns, name)
  {
    HostSurvivesExactlyWithoutBrackets(name, "443");
    HostSurvivesExactlyWithoutBrackets(name, port);
    JoinThenSplit(name, port);
    assert JoinHostPort(name, port)[if ':' in name then |name| + 2 else |name|] == ':';
  }

  /** One is a capital letter and the other the small letter, which stands 32 above it. */
  predicate SameLetter(a: char, b: char) {
    || a == b
    || ('A' <= a <= 'Z' && b as int == a as int + 32)
    || ('A' <= b <= 'Z' && a as int == b as int + 32)
  }

  predicate SameUpToCase(a: string, b: string) {
    |a| == |b| && forall i | 0 <= i < |a| :: SameLetter(a[i], b[i])
  }

  /** No capital letter, and no dot at the end: such a name is already as it is matched. */
  predicate Canonical(name: string) {
    (forall c <- name :: !('A' <= c <= 'Z')) && (name == "" || name[|name| - 1] != '.')
  }

  lemma LowerSameLetter(a: char, b: char)
    requires SameLetter(a, b)
    ensures LowerChar(a) == LowerChar(b)
  {
  }

  lemma SameUpToCaseIsSameLower(a: string, b: string)
    requires SameUpToCase(a, b)
    ensures ToLower(a) == ToLower(b)
  {
    forall i | 0 <= i < |a| ensures LowerChar(a[i]) == LowerChar(b[i]) {
      LowerSameLetter(a[i], b[i]);
    }
  }

  /**
    A non-empty list decides a name in small letters and without a dot at its end by matching that
    very name; so it decides, by matching that name, every name that differs from it in letter case
    only, and every such name with one dot more at its end.
   */
  lemma DecisionIgnoresCaseAndOneDot(patterns: seq<Pattern>, name: string, spelt: string)
    requires patterns != [] && Canonical(name) && SameUpToCase(spelt, name)
    ensures Tunnels(patterns, name) <==> exists p <- patterns :: p(name)
    ensures Tunnels(patterns, spelt) <==> exists p <- patterns :: p(name)
    ensures Tunnels(patterns, spelt + ".") <==> exists p <- patterns :: p(name)
  {
    forall i | 0 <= i < |name| ensures LowerChar(name[i]) == name[i] {
      assert name[i] in name;
    }
    assert ToLower(name) == name;
    SameUpToCaseIsSameLower(spelt, name);
    if name != "" {
      assert SameLetter(spelt[|name| - 1], name[|name| - 1]);
      assert spelt[|spelt| - 1] != '.';
    }
    assert TrimDot(spelt) == spelt && TrimDot(name) == name && TrimDot(spelt + ".") == spelt;
  }

  /** Any two names that differ in letter case only are decided alike, dots at the end and all. */
  lemma DecisionIgnoresCase(patterns: seq<Pattern>, a: string, b: string)
    requires SameUpToCase(a, b)
    ensures Tunnels(patterns, a) <==> Tunnels(patterns, b)
  {
    SameUpToCaseIsSameLower(a, b);
    if a != "" {
      assert SameLetter(a[|a| - 1], b[|b| - 1]);
    }
    assert SameUpToCase(TrimDot(a), TrimDot(b));
    SameUpToCaseIsSameLower(TrimDot(a), TrimDot(b));
  }

  /** Only one dot is taken off: a name that ends in two is matched with one. */
  lemma OneDotOnly(patterns: seq<Pattern>, name: string)
    requires patterns != [] && Canonical(name)
    ensures Tunnels(patterns, name + "..") <==> exists p <- patterns :: p(name + ".")
  {
    var dotted := name + ".";
    assert TrimDot(name + "..") == dotted;
    forall i | 0 <= i < |dotted| ensures LowerChar(dotted[i]) == dotted[i] {
      if i < |name| {
        assert name[i] in name && dotted[i] == name[i];
      }
    }
    assert ToLower(dotted) == dotted;
  }

  /** Two lists in one tunnel what either does. */
  lemma JoinedListsTunnelTheUnion(patterns: seq<Pattern>, more: seq<Pattern>, host: string)
    requires patterns != [] && more != []
    ensures Tunnels(patterns + more, host) <==> Tunnels(patterns, host) || Tunnels(more, host)
    ensures Tunnels([], host)
  {
    var name := Normalize(host);
    if p :| p in patterns && p(name) {
      assert p in patterns + more;
    }
    if p :| p in more && p(name) {
      assert p in patterns + more;
    }
  }

  ghost predicate Included(patterns: seq<Pattern>, more: seq<Pattern>) {
    forall p <- patterns :: p in more
  }

  /** Some longer list sends direct what the shorter one tunnels. */
  ghost predicate SomeListTakesAway(patterns: seq<Pattern>, host: string) {
    exists more: seq<Pattern> :: Included(patterns, more) && Tunnels(patterns, host) && !Tunnels(more, host)
  }

  lemma MorePatternsMoreNames(patterns: seq<Pattern>, more: seq<Pattern>, host: string)
    requires patterns != [] && Included(patterns, more) && Tunnels(patterns, host)
    ensures Tunnels(more, host)
  {
    var p :| p in patterns && p(Normalize(host));
    assert p in more;
  }

  /**
    The decision grows as patterns are added, in any places and any order, exactly from a non-empty
    list on; to the empty list, which tunnels everything, a pattern may be added that takes a name away.
   */
  lemma DecisionGrowsWithPatterns(patterns: seq<Pattern>, host: string)
    ensures SomeListTakesAway(patterns, host) <==> patterns == []
  {
    if patterns == [] {
      var never: seq<Pattern> := [(_: string) => false];
      assert Included(patterns, never) && !Tunnels(never, host);
    } else {
      forall more: seq<Pattern> | Included(patterns, more) && Tunnels(patterns, host) ensures Tunnels(more, host) {
        MorePatternsMoreNames(patterns, more, host);
      }
    }
  }
}
