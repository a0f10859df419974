/** Text and byte helpers shared by the printers, parsers and codecs. */
module Text {
  type Byte = b: int | 0 <= b < 256

  datatype Option<+T> = None | Some(value: T)

  lemma Regroup<T>(a: seq<T>, b: seq<T>, c: seq<T>)
    ensures (a + b) + c == a + (b + c)
  {
  }

  /** strings.Split with a one-character separator */
  function Split(s: string, sep: char): (parts: seq<string>)
    ensures parts != []
  {
    if s == "" then [""]
    else
      var rest := Split(s[1..], sep);
      if s[0] == sep then [""] + rest else [[s[0]] + rest[0]] + rest[1..]
  }

  /** SplitN(s, sep, 2), of strings or bytes: what is before and after the first separator, if any. */
  function Cut<T(==)>(s: seq<T>, sep: T): Option<(seq<T>, seq<T>)> {
    if s == [] then None
    else if s[0] == sep then Some(([], s[1..]))
    else match Cut(s[1..], sep)
         case None => None
         case Some((a, b)) => Some(([s[0]] + a, b))
  }

  lemma {:induction false} CutAtFirst<T>(a: seq<T>, sep: T, b: seq<T>)
    requires sep !in a
    ensures Cut(a + [sep] + b, sep) == Some((a, b))
  {
    var s := a + [sep] + b;
    if a != [] {
      CutAtFirst(a[1..], sep, b);
      assert s[1..] == a[1..] + [sep] + b && a == [a[0]] + a[1..];
    } else {
      assert s[1..] == b;
    }
  }

  lemma {:induction false} CutJoins<T>(s: seq<T>, sep: T)
    ensures match Cut(s, sep)
            case None => sep !in s
            case Some((a, b)) => sep !in a && s == a + [sep] + b
  {
    if s != [] && s[0] != sep {
      CutJoins(s[1..], sep);
      assert s == [s[0]] + s[1..];
    }
  }

  /** Every line with its terminator. */
  function Unlines(lines: seq<string>): string {
    if lines == [] then "" else lines[0] + "\n" + Unlines(lines[1..])
  }

  /** What a buffer holds that these have been written to, one after the other. */
  function Concat(parts: seq<string>): string {
    if parts == [] then "" else Concat(parts[..|parts| - 1]) + parts[|parts| - 1]
  }

  lemma ConcatOne(parts: seq<string>, last: string)
    ensures Concat(parts + [last]) == Concat(parts) + last
  {
    assert (parts + [last])[..|parts|] == parts;
  }

  lemma {:induction false} ConcatAppend(a: seq<string>, b: seq<string>)
    ensures Concat(a + b) == Concat(a) + Concat(b)
    decreases |b|
  {
    if b == [] {
      assert a + b == a && Concat(a) + "" == Concat(a);
    } else {
      var front, last := b[..|b| - 1], b[|b| - 1];
      ConcatAppend(a, front);
      ConcatOne(a + front, last);
      ConcatOne(front, last);
      assert (a + front) + [last] == a + b && front + [last] == b;
      Regroup(Concat(a), Concat(front), last);
    }
  }

  lemma ConcatFirst(first: string, more: seq<string>)
    ensures Concat([first] + more) == first + Concat(more)
  {
    ConcatAppend([first], more);
    ConcatOne([], first);
    assert [] + [first] == [first] && "" + first == first;
  }

  function Terminated(lines: seq<string>): seq<string> {
    seq(|lines|, i requires 0 <= i < |lines| => lines[i] + "\n")
  }

  lemma {:induction false} UnlinesIsConcat(lines: seq<string>)
    ensures Unlines(lines) == Concat(Terminated(lines))
  {
    if lines == [] {
      assert Terminated(lines) == [];
    } else {
      var n := |lines| - 1;
      UnlinesIsConcat(lines[..n]);
      UnlinesAppend(lines[..n], [lines[n]]);
      assert lines[..n] + [lines[n]] == lines && [lines[n]][1..] == [];
      assert Unlines([lines[n]]) == lines[n] + "\n";
      ConcatOne(Terminated(lines[..n]), lines[n] + "\n");
      assert Terminated(lines) == Terminated(lines[..n]) + [lines[n] + "\n"];
    }
  }

  predicate OneLine(s: string) {
    '\n' !in s
  }

  lemma {:induction false} UnlinesAppend(a: seq<string>, b: seq<string>)
    ensures Unlines(a + b) == Unlines(a) + Unlines(b)
  {
    if a == [] {
      assert a + b == b;
    } else {
      UnlinesAppend(a[1..], b);
      assert (a + b)[1..] == a[1..] + b;
    }
  }

  lemma {:induction false} SplitFirst(a: string, sep: char, b: string)
    requires sep !in a
    ensures Split(a + [sep] + b, sep) == [a] + Split(b, sep)
  {
    var s := a + [sep] + b;
    if a == "" {
      assert s[1..] == b;
    } else {
      SplitFirst(a[1..], sep, b);
      assert s[1..] == a[1..] + [sep] + b && a == [a[0]] + a[1..];
    }
  }

  lemma {:induction false} SplitUnlines(lines: seq<string>)
    requires forall l <- lines :: OneLine(l)
    ensures Split(Unlines(lines), '\n') == lines + [""]
  {
    if lines != [] {
      SplitUnlines(lines[1..]);
      assert OneLine(lines[0]);
      SplitFirst(lines[0], '\n', Unlines(lines[1..]));
      assert lines == [lines[0]] + lines[1..];
    }
  }

  lemma {:induction false} SplitOneLine(s: string)
    ensures forall l <- Split(s, '\n') :: OneLine(l)
  {
    if s != "" {
      SplitOneLine(s[1..]);
      var rest := Split(s[1..], '\n');
      assert rest[0] in rest;
      forall l <- Split(s, '\n') ensures OneLine(l) {
        if s[0] != '\n' && l in rest[1..] {
          assert l in rest;
        }
      }
    }
  }

  /** The text whose lines these are, the last one without a newline. */
  function Joined(parts: seq<string>): string
    requires parts != []
  {
    Unlines(parts[..|parts| - 1]) + parts[|parts| - 1]
  }

  lemma JoinEmptyLine(rest: seq<string>)
    requires rest != []
    ensures Joined([""] + rest) == "\n" + Joined(rest)
  {
    var front := rest[..|rest| - 1];
    assert ([""] + rest)[..|rest|] == [""] + front;
    assert Unlines([""] + front) == "\n" + Unlines(front);
  }

  lemma JoinLongerLine(c: char, rest: seq<string>)
    requires rest != []
    ensures Joined([[c] + rest[0]] + rest[1..]) == [c] + Joined(rest)
  {
    var parts := [[c] + rest[0]] + rest[1..];
    var n := |rest| - 1;
    if n > 0 {
      var more := rest[1..n];
      assert parts[..n] == [[c] + rest[0]] + more && rest[..n] == [rest[0]] + more;
      UnlinesOne([c] + rest[0], more);
      UnlinesOne(rest[0], more);
      Regroup([c], rest[0], "\n" + Unlines(more));
      Regroup([c], Unlines(rest[..n]), rest[n]);
    }
  }

  lemma UnlinesOne(line: string, more: seq<string>)
    ensures Unlines([line] + more) == line + ("\n" + Unlines(more))
  {
    assert ([line] + more)[1..] == more;
  }

  lemma {:induction false} SplitJoins(s: string)
    ensures var parts := Split(s, '\n'); s == Unlines(parts[..|parts| - 1]) + parts[|parts| - 1]
  {
    if s != "" {
      var rest := Split(s[1..], '\n');
      SplitJoins(s[1..]);
      assert Joined(rest) == s[1..] && s == [s[0]] + s[1..];
      if s[0] == '\n' {
        JoinEmptyLine(rest);
      } else {
        JoinLongerLine(s[0], rest);
      }
      assert Joined(Split(s, '\n')) == s;
    }
  }

  // Decimal numbers, as fmt's %d prints them.

  predicate IsDigit(c: char) {
    '0' <= c <= '9'
  }

  function DigitChar(d: nat): char
    requires d < 10
  {
    ('0' as int + d) as char
  }

  function NatText(n: nat): (s: string)
    ensures s != "" && forall c <- s :: IsDigit(c)
  {
    if n < 10 then [DigitChar(n)] else NatText(n / 10) + [DigitChar(n % 10)]
  }

  function IntText(n: int): (s: string)
    ensures s != "" && OneLine(s)
  {
    if n < 0 then "-" + NatText(-n) else NatText(n)
  }

  function ParseNat(s: string): Option<nat> {
    if s == "" || !IsDigit(s[|s| - 1]) then None
    else
      var d := s[|s| - 1] as int - '0' as int;
      if |s| == 1 then Some(d)
      else match ParseNat(s[..|s| - 1])
           case None => None
           case Some(n) => Some(10 * n + d)
  }

  function ParseInt(s: string): Option<int> {
    var negative := s != "" && s[0] == '-';
    var m := ParseNat(if negative then s[1..] else s);
    if m.None? then None
    else
      var n: int := m.value;
      Some(if negative then -n else n)
  }

  lemma {:induction false} ParseNatStep(s: string, n: nat, d: nat)
    requires ParseNat(s) == Some(n) && d < 10 && s != ""
    ensures ParseNat(s + [DigitChar(d)]) == Some(10 * n + d)
  {
    assert (s + [DigitChar(d)])[..|s|] == s;
  }

  lemma {:induction false} NatRoundTrip(n: nat)
    ensures ParseNat(NatText(n)) == Some(n)
  {
    if n >= 10 {
      NatRoundTrip(n / 10);
      ParseNatStep(NatText(n / 10), n / 10, n % 10);
    }
  }

  /** No leading zero: only 0 itself begins with one. */
  lemma {:induction false} NatTextIsShortest(n: nat)
    ensures NatText(n)[0] == '0' ==> n == 0 && NatText(n) == "0"
  {
    if n >= 10 {
      NatTextIsShortest(n / 10);
    }
  }

  /** %d: a sign for negative numbers only, and no leading zeros. */
  lemma IntTextIsShortest(n: int)
    ensures IntText(n)[0] == '-' <==> n < 0
    ensures n != 0 ==> IntText(n)[if n < 0 then 1 else 0] != '0'
    ensures IntText(0) == "0"
  {
    NatTextIsShortest(if n < 0 then -n else n);
    assert NatText(if n < 0 then -n else n)[0] in NatText(if n < 0 then -n else n);
  }

  lemma MinusIsParsed(text: string, n: int)
    requires n < 0 && ParseNat(text) == Some(-n)
    ensures ParseInt("-" + text) == Some(n)
  {
    assert ("-" + text)[1..] == text;
  }

  lemma DigitsAreParsed(text: string, n: nat)
    requires ParseNat(text) == Some(n) && text != "" && IsDigit(text[0])
    ensures ParseInt(text) == Some(n)
  {
  }

  lemma IntRoundTrip(n: int)
    ensures ParseInt(IntText(n)) == Some(n)
  {
    if n < 0 {
      NatRoundTrip(-n);
      MinusIsParsed(NatText(-n), n);
    } else {
      NatRoundTrip(n);
      assert NatText(n)[0] in NatText(n);
      DigitsAreParsed(NatText(n), n);
    }
  }
}
