/** The /metrics endpoint (routine.go): the device's state with its secrets redacted. */
module Metrics {
  import opened Text

  predicate Secret(key: string) {
    key == "private_key" || key == "preshared_key"
  }

  /** What the endpoint writes for one of the parts the newlines separate. */
  function RewritePart(part: string): string {
    match Cut(part, '=')
    case None => part
    case Some((key, value)) => key + "=" + (if Secret(key) then "REDACTED" else value) + "\n"
  }

  function Rewritten(parts: seq<string>): seq<string> {
    seq(|parts|, i requires 0 <= i < |parts| => RewritePart(parts[i]))
  }

  function Rewrite(get: string): string {
    Concat(Rewritten(Split(get, '\n')))
  }

  lemma RewrittenNext(parts: seq<string>, i: nat)
    requires i < |parts|
    ensures Rewritten(parts[..i + 1]) == Rewritten(parts[..i]) + [RewritePart(parts[i])]
  {
  }

  /** The loop over the lines, into a buffer. */
  method Serve(get: string) returns (buf: string)
    ensures buf == Rewrite(get)
  {
    buf := "";
    var lines := Split(get, '\n');
    for i := 0 to |lines|
      invariant buf == Concat(Rewritten(lines[..i]))
    {
      RewrittenNext(lines, i);
      ConcatOne(Rewritten(lines[..i]), RewritePart(lines[i]));
      var pair := Cut(lines[i], '=');
      if pair.None? {
        buf := buf + lines[i];
      } else {
        var (key, value) := pair.value;
        if Secret(key) {
          value := "REDACTED";
        }
        buf := buf + (key + "=" + value + "\n");
      }
    }
    assert lines[..|lines|] == lines;
  }

  datatype Pair = Pair(key: string, value: string)

  predicate PairOk(p: Pair) {
    '=' !in p.key && OneLine(p.key) && OneLine(p.value)
  }

  function Show(ps: seq<Pair>): string {
    Unlines(seq(|ps|, i requires 0 <= i < |ps| => ShowLine(ps[i])))
  }

  function ShowLine(p: Pair): string {
    p.key + ['='] + p.value
  }

  function RedactPair(p: Pair): Pair {
    if Secret(p.key) then p.(value := "REDACTED") else p
  }

  function Redact(ps: seq<Pair>): (r: seq<Pair>)
    ensures |r| == |ps|
  {
    seq(|ps|, i requires 0 <= i < |ps| => RedactPair(ps[i]))
  }

  /** Text whose every line is key=value and ends in a newline: exactly what shows some pairs. */
  predicate WellFormed(text: string) {
    var parts := Split(text, '\n');
    parts[|parts| - 1] == "" && forall l <- parts[..|parts| - 1] :: '=' in l
  }

  function PairOf(line: string): Pair {
    match Cut(line, '=')
    case None => Pair(line, "")
    case Some((k, v)) => Pair(k, v)
  }

  function PairsOf(text: string): (ps: seq<Pair>)
    ensures |ps| == |Split(text, '\n')| - 1
  {
    var parts := Split(text, '\n');
    seq(|parts| - 1, i requires 0 <= i < |parts| - 1 => PairOf(parts[i]))
  }

  /** Well-formed texts are the shows of their pairs. */
  lemma WellFormedShows(text: string)
    requires WellFormed(text)
    ensures text == Show(PairsOf(text)) && forall p <- PairsOf(text) :: PairOk(p)
  {
    var parts, ps := Split(text, '\n'), PairsOf(text);
    var front := parts[..|parts| - 1];
    SplitJoins(text);
    SplitOneLine(text);
    forall i | 0 <= i < |ps| ensures ShowLine(ps[i]) == front[i] && PairOk(ps[i]) {
      CutJoins(front[i], '=');
      assert front[i] in front && parts[i] in parts && front[i] == parts[i];
    }
    assert front == seq(|ps|, i requires 0 <= i < |ps| => ShowLine(ps[i]));
  }

  lemma {:induction false} PartsOfShow(ps: seq<Pair>)
    requires forall p <- ps :: PairOk(p)
    ensures Split(Show(ps), '\n') == seq(|ps|, i requires 0 <= i < |ps| => ShowLine(ps[i])) + [""]
    ensures PairsOf(Show(ps)) == ps && WellFormed(Show(ps))
  {
    var lines := seq(|ps|, i requires 0 <= i < |ps| => ShowLine(ps[i]));
    forall i | 0 <= i < |ps| ensures OneLine(lines[i]) && PairOf(lines[i]) == ps[i] && '=' in lines[i] {
      assert ps[i] in ps;
      CutAtFirst(ps[i].key, '=', ps[i].value);
    }
    SplitUnlines(lines);
    var parts := Split(Show(ps), '\n');
    assert parts[..|parts| - 1] == lines;
    assert PairsOf(Show(ps)) == ps;
  }

  lemma RewriteLines(ps: seq<Pair>, lines: seq<string>)
    requires |lines| == |ps| && forall i | 0 <= i < |ps| :: PairOk(ps[i]) && lines[i] == ShowLine(ps[i])
    ensures Concat(Rewritten(lines)) == Show(Redact(ps))
  {
    var shown := seq(|ps|, i requires 0 <= i < |ps| => ShowLine(Redact(ps)[i]));
    forall i | 0 <= i < |ps| ensures Rewritten(lines)[i] == Terminated(shown)[i] {
      RewriteShownLine(ps[i]);
    }
    assert Rewritten(lines) == Terminated(shown);
    UnlinesIsConcat(shown);
  }

  lemma RewriteShownLine(p: Pair)
    requires PairOk(p)
    ensures RewritePart(ShowLine(p)) == ShowLine(RedactPair(p)) + "\n"
  {
    CutAtFirst(p.key, '=', p.value);
  }

  // Lines without '='.

  /**
    What stands on a line of its own: with '=' it is rewritten and keeps its newline, without it stays
    as it is and loses its newline.  `rest` follows on the next line.
   */
  lemma LineIsRewrittenAlone(line: string, rest: string)
    requires OneLine(line)
    ensures Rewrite(line + "\n" + rest) ==
            (match Cut(line, '=')
             case None => line
             case Some((key, value)) =>
               key + "=" + (if key == "private_key" || key == "preshared_key" then "REDACTED" else value) + "\n")
            + Rewrite(rest)
  {
    assert line + "\n" + rest == line + ['\n'] + rest;
    SplitFirst(line, '\n', rest);
    RewriteFirst(line, Split(rest, '\n'));
  }

  lemma RewriteFirst(line: string, more: seq<string>)
    ensures Concat(Rewritten([line] + more)) == RewritePart(line) + Concat(Rewritten(more))
  {
    ConcatFirst(RewritePart(line), Rewritten(more));
    assert Rewritten([line] + more) == [RewritePart(line)] + Rewritten(more);
  }

  lemma RewriteTail(lines: seq<string>)
    ensures Concat(Rewritten(lines + [""])) == Concat(Rewritten(lines))
  {
    assert Rewritten(lines + [""]) == Rewritten(lines) + [""];
    ConcatOne(Rewritten(lines), "");
  }

  lemma RewriteShow(ps: seq<Pair>)
    requires forall p <- ps :: PairOk(p)
    ensures Rewrite(Show(ps)) == Show(Redact(ps))
  {
    var lines := seq(|ps|, i requires 0 <= i < |ps| => ShowLine(ps[i]));
    PartsOfShow(ps);
    RewriteTail(lines);
    forall i | 0 <= i < |ps| ensures PairOk(ps[i]) {
      assert ps[i] in ps;
    }
    RewriteLines(ps, lines);
  }

  lemma RedactKeepsPairs(ps: seq<Pair>)
    requires forall p <- ps :: PairOk(p)
    ensures forall p <- Redact(ps) :: PairOk(p)
  {
    forall i | 0 <= i < |ps| ensures PairOk(RedactPair(ps[i])) {
      assert ps[i] in ps;
    }
  }

  /** The same lines and keys in the same order, every value kept but the two secrets. */
  lemma RewriteRedacts(text: string)
    requires WellFormed(text)
    ensures WellFormed(Rewrite(text)) && PairsOf(Rewrite(text)) == Redact(PairsOf(text))
    ensures Rewrite(text) == Show(Redact(PairsOf(text)))
    ensures var before, now := PairsOf(text), PairsOf(Rewrite(text));
            && |now| == |before|
            && forall i | 0 <= i < |before| ::
                 && now[i].key == before[i].key
                 && now[i].value == if before[i].key == "private_key" || before[i].key == "preshared_key"
                                    then "REDACTED" else before[i].value
  {
    var ps := PairsOf(text);
    WellFormedShows(text);
    RewriteShow(ps);
    RedactKeepsPairs(ps);
    PartsOfShow(Redact(ps));
  }

  /** Rewriting twice is rewriting once. */
  lemma RewriteIsIdempotent(text: string)
    requires WellFormed(text)
    ensures Rewrite(Rewrite(text)) == Rewrite(text)
  {
    RewriteRedacts(text);
    RewriteRedacts(Rewrite(text));
    assert Redact(Redact(PairsOf(text))) == Redact(PairsOf(text));
  }

  /** Two states that differ only in secret values. */
  predicate SameButSecrets(a: seq<Pair>, b: seq<Pair>) {
    && |a| == |b|
    && forall i | 0 <= i < |a| ::
         && a[i].key == b[i].key
         && (a[i].value == b[i].value || a[i].key == "private_key" || a[i].key == "preshared_key")
  }

  /** The output depends on no secret, and on everything else. */
  lemma RewriteDependsOnNoSecret(a: string, b: string)
    requires WellFormed(a) && WellFormed(b)
    ensures Rewrite(a) == Rewrite(b) <==> SameButSecrets(PairsOf(a), PairsOf(b))
  {
    RewriteRedacts(a);
    RewriteRedacts(b);
    var p, q := PairsOf(a), PairsOf(b);
    if SameButSecrets(p, q) {
      assert Redact(p) == Redact(q);
    } else if Redact(p) == Redact(q) {
      forall i | 0 <= i < |p|
        ensures p[i].key == q[i].key
        ensures p[i].value == q[i].value || p[i].key == "private_key" || p[i].key == "preshared_key"
      {
        assert Redact(p)[i] == Redact(q)[i];
      }
      assert false;
    }
  }
}
