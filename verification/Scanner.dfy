/** The lines a text scanner reads from a file's contents: each up to a line
    break or the end, without a carriage return at its end. */
module Scanner {
  import opened Text

  /** The first line break, or the end. */
  function LineEnd(f: string): (n: nat)
    ensures n <= |f|
  {
    if f == "" || f[0] == '\n' then 0 else 1 + LineEnd(f[1..])
  }

  function DropCR(line: string): string {
    if line != "" && line[|line| - 1] == '\r' then line[..|line| - 1] else line
  }

  function Rest(f: string): string {
    if LineEnd(f) < |f| then f[LineEnd(f) + 1..] else ""
  }

  function Lines(f: string): seq<string>
    decreases |f|
  {
    if f == "" then [] else [DropCR(f[..LineEnd(f)])] + Lines(Rest(f))
  }

  /** A file whose last line has no end. */
  predicate Unterminated(f: string) {
    f != "" && f[|f| - 1] != '\n'
  }

  lemma {:induction false} LineEnds(f: string)
    ensures LineEnd(f) < |f| ==> f[LineEnd(f)] == '\n'
    ensures forall i :: 0 <= i < LineEnd(f) ==> f[i] != '\n'
  {
    if f != "" && f[0] != '\n' { LineEnds(f[1..]); }
  }

  lemma {:induction false} LineEndIs(f: string, n: nat)
    requires n <= |f| && (n < |f| ==> f[n] == '\n') && forall i :: 0 <= i < n ==> f[i] != '\n'
    ensures LineEnd(f) == n
  {
    LineEnds(f);
  }

  lemma {:induction false} FirstLine(line: string, rest: string)
    requires '\n' !in line
    ensures LineEnd(line + "\n" + rest) == |line| && Rest(line + "\n" + rest) == rest
    ensures (line + "\n" + rest)[..LineEnd(line + "\n" + rest)] == line
  {
    var f := line + "\n" + rest;
    assert f[|line|] == '\n';
    assert forall i :: 0 <= i < |line| ==> f[i] == line[i] && line[i] in line;
    LineEndIs(f, |line|);
  }

  /** A file is its first line and the rest. */
  lemma {:induction false} SplitFirst(f: string)
    requires f != ""
    ensures '\n' !in f[..LineEnd(f)]
    ensures LineEnd(f) < |f| ==> f == f[..LineEnd(f)] + "\n" + Rest(f)
    ensures LineEnd(f) == |f| ==> f == f[..LineEnd(f)]
    ensures |Rest(f)| < |f|
  {
    LineEnds(f);
  }

  lemma {:induction false} LinesNone(f: string)
    requires |f| == 0
    ensures Lines(f) == []
  {
  }

  lemma {:induction false} LinesStep(f: string)
    requires f != ""
    ensures Lines(f) == [DropCR(f[..LineEnd(f)])] + Lines(Rest(f)) && |Rest(f)| < |f|
  {
  }

  lemma {:induction false} LinesFirst(f: string, line: string, rest: string)
    requires f == line + "\n" + rest && '\n' !in line
    ensures Lines(f) == [DropCR(line)] + Lines(rest)
  {
    FirstLine(line, rest);
  }

  lemma {:induction false} LinesOnly(line: string)
    requires '\n' !in line
    ensures Lines(line) == if line == "" then [] else [DropCR(line)]
  {
    assert forall i :: 0 <= i < |line| ==> line[i] in line;
    LineEndIs(line, |line|);
    assert line[..|line|] == line;
  }

  /** Behind whole lines a file goes on as if it began there. */
  lemma {:induction false} LinesAppend(f: string, g: string)
    requires !Unterminated(f)
    ensures Lines(f + g) == Lines(f) + Lines(g)
    decreases |f|
  {
    if f == "" {
      assert f + g == g;
    } else {
      SplitFirst(f);
      AppendBehind(f, f[..LineEnd(f)], Rest(f), g);
    }
  }

  lemma {:induction false} AppendBehind(f: string, line: string, rest: string, g: string)
    requires f == line + "\n" + rest && '\n' !in line && !Unterminated(f)
    ensures Lines(f + g) == Lines(f) + Lines(g)
    decreases |f|, 0
  {
    assert f + g == line + "\n" + (rest + g);
    LinesFirst(f + g, line, rest + g);
    LinesFirst(f, line, rest);
    assert rest != "" ==> rest[|rest| - 1] == f[|f| - 1];
    LinesAppend(rest, g);
    Associates([DropCR(line)], Lines(rest), Lines(g));
  }

  lemma {:induction false} EndedOnly(f: string)
    requires f != "" && '\n' !in f
    ensures Lines(f + "\n") == Lines(f)
  {
    var none := f[|f|..];
    assert f + "\n" == f + "\n" + none;
    LinesFirst(f + "\n", f, none);
    LinesNone(none);
    LinesOnly(f);
  }

  lemma {:induction false} EndedBehind(f: string, line: string, rest: string)
    requires f == line + "\n" + rest && '\n' !in line && Lines(rest + "\n") == Lines(rest)
    ensures Lines(f + "\n") == Lines(f)
  {
    assert f + "\n" == line + "\n" + (rest + "\n");
    LinesFirst(f + "\n", line, rest + "\n");
    LinesFirst(f, line, rest);
  }

  /** Ending the last line changes nothing. */
  lemma {:induction false} LinesEnded(f: string)
    requires Unterminated(f)
    ensures Lines(f + "\n") == Lines(f)
    decreases |f|
  {
    SplitFirst(f);
    var line, rest := f[..LineEnd(f)], Rest(f);
    if LineEnd(f) == |f| {
      EndedOnly(f);
    } else {
      assert |rest| > 0 && rest[|rest| - 1] == f[|f| - 1];
      LinesEnded(rest);
      EndedBehind(f, line, rest);
    }
  }

  /** The scanner's step: the line, and what is left behind it. */
  method NextLine(left: string) returns (line: string, rest: string)
    requires left != ""
    ensures Lines(left) == [line] + Lines(rest) && |rest| < |left|
  {
    var n := FindBreak(left);
    line := WithoutCR(left[..n]);
    rest := Behind(left, n);
    LinesStep(left);
  }

  method Behind(left: string, n: nat) returns (rest: string)
    requires n == LineEnd(left)
    ensures rest == Rest(left)
  {
    rest := if n < |left| then left[n + 1..] else "";
  }

  method FindBreak(left: string) returns (n: nat)
    ensures n == LineEnd(left)
  {
    n := 0;
    while n < |left| && left[n] != '\n'
      invariant n <= |left| && forall i :: 0 <= i < n ==> left[i] != '\n'
    {
      n := n + 1;
    }
    LineEndIs(left, n);
  }

  method WithoutCR(line: string) returns (r: string)
    ensures r == DropCR(line)
  {
    r := if |line| > 0 && line[|line| - 1] == '\r' then line[..|line| - 1] else line;
  }
}
