/** The command center's history, a crash-tolerant log. */
module History {
  // One encoded entry per line, appended by
  // writes that a crash may cut anywhere.
  //
  // How an entry is encoded is a parameter; what the log needs of it is written
  // out in Lawful, and Brackets shows an encoding that has it.

  import opened Text
  import opened Scanner

  datatype Codec<!T> = Codec(marshal: T -> string, unmarshal: string -> Option<T>)

  /** An entry comes back from its line, which has no line break, does not end
      in a carriage return, and is not decoded from any proper part of it. */
  ghost predicate LawfulFor<T>(codec: Codec<T>, e: T) {
    var line := codec.marshal(e);
    && codec.unmarshal(line) == Some(e)
    && line != "" && '\n' !in line && line[|line| - 1] != '\r'
    && forall k :: 0 <= k < |line| ==> codec.unmarshal(line[..k]).None?
  }

  ghost predicate Lawful<T(!new)>(codec: Codec<T>) {
    forall e :: LawfulFor(codec, e)
  }

  // ----------------------------------------------------------------- reading

  /** An empty line and one that does not decode count for nothing. */
  function Entry<T>(codec: Codec<T>, line: string): seq<T> {
    if line == "" then []
    else match codec.unmarshal(line)
      case None => []
      case Some(e) => [e]
  }

  function Decoded<T>(codec: Codec<T>, lines: seq<string>): seq<T> {
    if lines == [] then [] else Decoded(codec, lines[..|lines| - 1]) + Entry(codec, lines[|lines| - 1])
  }

  /** What loading a file with these contents returns. */
  function Load<T>(codec: Codec<T>, f: string): seq<T> {
    Decoded(codec, Lines(f))
  }

  // ----------------------------------------------------------------- writing

  function Separator(f: string): string {
    if Unterminated(f) then "\n" else ""
  }

  function Encoded<T>(codec: Codec<T>, entries: seq<T>): string {
    if entries == [] then "" else codec.marshal(entries[0]) + "\n" + Encoded(codec, entries[1..])
  }

  /** What one append writes. */
  function Block<T>(codec: Codec<T>, f: string, entries: seq<T>): string {
    if entries == [] then "" else Separator(f) + Encoded(codec, entries)
  }

  // ----------------------------------------------------------------- loading

  lemma {:induction false} DecodedAppend<T>(codec: Codec<T>, xs: seq<string>, ys: seq<string>)
    ensures Decoded(codec, xs + ys) == Decoded(codec, xs) + Decoded(codec, ys)
  {
    if ys == [] {
      assert xs + ys == xs;
    } else {
      var n := |ys| - 1;
      DecodedAppend(codec, xs, ys[..n]);
      assert (xs + ys)[..|xs + ys| - 1] == xs + ys[..n];
      Associates(Decoded(codec, xs), Decoded(codec, ys[..n]), Entry(codec, ys[n]));
    }
  }

  lemma {:induction false} DecodedOne<T>(codec: Codec<T>, line: string)
    ensures Decoded(codec, [line]) == Entry(codec, line)
  {
    assert [line][..0] == [];
    assert [] + Entry(codec, line) == Entry(codec, line);
  }

  /** The first line counts for itself. */
  lemma {:induction false} LoadLine<T>(codec: Codec<T>, f: string, line: string, rest: string)
    requires f == line + "\n" + rest && '\n' !in line
    ensures Load(codec, f) == Entry(codec, DropCR(line)) + Load(codec, rest)
  {
    LinesFirst(f, line, rest);
    DecodedAppend(codec, [DropCR(line)], Lines(rest));
    DecodedOne(codec, DropCR(line));
  }

  lemma {:induction false} LoadOnly<T>(codec: Codec<T>, line: string)
    requires '\n' !in line
    ensures Load(codec, line) == Entry(codec, DropCR(line))
  {
    LinesOnly(line);
    DecodedOne(codec, DropCR(line));
  }

  lemma {:induction false} LoadAppends<T>(codec: Codec<T>, f: string, g: string)
    requires !Unterminated(f)
    ensures Load(codec, f + g) == Load(codec, f) + Load(codec, g)
  {
    LinesAppend(f, g);
    DecodedAppend(codec, Lines(f), Lines(g));
  }

  lemma {:induction false} LoadSeparated<T>(codec: Codec<T>, f: string)
    ensures Load(codec, f + Separator(f)) == Load(codec, f) && !Unterminated(f + Separator(f))
  {
    if Unterminated(f) { LinesEnded(f); } else { assert f + "" == f; }
  }

  // ------------------------------------------------------------------ blocks

  /** How many entries the first k bytes of their lines hold whole; the line
      break behind an entry need not be among them. */
  function Whole<T>(codec: Codec<T>, entries: seq<T>, k: nat): nat {
    if entries == [] || k < |codec.marshal(entries[0])| then 0
    else
      var used := |codec.marshal(entries[0])| + 1;
      1 + (if k < used then 0 else Whole(codec, entries[1..], k - used))
  }

  lemma {:induction false} WholeBound<T>(codec: Codec<T>, entries: seq<T>, k: nat)
    ensures Whole(codec, entries, k) <= |entries|
    ensures k >= |Encoded(codec, entries)| ==> Whole(codec, entries, k) == |entries|
    decreases |entries|
  {
    if entries != [] {
      var used := |codec.marshal(entries[0])| + 1;
      if k >= used { WholeBound(codec, entries[1..], k - used); }
    }
  }

  /** A cut inside the first entry leaves nothing that decodes. */
  lemma {:induction false} PartDecodesNot<T(!new)>(codec: Codec<T>, e: T, k: nat)
    requires Lawful(codec) && k < |codec.marshal(e)|
    ensures Load(codec, codec.marshal(e)[..k]) == []
  {
    assert LawfulFor(codec, e);
    var line := codec.marshal(e);
    var part := line[..k];
    assert forall c :: c in part ==> c in line;
    LoadOnly(codec, part);
    if part != "" {
      assert DropCR(part) == line[..k] || DropCR(part) == line[..k - 1];
    }
  }

  lemma {:induction false} LineDecodes<T(!new)>(codec: Codec<T>, e: T)
    requires Lawful(codec)
    ensures Entry(codec, DropCR(codec.marshal(e))) == [e] && '\n' !in codec.marshal(e)
  {
    assert LawfulFor(codec, e);
    assert DropCR(codec.marshal(e)) == codec.marshal(e);
  }

  lemma {:induction false} TakeFirst<T>(xs: seq<T>, n: nat)
    requires xs != [] && n < |xs|
    ensures xs[..1 + n] == [xs[0]] + xs[1..][..n]
  {
  }

  lemma {:induction false} LoadFirst<T(!new)>(codec: Codec<T>, e: T, f: string, rest: string)
    requires Lawful(codec) && f == codec.marshal(e) + "\n" + rest
    ensures Load(codec, f) == [e] + Load(codec, rest)
  {
    LineDecodes(codec, e);
    LoadLine(codec, f, codec.marshal(e), rest);
  }

  /** One whole line, and a cut among the others. */
  lemma {:induction false} LoadCutLine<T(!new)>(codec: Codec<T>, entries: seq<T>, k: nat)
    requires Lawful(codec) && entries != [] && |codec.marshal(entries[0])| < k <= |Encoded(codec, entries)|
    ensures var k' := k - |codec.marshal(entries[0])| - 1;
      && k' <= |Encoded(codec, entries[1..])|
      && Load(codec, Encoded(codec, entries)[..k]) == [entries[0]] + Load(codec, Encoded(codec, entries[1..])[..k'])
  {
    var line := codec.marshal(entries[0]);
    var rest := Encoded(codec, entries[1..]);
    CutBehind(line, rest, k - |line| - 1);
    LoadFirst(codec, entries[0], Encoded(codec, entries)[..k], rest[..k - |line| - 1]);
  }

  /** A cut within the first line. */
  lemma {:induction false} LoadCutFirst<T(!new)>(codec: Codec<T>, e: T, rest: string, k: nat)
    requires Lawful(codec) && k <= |codec.marshal(e)|
    ensures Load(codec, (codec.marshal(e) + "\n" + rest)[..k]) == if k < |codec.marshal(e)| then [] else [e]
  {
    var line := codec.marshal(e);
    assert (line + "\n" + rest)[..k] == line[..k];
    if k < |line| {
      PartDecodesNot(codec, e, k);
    } else {
      LineDecodes(codec, e);
      assert line[..k] == line;
      LoadOnly(codec, line);
    }
  }

  /** The first k bytes of some lines hold exactly the entries they hold whole. */
  lemma {:induction false} CutLines<T(!new)>(codec: Codec<T>, entries: seq<T>, k: nat)
    requires Lawful(codec) && k <= |Encoded(codec, entries)|
    ensures Whole(codec, entries, k) <= |entries|
    ensures Load(codec, Encoded(codec, entries)[..k]) == entries[..Whole(codec, entries, k)]
    decreases |entries|
  {
    WholeBound(codec, entries, k);
    if entries == [] {
      LoadNothing(codec, Encoded(codec, entries)[..k]);
    } else {
      var rest := Encoded(codec, entries[1..]);
      var used := |codec.marshal(entries[0])| + 1;
      if k < used {
        LoadCutFirst(codec, entries[0], rest, k);
      } else {
        CutLines(codec, entries[1..], k - used);
        LoadCutLine(codec, entries, k);
        TakeFirst(entries, Whole(codec, entries[1..], k - used));
      }
    }
  }

  lemma {:induction false} LoadNothing<T>(codec: Codec<T>, f: string)
    requires |f| == 0
    ensures Load(codec, f) == []
  {
  }

  lemma {:induction false} CutBehind(line: string, rest: string, k: nat)
    requires k <= |rest|
    ensures (line + "\n" + rest)[..|line| + 1 + k] == line + "\n" + rest[..k]
  {
  }

  /** The entries of an append cut after k bytes that a load returns. */
  function Kept<T>(codec: Codec<T>, f: string, entries: seq<T>, k: nat): nat {
    if k < |Separator(f)| then 0 else Whole(codec, entries, k - |Separator(f)|)
  }

  lemma {:induction false} NothingWritten(f: string, block: string)
    ensures f + block[..0] == f
  {
  }

  lemma {:induction false} LoadAfterPart<T(!new)>(codec: Codec<T>, f: string, entries: seq<T>, k: nat)
    requires Lawful(codec) && entries != [] && |Separator(f)| <= k <= |Block(codec, f, entries)|
    ensures Kept(codec, f, entries, k) <= |entries|
    ensures Load(codec, f + Block(codec, f, entries)[..k]) == Load(codec, f) + entries[..Kept(codec, f, entries, k)]
  {
    CutLines(codec, entries, k - |Separator(f)|);
    LoadSeparated(codec, f);
    LoadBehind(codec, f, Separator(f), Encoded(codec, entries), k);
  }

  /** Loading after an append cut anywhere gives the earlier load and then
      exactly the entries written whole. */
  lemma {:induction false} LoadAfterCut<T(!new)>(codec: Codec<T>, f: string, entries: seq<T>, k: nat)
    requires Lawful(codec) && k <= |Block(codec, f, entries)|
    ensures Kept(codec, f, entries, k) <= |entries|
    ensures Load(codec, f + Block(codec, f, entries)[..k]) == Load(codec, f) + entries[..Kept(codec, f, entries, k)]
  {
    if k < |Separator(f)| || entries == [] {
      NothingWritten(f, Block(codec, f, entries));
      NothingKept(Load(codec, f), entries);
    } else {
      LoadAfterPart(codec, f, entries, k);
    }
  }

  lemma {:induction false} NothingKept<T>(loaded: seq<T>, entries: seq<T>)
    ensures loaded + entries[..0] == loaded
  {
  }

  /** A cut that reaches behind what ended the last line. */
  lemma {:induction false} LoadBehind<T>(codec: Codec<T>, f: string, sep: string, lines: string, k: nat)
    requires |sep| <= k <= |sep + lines| && !Unterminated(f + sep) && Load(codec, f + sep) == Load(codec, f)
    ensures Load(codec, f + (sep + lines)[..k]) == Load(codec, f) + Load(codec, lines[..k - |sep|])
  {
    BehindSeparator(f, sep, lines, k);
    LoadAppends(codec, f + sep, lines[..k - |sep|]);
  }

  lemma {:induction false} BehindSeparator(f: string, sep: string, lines: string, k: nat)
    requires |sep| <= k <= |sep + lines|
    ensures f + (sep + lines)[..k] == (f + sep) + lines[..k - |sep|]
  {
    assert (sep + lines)[..k] == sep + lines[..k - |sep|];
  }

  /** For any file contents: a completed append adds exactly its entries. */
  lemma {:induction false} LoadAfterAppend<T(!new)>(codec: Codec<T>, f: string, entries: seq<T>)
    requires Lawful(codec)
    ensures Load(codec, f + Block(codec, f, entries)) == Load(codec, f) + entries
  {
    LoadAfterCut(codec, f, entries, |Block(codec, f, entries)|);
    KeepsAll(codec, f, entries);
    TakesAll(Block(codec, f, entries));
    TakesAll(entries);
  }

  /** A block written whole keeps all its entries. */
  lemma {:induction false} KeepsAll<T>(codec: Codec<T>, f: string, entries: seq<T>)
    ensures Kept(codec, f, entries, |Block(codec, f, entries)|) == |entries|
  {
    if entries == [] {
      WholeBound(codec, entries, 0);
    } else {
      WholeBound(codec, entries, |Block(codec, f, entries)| - |Separator(f)|);
    }
  }

  lemma {:induction false} TakesAll<T>(xs: seq<T>)
    ensures xs[..|xs|] == xs
  {
  }

  function Marshalled<T>(codec: Codec<T>, entries: seq<T>): seq<string> {
    seq(|entries|, i requires 0 <= i < |entries| => codec.marshal(entries[i]))
  }

  lemma {:induction false} EncodedLines<T(!new)>(codec: Codec<T>, entries: seq<T>)
    requires Lawful(codec)
    ensures Lines(Encoded(codec, entries)) == Marshalled(codec, entries) && !Unterminated(Encoded(codec, entries))
  {
    if entries == [] {
      LinesNone(Encoded(codec, entries));
    } else {
      var rest := Encoded(codec, entries[1..]);
      assert LawfulFor(codec, entries[0]);
      EncodedLines(codec, entries[1..]);
      LinesFirst(Encoded(codec, entries), codec.marshal(entries[0]), rest);
      assert Marshalled(codec, entries) == [codec.marshal(entries[0])] + Marshalled(codec, entries[1..]);
      if rest == "" { assert codec.marshal(entries[0]) + "\n" + rest == codec.marshal(entries[0]) + "\n"; }
    }
  }

  /** A completed append adds exactly one line per entry, ended, whatever the
      file ended with before: it joins none to a line cut short and leaves none
      empty. */
  lemma {:induction false} LinesAfterAppend<T(!new)>(codec: Codec<T>, f: string, entries: seq<T>)
    requires Lawful(codec) && entries != []
    ensures Lines(f + Block(codec, f, entries)) == Lines(f) + Marshalled(codec, entries)
    ensures !Unterminated(f + Block(codec, f, entries))
  {
    var lines := Encoded(codec, entries);
    EncodedLines(codec, entries);
    EncodedIsSome(codec, entries);
    LinesBehind(f, Separator(f), lines);
  }

  lemma {:induction false} EncodedIsSome<T>(codec: Codec<T>, entries: seq<T>)
    requires entries != []
    ensures Encoded(codec, entries) != ""
  {
    assert |Encoded(codec, entries)| >= 1;
  }

  lemma {:induction false} LinesBehind(f: string, sep: string, lines: string)
    requires sep == Separator(f) && lines != ""
    ensures Lines(f + (sep + lines)) == Lines(f) + Lines(lines)
    ensures Unterminated(f + (sep + lines)) <==> Unterminated(lines)
  {
    assert f + (sep + lines) == (f + sep) + lines;
    LinesAppend(f + sep, lines);
    if Unterminated(f) { LinesEnded(f); } else { assert f + sep == f; }
  }

  // ------------------------------------------------------------------ crashes

  /** An append, and the number of its bytes that reached the file. */
  datatype Attempt<T> = Attempt(entries: seq<T>, written: nat)

  predicate Completed<T>(codec: Codec<T>, f: string, a: Attempt<T>) {
    a.written >= |Block(codec, f, a.entries)|
  }

  function Written<T>(codec: Codec<T>, f: string, a: Attempt<T>): string {
    var block := Block(codec, f, a.entries);
    f + (if a.written < |block| then block[..a.written] else block)
  }

  function FileAfter<T>(codec: Codec<T>, f: string, attempts: seq<Attempt<T>>): string
    decreases attempts
  {
    if attempts == [] then f else FileAfter(codec, Written(codec, f, attempts[0]), attempts[1..])
  }

  /** What survives: all of a completed append, the whole entries of a cut one. */
  function Survives<T>(codec: Codec<T>, f: string, a: Attempt<T>): seq<T> {
    if Completed(codec, f, a) then a.entries
    else
      var kept := Kept(codec, f, a.entries, a.written);
      if kept <= |a.entries| then a.entries[..kept] else a.entries
  }

  function Surviving<T>(codec: Codec<T>, f: string, attempts: seq<Attempt<T>>): seq<T>
    decreases attempts
  {
    if attempts == [] then []
    else Survives(codec, f, attempts[0]) + Surviving(codec, Written(codec, f, attempts[0]), attempts[1..])
  }

  lemma {:induction false} LoadAfterAttempt<T(!new)>(codec: Codec<T>, f: string, a: Attempt<T>)
    requires Lawful(codec)
    ensures Load(codec, Written(codec, f, a)) == Load(codec, f) + Survives(codec, f, a)
  {
    if Completed(codec, f, a) {
      LoadAfterAppend(codec, f, a.entries);
    } else {
      LoadAfterCut(codec, f, a.entries, a.written);
    }
  }

  /** Through any sequence of appends, each completed or cut at any byte,
      loading returns the earlier entries, then every entry of every completed
      append, in order, with only whole entries of cut ones between. */
  lemma {:induction false} CrashesLoseNothingCompleted<T(!new)>(codec: Codec<T>, f: string, attempts: seq<Attempt<T>>)
    requires Lawful(codec)
    ensures Load(codec, FileAfter(codec, f, attempts)) == Load(codec, f) + Surviving(codec, f, attempts)
    decreases attempts
  {
    if attempts != [] {
      var a := attempts[0];
      LoadAfterAttempt(codec, f, a);
      CrashesLoseNothingCompleted(codec, Written(codec, f, a), attempts[1..]);
      Associates(Load(codec, f), Survives(codec, f, a), Surviving(codec, Written(codec, f, a), attempts[1..]));
    }
  }

  // ----------------------------------------------------------------- the file

  class HistoryFile<T(!new)> {
    const codec: Codec<T>
    var content: Option<string>

    constructor (codec: Codec<T>)
      ensures this.codec == codec && content == None
    {
      this.codec := codec;
      content := None;
    }

    ghost function Contents(): string
      reads this
    {
      if content.Some? then content.value else ""
    }

    method EndsWithoutNewline() returns (yes: bool)
      ensures yes == Unterminated(Contents())
    {
      if content.None? || |content.value| == 0 { return false; }
      yes := content.value[|content.value| - 1] != '\n';
    }

    /** `reaches` of the bytes reach the file before a crash or an error; no
        entries, no file. */
    method AppendHistory(entries: seq<T>, reaches: nat) returns (complete: bool)
      modifies this
      ensures entries == [] ==> content == old(content)
      ensures Contents() == Written(codec, old(Contents()), Attempt(entries, reaches))
      ensures complete <==> Completed(codec, old(Contents()), Attempt(entries, reaches))
    {
      if |entries| == 0 { return true; }
      if content.None? { content := Some(""); }
      var needsLeadingNewline := EndsWithoutNewline();
      var buf := "";
      if needsLeadingNewline { buf := "\n"; }
      assert entries[0..] == entries;
      for i := 0 to |entries|
        invariant buf + Encoded(codec, entries[i..]) == Block(codec, old(Contents()), entries)
      {
        assert entries[i..][0] == entries[i] && entries[i..][1..] == entries[i + 1..];
        var data := codec.marshal(entries[i]);
        ghost var rest := Encoded(codec, entries[i + 1..]);
        assert buf + (data + "\n" + rest) == (buf + data + "\n") + rest;
        buf := buf + data + "\n";
      }
      assert buf + "" == buf;
      complete := reaches >= |buf|;
      content := Some(content.value + (if complete then buf else buf[..reaches]));
    }

    method DecodeLine(line: string) returns (entries: seq<T>)
      ensures entries == Entry(codec, line)
    {
      if line == "" { return []; }
      var entry := codec.unmarshal(line);
      entries := if entry.Some? then [entry.value] else [];
    }

    /** Scans line by line; a missing file has no entries. */
    method LoadHistory() returns (entries: seq<T>)
      ensures entries == Load(codec, Contents())
    {
      entries := [];
      if content.None? { return; }
      var left := content.value;
      while left != ""
        invariant entries + Load(codec, left) == Load(codec, Contents())
        decreases |left|
      {
        var line, rest := NextLine(left);
        var decoded := DecodeLine(line);
        DecodedAppend(codec, [line], Lines(rest));
        DecodedOne(codec, line);
        Associates(entries, decoded, Load(codec, rest));
        entries := entries + decoded;
        left := rest;
      }
    }
  }

  // ---------------------------------------------------------------- a codec

  function BracketMarshal(n: nat): string {
    "{" + Itoa(n) + "}"
  }

  function BracketUnmarshal(s: string): Option<nat> {
    if |s| >= 2 && s[0] == '{' && s[|s| - 1] == '}' then Atou(s[1..|s| - 1]) else None
  }

  const BRACKETS: Codec<nat> := Codec(BracketMarshal, BracketUnmarshal)

  /** The laws can be had: numbers between braces have them. */
  lemma {:induction false} BracketsLawful()
    ensures Lawful(BRACKETS)
  {
    forall n: nat ensures LawfulFor(BRACKETS, n) {
      var s := BracketMarshal(n);
      AtouItoa(n);
      ItoaDigits(n);
      assert s[1..|s| - 1] == Itoa(n);
      forall k | 0 <= k < |s| ensures BracketUnmarshal(s[..k]).None? {
        if k >= 2 { assert s[..k][k - 1] == Itoa(n)[k - 2]; }
      }
    }
  }
}
