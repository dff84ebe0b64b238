/** SSH host blocks, appended by printing and read back. */
module SshConfig {
  // A configuration is read line by line; printing a host gives a block that
  // reading gives back.

  import opened Text
  import opened Scanner

  type Int64 = x: int | -0x8000_0000_0000_0000 <= x < 0x8000_0000_0000_0000

  datatype Host = Host(
    name: string, hostname: string, user: string, identityFile: string, proxyJump: string, proxyCommand: string,
    port: Int64)

  // -------------------------------------------------------------- characters

  /** White space as Unicode has it. */
  predicate IsSpace(c: char) {
    c in {'\t', '\n', '\U{0B}', '\U{0C}', '\r', ' ', '\U{85}', '\U{A0}', '\U{1680}',
          '\U{2028}', '\U{2029}', '\U{202F}', '\U{205F}', '\U{3000}'}
    || '\U{2000}' <= c <= '\U{200A}'
  }

  predicate IsControl(c: char) {
    c < ' ' || '\U{7F}' <= c <= '\U{9F}'
  }

  /** Lower case as far as it can make an ASCII letter: the two characters
      beyond ASCII that have one are the dotted capital I and the kelvin sign. */
  function LowerChar(c: char): char {
    if 'A' <= c <= 'Z' then c - 'A' + 'a' else if c == '\U{130}' then 'i' else if c == '\U{212A}' then 'k' else c
  }

  function Lower(s: string): (r: string)
    ensures |r| == |s|
  {
    seq(|s|, i requires 0 <= i < |s| => LowerChar(s[i]))
  }

  function TrimLeft(s: string): string {
    if s != "" && IsSpace(s[0]) then TrimLeft(s[1..]) else s
  }

  function TrimRight(s: string): string {
    if s != "" && IsSpace(s[|s| - 1]) then TrimRight(s[..|s| - 1]) else s
  }

  function TrimSpace(s: string): string {
    TrimRight(TrimLeft(s))
  }

  predicate Solid(s: string) {
    s != "" && !IsSpace(s[0]) && !IsSpace(s[|s| - 1])
  }

  lemma {:induction false} TrimLeftEnds(s: string)
    ensures TrimLeft(s) != "" ==> !IsSpace(TrimLeft(s)[0])
    ensures |TrimLeft(s)| <= |s| && s[|s| - |TrimLeft(s)|..] == TrimLeft(s)
  {
    if s != "" && IsSpace(s[0]) { TrimLeftEnds(s[1..]); }
  }

  lemma {:induction false} TrimRightEnds(s: string)
    ensures TrimRight(s) != "" ==> !IsSpace(TrimRight(s)[|TrimRight(s)| - 1])
    ensures TrimRight(s) <= s
  {
    if s != "" && IsSpace(s[|s| - 1]) { TrimRightEnds(s[..|s| - 1]); }
  }

  /** Trimming leaves nothing, or text that trimming leaves alone. */
  lemma {:induction false} TrimmedIsSolid(s: string)
    ensures TrimSpace(s) == "" || Solid(TrimSpace(s))
  {
    TrimLeftEnds(s);
    TrimRightEnds(TrimLeft(s));
  }

  lemma {:induction false} SolidIsTrimmed(s: string)
    requires Solid(s)
    ensures TrimLeft(s) == s && TrimRight(s) == s && TrimSpace(s) == s
  {
  }

  lemma {:induction false} TrimRightBehind(a: string, b: string)
    ensures TrimRight(a + b) == if TrimRight(b) == "" then TrimRight(a) else a + TrimRight(b)
  {
    if b == "" {
      assert a + b == a;
    } else {
      var n := |b| - 1;
      assert (a + b)[..|a + b| - 1] == a + b[..n];
      if IsSpace(b[n]) { TrimRightBehind(a, b[..n]); }
    }
  }

  /** Spaces only are spaces from either side. */
  lemma {:induction false} BlankBothWays(s: string)
    ensures TrimRight(s) == "" <==> TrimLeft(s) == ""
    ensures TrimSpace(s) == "" <==> TrimRight(s) == ""
    ensures TrimLeft(TrimRight(s)) == TrimSpace(s)
  {
    if s != "" {
      if IsSpace(s[0]) {
        BlankBothWays(s[1..]);
        assert [s[0]] + s[1..] == s;
        TrimRightBehind([s[0]], s[1..]);
        assert [s[0]][..0] == "";
        if TrimRight(s[1..]) != "" { assert TrimRight(s)[1..] == TrimRight(s[1..]); }
      } else {
        TrimRightEnds(s);
        StartsSolid(s);
      }
    }
  }

  lemma {:induction false} StartsSolid(s: string)
    requires s != "" && !IsSpace(s[0])
    ensures TrimRight(s) != "" && TrimRight(s)[0] == s[0] && TrimLeft(TrimRight(s)) == TrimRight(s)
  {
    if |s| > 1 && IsSpace(s[|s| - 1]) { StartsSolid(s[..|s| - 1]); }
  }

  lemma {:induction false} TrimTwice(s: string)
    ensures TrimSpace(TrimRight(s)) == TrimSpace(s)
  {
    BlankBothWays(s);
    TrimmedIsSolid(s);
    if TrimSpace(s) != "" { SolidIsTrimmed(TrimSpace(s)); }
  }

  // -------------------------------------------------------------- directives

  function FirstSpace(s: string): (n: nat)
    ensures n <= |s|
  {
    if s == "" || s[0] == ' ' then 0 else 1 + FirstSpace(s[1..])
  }

  datatype Directive = Directive(key: string, value: string)

  /** The key up to the first blank and the rest of the line, both trimmed. */
  function ParseDirective(line: string): Option<Directive> {
    if line == "" || line[0] == '#' then None
    else
      var n := FirstSpace(line);
      if n == |line| then None else Some(Directive(Lower(TrimSpace(line[..n])), TrimSpace(line[n + 1..])))
  }

  lemma {:induction false} FirstSpaceAfter(key: string, rest: string)
    requires ' ' !in key
    ensures FirstSpace(key + " " + rest) == |key| && FirstSpace(key) == |key|
  {
    if key != "" {
      assert forall c :: c in key[1..] ==> c in key;
      FirstSpaceAfter(key[1..], rest);
      assert (key + " " + rest)[1..] == key[1..] + " " + rest;
    }
  }

  /** A word as directives have for keys. */
  predicate Word(key: string) {
    Solid(key) && ' ' !in key && key[0] != '#'
  }

  /** A printed directive reads as its key and trimmed value, or as none when
      its value is blank. */
  lemma {:induction false} DirectiveReads(key: string, value: string)
    requires Word(key)
    ensures ParseDirective(TrimSpace(key + " " + value)) ==
      if TrimSpace(value) == "" then None else Some(Directive(Lower(key), TrimSpace(value)))
  {
    var line := key + " " + value;
    assert TrimLeft(line) == line;
    BlankBothWays(value);
    TrimRightBehind(key + " ", value);
    FirstSpaceAfter(key, TrimRight(value));
    SolidIsTrimmed(key);
    if TrimRight(value) == "" {
      TrimRightBehind(key, " ");
      assert " "[..0] == "" && TrimRight(" ") == "";
    } else {
      assert TrimSpace(line) == key + " " + TrimRight(value);
      assert (key + " " + TrimRight(value))[..|key|] == key;
      assert (key + " " + TrimRight(value))[|key| + 1..] == TrimRight(value);
      TrimTwice(value);
    }
  }

  const INDENT := "    "

  lemma {:induction false} BlankIsTrimmed(line: string)
    ensures TrimSpace(" " + line) == TrimSpace(line)
  {
    assert (" " + line)[1..] == line;
  }

  lemma {:induction false} IndentIsTrimmed(line: string)
    ensures TrimSpace(INDENT + line) == TrimSpace(line)
  {
    BlankIsTrimmed(line);
    BlankIsTrimmed(" " + line);
    BlankIsTrimmed(" " + (" " + line));
    BlankIsTrimmed(" " + (" " + (" " + line)));
    assert INDENT + line == " " + (" " + (" " + (" " + line)));
  }

  // ---------------------------------------------------------------- numbers

  /** A decimal number with an optional sign, within 64 bits. */
  function Atoi(s: string): Option<Int64> {
    var digits := if s != "" && (s[0] == '-' || s[0] == '+') then s[1..] else s;
    match Atou(digits)
    case None => None
    case Some(n) =>
      var m: int := n;
      var x := if s[0] == '-' then -m else m;
      if -0x8000_0000_0000_0000 <= x < 0x8000_0000_0000_0000 then Some(x) else None
  }

  function FormatInt(x: int): string {
    if x < 0 then "-" + Itoa(-x) else Itoa(x)
  }

  lemma {:induction false} AtoiFormats(x: Int64)
    ensures Atoi(FormatInt(x)) == Some(x)
  {
    var y: int := x;
    var n: nat := if y < 0 then -y else y;
    AtouItoa(n);
    ItoaDigits(n);
    if x < 0 { assert ("-" + Itoa(n))[1..] == Itoa(n); } else { assert IsDigit(Itoa(n)[0]); }
  }

  lemma {:induction false} FormatIsSolid(x: int)
    ensures Solid(FormatInt(x)) && forall c :: c in FormatInt(x) ==> !IsControl(c)
  {
    var y: int := x;
    var n: nat := if y < 0 then -y else y;
    ItoaDigits(n);
    var s := FormatInt(x);
    forall i | 0 <= i < |s| ensures s[i] == '-' || IsDigit(s[i]) {
      if x < 0 && i > 0 { assert s[i] == Itoa(n)[i - 1]; }
    }
  }

  // ----------------------------------------------------------------- reading

  datatype Parser = Parser(hosts: seq<Host>, current: Option<Host>)

  /** A pattern starts no block. */
  function NewBlock(name: string): Option<Host> {
    if '*' in name || '?' in name then None else Some(Host(name, "", "", "", "", "", 0))
  }

  function Flushed(p: Parser): seq<Host> {
    if p.current.None? then p.hosts
    else
      var h := p.current.value;
      p.hosts + [if h.hostname == "" then h.(hostname := h.name) else h]
  }

  function Applied(h: Host, key: string, value: string): Host {
    if key == "hostname" then h.(hostname := value)
    else if key == "user" then h.(user := value)
    else if key == "port" then (if Atoi(value).Some? then h.(port := Atoi(value).value) else h)
    else if key == "identityfile" then h.(identityFile := value)
    else if key == "proxyjump" then h.(proxyJump := value)
    else if key == "proxycommand" then h.(proxyCommand := value)
    else h
  }

  function Obeyed(p: Parser, d: Option<Directive>): Parser {
    if d.None? then p
    else if d.value.key == "host" then Parser(Flushed(p), NewBlock(d.value.value))
    else if p.current.None? then p
    else p.(current := Some(Applied(p.current.value, d.value.key, d.value.value)))
  }

  function Fed(p: Parser, line: string): Parser {
    Obeyed(p, ParseDirective(TrimSpace(line)))
  }

  function FedAll(p: Parser, lines: seq<string>): Parser
    decreases lines
  {
    if lines == [] then p else FedAll(Fed(p, lines[0]), lines[1..])
  }

  const NEW_PARSER := Parser([], None)

  /** The hosts a file with these contents names. */
  function ParseHosts(f: string): seq<Host> {
    Flushed(FedAll(NEW_PARSER, Lines(f)))
  }

  method ReadHosts(file: Option<string>) returns (hosts: seq<Host>)
    ensures hosts == ParseHosts(if file.Some? then file.value else "")
  {
    hosts := [];
    if file.None? { return; }
    var current: Option<Host> := None;
    var left := file.value;
    while left != ""
      invariant FedAll(Parser(hosts, current), Lines(left)) == FedAll(NEW_PARSER, Lines(file.value))
      decreases |left|
    {
      ghost var before := Parser(hosts, current);
      var line, rest := NextLine(left);
      assert ([line] + Lines(rest))[1..] == Lines(rest);
      left := rest;
      var directive := ParseDirective(TrimSpace(line));
      if directive.None? { continue; }
      var d := directive.value;
      if d.key == "host" {
        hosts := AppendBlock(hosts, current);
        current := NewBlock(d.value);
        continue;
      }
      if current.None? { continue; }
      current := Some(Applied(current.value, d.key, d.value));
    }
    hosts := AppendBlock(hosts, current);
  }

  method AppendBlock(hosts: seq<Host>, host: Option<Host>) returns (all: seq<Host>)
    ensures all == Flushed(Parser(hosts, host))
  {
    if host.None? { return hosts; }
    var h := host.value;
    if h.hostname == "" { h := h.(hostname := h.name); }
    all := hosts + [h];
  }

  lemma {:induction false} TrimDropsCR(line: string)
    ensures TrimSpace(DropCR(line)) == TrimSpace(line)
  {
    BlankBothWays(line);
    BlankBothWays(DropCR(line));
    if line != "" && line[|line| - 1] == '\r' { assert TrimRight(line) == TrimRight(line[..|line| - 1]); }
  }

  /** Blank lines and comments count for nothing, wherever they stand. */
  lemma {:induction false} CommentsCountForNothing(f: string, line: string, g: string)
    requires !Unterminated(f) && '\n' !in line
    requires TrimSpace(line) == "" || TrimSpace(line)[0] == '#'
    ensures ParseHosts(f + (line + "\n" + g)) == ParseHosts(f + g)
  {
    var rest := line + "\n" + g;
    LinesAppend(f, rest);
    LinesAppend(f, g);
    LinesFirst(rest, line, g);
    FedAppend(NEW_PARSER, Lines(f), Lines(rest));
    FedAppend(NEW_PARSER, Lines(f), Lines(g));
    TrimDropsCR(line);
    var p := FedAll(NEW_PARSER, Lines(f));
    assert Fed(p, DropCR(line)) == p;
    assert ([DropCR(line)] + Lines(g))[1..] == Lines(g);
  }

  /** The host after a directive: its own field has the value, a port if it is a
      number, and nothing else changed. */
  predicate Sets(h: Host, h': Host, key: string, value: string) {
    && h'.name == h.name
    && h'.hostname == (if key == "hostname" then value else h.hostname)
    && h'.user == (if key == "user" then value else h.user)
    && h'.identityFile == (if key == "identityfile" then value else h.identityFile)
    && h'.proxyJump == (if key == "proxyjump" then value else h.proxyJump)
    && h'.proxyCommand == (if key == "proxycommand" then value else h.proxyCommand)
    && h'.port == (if key == "port" && Atoi(value).Some? then Atoi(value).value else h.port)
  }

  /** A line of one key and its value, however indented and in whatever case,
      sets exactly that of the host it stands under, over an earlier one; under
      no host, or without a value, it sets nothing. */
  lemma {:induction false} DirectiveSets(p: Parser, indent: string, key: string, value: string)
    requires Word(key) && Lower(key) != "host" && indent in {"", INDENT}
    ensures var p' := Fed(p, indent + (key + " " + value));
      && p'.hosts == p.hosts && p'.current.Some? == p.current.Some?
      && (p.current.Some? ==>
            if TrimSpace(value) == "" then p'.current == p.current
            else Sets(p.current.value, p'.current.value, Lower(key), TrimSpace(value)))
  {
    if indent == "" { assert indent + (key + " " + value) == key + " " + value; }
    LineFed(p, key, value, indent + (key + " " + value));
  }

  // ---------------------------------------------------------------- printing

  predicate ControlFree(s: string) {
    forall c :: c in s ==> !IsControl(c)
  }

  predicate Printable(h: Host) {
    ControlFree(h.name) && ControlFree(h.hostname) && ControlFree(h.user) && ControlFree(h.identityFile)
  }

  /** The block, line by line. */
  function BlockLines(h: Host): seq<string> {
    ["Host " + h.name, INDENT + "HostName " + h.hostname, INDENT + "User " + h.user]
    + (if h.port != 0 then [INDENT + "Port " + FormatInt(h.port)] else [])
    + (if h.identityFile != "" then [INDENT + "IdentityFile " + h.identityFile] else [])
  }

  function Joined(lines: seq<string>): string {
    if lines == [] then "" else lines[0] + "\n" + Joined(lines[1..])
  }

  /** What appending a host writes. */
  function Printed(h: Host): string {
    "\n" + Joined(BlockLines(h))
  }

  method HasControl(s: string) returns (yes: bool)
    ensures yes <==> !ControlFree(s)
  {
    yes := false;
    for i := 0 to |s|
      invariant !yes && forall j :: 0 <= j < i ==> !IsControl(s[j])
    {
      if IsControl(s[i]) {
        assert s[i] in s;
        return true;
      }
    }
  }

  method CheckHostValues(h: Host) returns (ok: bool)
    ensures ok <==> Printable(h)
  {
    var values := [h.name, h.hostname, h.user, h.identityFile];
    for i := 0 to |values|
      invariant forall j :: 0 <= j < i ==> ControlFree(values[j])
    {
      var control := HasControl(values[i]);
      if control { return false; }
    }
    assert ControlFree(values[0]) && ControlFree(values[1]) && ControlFree(values[2]) && ControlFree(values[3]);
    ok := true;
  }

  lemma {:induction false} JoinedSnoc(lines: seq<string>, line: string)
    ensures Joined(lines + [line]) == Joined(lines) + (line + "\n")
  {
    var all := lines + [line];
    if lines == [] {
      assert all[1..] == [];
    } else {
      assert all[1..] == lines[1..] + [line];
      JoinedSnoc(lines[1..], line);
      Associates(lines[0] + "\n", Joined(lines[1..]), line + "\n");
    }
  }

  method WriteLine(sb: string, ghost lines: seq<string>, line: string) returns (sb': string)
    requires sb == "\n" + Joined(lines)
    ensures sb' == "\n" + Joined(lines + [line])
  {
    JoinedSnoc(lines, line);
    Associates("\n", Joined(lines), line + "\n");
    sb' := sb + (line + "\n");
  }

  method PrintBlock(h: Host) returns (sb: string)
    ensures sb == Printed(h)
  {
    ghost var lines: seq<string> := [];
    sb := "\n";
    sb := WriteLine(sb, [], "Host " + h.name);
    lines := [] + ["Host " + h.name];
    sb := WriteLine(sb, lines, INDENT + "HostName " + h.hostname);
    lines := lines + [INDENT + "HostName " + h.hostname];
    sb := WriteLine(sb, lines, INDENT + "User " + h.user);
    lines := lines + [INDENT + "User " + h.user];
    if h.port != 0 {
      sb := WriteLine(sb, lines, INDENT + "Port " + FormatInt(h.port));
      lines := lines + [INDENT + "Port " + FormatInt(h.port)];
    }
    if h.identityFile != "" {
      sb := WriteLine(sb, lines, INDENT + "IdentityFile " + h.identityFile);
      lines := lines + [INDENT + "IdentityFile " + h.identityFile];
    }
    assert lines == BlockLines(h);
  }

  /** A host with control characters is refused and the file left alone. */
  method AppendHost(file: Option<string>, h: Host) returns (ok: bool, file': Option<string>)
    ensures ok <==> Printable(h)
    ensures file' == if ok then Some((if file.Some? then file.value else "") + Printed(h)) else file
  {
    ok := CheckHostValues(h);
    if !ok { return false, file; }
    var sb := PrintBlock(h);
    file' := Some((if file.Some? then file.value else "") + sb);
  }

  // -------------------------------------------------------------- round trip

  predicate PlainLine(line: string) {
    '\n' !in line && (line == "" || line[|line| - 1] != '\r')
  }

  lemma {:induction false} LinesJoined(lines: seq<string>)
    requires forall i :: 0 <= i < |lines| ==> PlainLine(lines[i])
    ensures Lines(Joined(lines)) == lines
  {
    if lines != [] {
      LinesJoined(lines[1..]);
      LinesFirst(Joined(lines), lines[0], Joined(lines[1..]));
    }
  }

  lemma {:induction false} FedAppend(p: Parser, xs: seq<string>, ys: seq<string>)
    ensures FedAll(p, xs + ys) == FedAll(FedAll(p, xs), ys)
    decreases xs
  {
    if xs == [] {
      assert xs + ys == ys;
    } else {
      assert (xs + ys)[1..] == xs[1..] + ys;
      FedAppend(Fed(p, xs[0]), xs[1..], ys);
    }
  }

  lemma {:induction false} BehindOpenLine(f: string, body: string)
    requires Unterminated(f)
    ensures Lines(f + ("\n" + body)) == Lines(f) + Lines(body)
  {
    Associates(f, "\n", body);
    LinesEnded(f);
    LinesAppend(f + "\n", body);
  }

  lemma {:induction false} BehindWholeLines(f: string, body: string)
    requires !Unterminated(f)
    ensures Lines(f + ("\n" + body)) == Lines(f) + ([""] + Lines(body))
  {
    LinesAppend(f, "\n" + body);
    Associates("", "\n", body);
    assert "" + ("\n" + body) == "\n" + body;
    LinesFirst("\n" + body, "", body);
  }

  lemma {:induction false} EmptyLineIsSkipped(p: Parser, lines: seq<string>)
    ensures FedAll(p, [""] + lines) == FedAll(p, lines)
  {
    assert ([""] + lines)[0] == "" && ([""] + lines)[1..] == lines;
    assert TrimSpace("") == "";
  }

  /** The printed block ends the file's last line, or adds an empty one, and
      is then read from the parser's state after the file. */
  lemma {:induction false} BlockIsRead(f: string, h: Host)
    requires Printable(h)
    ensures FedAll(NEW_PARSER, Lines(f + Printed(h))) == FedAll(FedAll(NEW_PARSER, Lines(f)), BlockLines(h))
  {
    var lines := BlockLines(h);
    BlockIsPlain(h);
    LinesJoined(lines);
    if Unterminated(f) {
      BehindOpenLine(f, Joined(lines));
      FedAppend(NEW_PARSER, Lines(f), lines);
    } else {
      BehindWholeLines(f, Joined(lines));
      FedAppend(NEW_PARSER, Lines(f), [""] + lines);
      EmptyLineIsSkipped(FedAll(NEW_PARSER, Lines(f)), lines);
    }
  }

  lemma {:induction false} PlainWith(prefix: string, value: string)
    requires ControlFree(value) && PlainLine(prefix)
    ensures PlainLine(prefix + value)
  {
    if value != "" { assert value[|value| - 1] in value; }
  }

  lemma {:induction false} BlockIsPlain(h: Host)
    requires Printable(h)
    ensures forall i :: 0 <= i < |BlockLines(h)| ==> PlainLine(BlockLines(h)[i])
  {
    PlainWith("Host ", h.name);
    PlainWith(INDENT + "HostName ", h.hostname);
    PlainWith(INDENT + "User ", h.user);
    FormatIsSolid(h.port);
    PlainWith(INDENT + "Port ", FormatInt(h.port));
    PlainWith(INDENT + "IdentityFile ", h.identityFile);
  }

  /** The directive a printed line reads as. */
  function Reads(key: string, value: string): Option<Directive> {
    if TrimSpace(value) == "" then None else Some(Directive(key, TrimSpace(value)))
  }

  lemma {:induction false} LineFed(p: Parser, key: string, value: string, line: string)
    requires Word(key) && (line == INDENT + (key + " " + value) || line == key + " " + value)
    ensures Fed(p, line) == Obeyed(p, Reads(Lower(key), value))
  {
    IndentIsTrimmed(key + " " + value);
    DirectiveReads(key, value);
  }

  lemma {:induction false} KeysAreLower()
    ensures Lower("Host") == "host" && Lower("HostName") == "hostname" && Lower("User") == "user"
    ensures Lower("Port") == "port" && Lower("IdentityFile") == "identityfile"
  {
  }

  lemma {:induction false} FedOne(p: Parser, line: string)
    ensures FedAll(p, [line]) == Fed(p, line)
  {
    assert [line][1..] == [];
  }

  lemma {:induction false} FedTwo(p: Parser, a: string, b: string)
    ensures FedAll(p, [a, b]) == Fed(Fed(p, a), b)
  {
    assert [a, b][1..] == [b];
    FedOne(Fed(p, a), b);
  }

  function PortLines(h: Host): seq<string> {
    if h.port != 0 then [INDENT + "Port " + FormatInt(h.port)] else []
  }

  function IdentityLines(h: Host): seq<string> {
    if h.identityFile != "" then [INDENT + "IdentityFile " + h.identityFile] else []
  }

  /** The block's lines, one after the other. */
  lemma {:induction false} BlockFed(p: Parser, h: Host)
    ensures var p1 := Obeyed(p, Reads("host", h.name));
            var p2 := Obeyed(p1, Reads("hostname", h.hostname));
            var p3 := Obeyed(p2, Reads("user", h.user));
            FedAll(p, BlockLines(h)) == FedAll(FedAll(p3, PortLines(h)), IdentityLines(h))
  {
    KeysAreLower();
    var name := "Host " + h.name;
    var hostname := INDENT + "HostName " + h.hostname;
    var user := INDENT + "User " + h.user;
    assert name == "Host" + " " + h.name;
    assert hostname == INDENT + ("HostName" + " " + h.hostname);
    assert user == INDENT + ("User" + " " + h.user);
    LineFed(p, "Host", h.name, name);
    var p1 := Fed(p, name);
    LineFed(p1, "HostName", h.hostname, hostname);
    LineFed(Fed(p1, hostname), "User", h.user, user);
    BlockParts(p, h, name, hostname, user);
  }

  lemma {:induction false} BlockParts(p: Parser, h: Host, name: string, hostname: string, user: string)
    requires name == "Host " + h.name && hostname == INDENT + "HostName " + h.hostname
    requires user == INDENT + "User " + h.user
    ensures FedAll(p, BlockLines(h)) ==
      FedAll(FedAll(Fed(Fed(Fed(p, name), hostname), user), PortLines(h)), IdentityLines(h))
  {
    assert BlockLines(h) == [name, hostname, user] + PortLines(h) + IdentityLines(h);
    FedAppend(p, [name, hostname, user] + PortLines(h), IdentityLines(h));
    FedAppend(p, [name, hostname, user], PortLines(h));
    assert [name, hostname, user][1..] == [hostname, user];
    FedTwo(Fed(p, name), hostname, user);
  }

  lemma {:induction false} PortFed(p: Parser, h: Host)
    ensures FedAll(p, PortLines(h)) ==
      if h.port == 0 || p.current.None? then p else p.(current := Some(p.current.value.(port := h.port)))
  {
    if h.port != 0 {
      KeysAreLower();
      var line := INDENT + "Port " + FormatInt(h.port);
      assert line == INDENT + ("Port" + " " + FormatInt(h.port));
      LineFed(p, "Port", FormatInt(h.port), line);
      FormatIsSolid(h.port);
      SolidIsTrimmed(FormatInt(h.port));
      AtoiFormats(h.port);
      FedOne(p, line);
    }
  }

  lemma {:induction false} IdentityFed(p: Parser, h: Host)
    ensures FedAll(p, IdentityLines(h)) == Obeyed(p, Reads("identityfile", h.identityFile))
  {
    if h.identityFile != "" {
      KeysAreLower();
      var line := INDENT + "IdentityFile " + h.identityFile;
      assert line == INDENT + ("IdentityFile" + " " + h.identityFile);
      LineFed(p, "IdentityFile", h.identityFile, line);
      FedOne(p, line);
    }
  }

  /** The host the block comes back as, unless its name is blank or a pattern. */
  function ReadBack(h: Host): Host {
    var name := TrimSpace(h.name);
    Host(name, if TrimSpace(h.hostname) == "" then name else TrimSpace(h.hostname), TrimSpace(h.user),
         TrimSpace(h.identityFile), "", "", h.port)
  }

  predicate Blank(s: string) {
    TrimSpace(s) == ""
  }

  /** A trimmed pattern is one. */
  predicate Pattern(s: string) {
    '*' in TrimSpace(s) || '?' in TrimSpace(s)
  }

  /** A block with a blank name changes at most the host before it. */
  lemma {:induction false} NamelessBlock(p: Parser, h: Host)
    requires Blank(h.name)
    ensures |Flushed(FedAll(p, BlockLines(h)))| == |Flushed(p)|
  {
    BlockFed(p, h);
    var p2 := Obeyed(p, Reads("hostname", h.hostname));
    var p3 := Obeyed(p2, Reads("user", h.user));
    PortFed(p3, h);
    IdentityFed(FedAll(p3, PortLines(h)), h);
  }

  lemma {:induction false} PatternBlock(p: Parser, h: Host)
    requires !Blank(h.name) && Pattern(h.name)
    ensures Flushed(FedAll(p, BlockLines(h))) == Flushed(p)
  {
    BlockFed(p, h);
    var p1 := Parser(Flushed(p), None);
    PortFed(p1, h);
    IdentityFed(p1, h);
  }

  lemma {:induction false} HostBlock(p: Parser, h: Host)
    requires !Blank(h.name) && !Pattern(h.name)
    ensures Flushed(FedAll(p, BlockLines(h))) == Flushed(p) + [ReadBack(h)]
  {
    BlockFed(p, h);
    var name := TrimSpace(h.name);
    var p1 := Parser(Flushed(p), Some(Host(name, "", "", "", "", "", 0)));
    assert Obeyed(p, Reads("host", h.name)) == p1;
    var p2 := Obeyed(p1, Reads("hostname", h.hostname));
    assert p2 == Parser(Flushed(p), Some(Host(name, TrimSpace(h.hostname), "", "", "", "", 0)));
    var p3 := Obeyed(p2, Reads("user", h.user));
    assert p3 == Parser(Flushed(p), Some(Host(name, TrimSpace(h.hostname), TrimSpace(h.user), "", "", "", 0)));
    PortFed(p3, h);
    var p4 := FedAll(p3, PortLines(h));
    assert p4 == Parser(Flushed(p), Some(Host(name, TrimSpace(h.hostname), TrimSpace(h.user), "", "", "", h.port)));
    IdentityFed(p4, h);
  }

  /** A host whose block reads back as itself. */
  predicate Faithful(h: Host) {
    && Solid(h.name) && '*' !in h.name && '?' !in h.name
    && Solid(h.hostname)
    && (h.user == "" || Solid(h.user)) && (h.identityFile == "" || Solid(h.identityFile))
    && h.proxyJump == "" && h.proxyCommand == ""
  }

  lemma {:induction false} TrimsToItself(s: string)
    ensures TrimSpace(s) == s <==> s == "" || Solid(s)
  {
    TrimmedIsSolid(s);
    if Solid(s) { SolidIsTrimmed(s); }
  }

  lemma {:induction false} FaithfulReadsBack(h: Host)
    ensures Faithful(h) <==> !Blank(h.name) && !Pattern(h.name) && ReadBack(h) == h
  {
    TrimsToItself(h.name);
    TrimsToItself(h.hostname);
    TrimsToItself(h.user);
    TrimsToItself(h.identityFile);
    TrimmedIsSolid(h.hostname);
  }

  /** For any existing file and any host the writer accepts: reading the file
      with the block appended gives the earlier hosts followed by exactly that
      host, port and identity file included, if and only if its name and
      hostname are trimmed and not empty, the name is no pattern, its other
      values are trimmed, and it has no proxy. */
  lemma {:induction false} AppendedHostReadsBack(f: string, h: Host)
    requires Printable(h)
    ensures ParseHosts(f + Printed(h)) == ParseHosts(f) + [h] <==> Faithful(h)
  {
    var p := FedAll(NEW_PARSER, Lines(f));
    BlockIsRead(f, h);
    FaithfulReadsBack(h);
    if Blank(h.name) {
      NamelessBlock(p, h);
    } else if Pattern(h.name) {
      PatternBlock(p, h);
    } else {
      HostBlock(p, h);
      assert (ParseHosts(f) + [h])[|ParseHosts(f)|] == h;
      assert (ParseHosts(f) + [ReadBack(h)])[|ParseHosts(f)|] == ReadBack(h);
    }
  }
}
