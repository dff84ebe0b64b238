/** Remote files found through symbolic links. */
module RemotePath {
  // For a preview, paths are resolved through the links in them, one
  // component at a time, then held inside a root.

  import opened Paths

  /** What the host says of a path; a path it does not know does not exist. */
  datatype Node = File(size: nat) | Directory | Special | Link(target: string) | Denied

  type FileSystem = map<string, Node>

  datatype Error = Missing | Forbidden | TooManyLinks

  datatype Result<T> = Ok(value: T) | Err(error: Error)

  const MAX_LINKS: nat := 40
  const MAX_BYTES: nat := 10485760

  // ---------------------------------------------------- symbolic resolution

  function Up(at: seq<string>): seq<string> {
    if at == [] then [] else at[..|at| - 1]
  }

  /** The work list: what is left of the path, below the components so far. */
  function Resolve(fs: FileSystem, at: seq<string>, pending: seq<string>, links: nat): Result<seq<string>>
    requires links <= MAX_LINKS
    decreases MAX_LINKS - links, |pending|
  {
    if pending == [] then Ok(at)
    else
      var c := pending[0];
      var rest := pending[1..];
      if c == "" || c == "." then Resolve(fs, at, rest, links)
      else if c == ".." then Resolve(fs, Up(at), rest, links)
      else
        var next := Render(at + [c]);
        if next !in fs then Err(Missing)
        else match fs[next]
          case Denied => Err(Forbidden)
          case Link(target) =>
            if links == MAX_LINKS then Err(TooManyLinks)
            else Resolve(fs, if IsAbs(target) then [] else at, Split(target) + rest, links + 1)
          case _ => Resolve(fs, at + [c], rest, links)
  }

  function RealPath(fs: FileSystem, name: string): Result<seq<string>> {
    Resolve(fs, [], Split(name), 0)
  }

  /** Where a walk got to, and the links it followed. */
  datatype Walked = Walked(at: seq<string>, links: nat) | Failed(error: Error)

  /** Resolution as the standard describes it: a link is resolved as a path of
      its own, then the rest of the path from where it led. */
  function Walk(fs: FileSystem, at: seq<string>, parts: seq<string>, links: nat): (r: Walked)
    requires links <= MAX_LINKS
    ensures r.Walked? ==> links <= r.links <= MAX_LINKS
    decreases MAX_LINKS - links, |parts|
  {
    if parts == [] then Walked(at, links)
    else
      var c := parts[0];
      var rest := parts[1..];
      if c == "" || c == "." then Walk(fs, at, rest, links)
      else if c == ".." then Walk(fs, Up(at), rest, links)
      else
        var next := Render(at + [c]);
        if next !in fs then Failed(Missing)
        else match fs[next]
          case Denied => Failed(Forbidden)
          case Link(target) =>
            if links == MAX_LINKS then Failed(TooManyLinks)
            else
              var through := Walk(fs, if IsAbs(target) then [] else at, Split(target), links + 1);
              if through.Failed? then through else Walk(fs, through.at, rest, through.links)
          case _ => Walk(fs, at + [c], rest, links)
  }

  /** Splicing a link's target in front of the rest is resolving it first. */
  lemma {:induction false} WorkListIsNested(fs: FileSystem, at: seq<string>, parts: seq<string>, rest: seq<string>,
      links: nat)
    requires links <= MAX_LINKS
    ensures Resolve(fs, at, parts + rest, links) ==
      match Walk(fs, at, parts, links)
      case Failed(e) => Err(e)
      case Walked(at', links') => Resolve(fs, at', rest, links')
    decreases MAX_LINKS - links, |parts|
  {
    if parts == [] {
      assert parts + rest == rest;
    } else {
      var c := parts[0];
      assert (parts + rest)[0] == c && (parts + rest)[1..] == parts[1..] + rest;
      var next := Render(at + [c]);
      if c == "" || c == "." {
        WorkListIsNested(fs, at, parts[1..], rest, links);
      } else if c == ".." {
        WorkListIsNested(fs, Up(at), parts[1..], rest, links);
      } else if next in fs && fs[next].Link? {
        if links < MAX_LINKS {
          var target := fs[next].target;
          var base := if IsAbs(target) then [] else at;
          WorkListIsNested(fs, base, Split(target), parts[1..] + rest, links + 1);
          var through := Walk(fs, base, Split(target), links + 1);
          if through.Walked? { WorkListIsNested(fs, through.at, parts[1..], rest, through.links); }
        }
      } else if next in fs && !fs[next].Denied? {
        WorkListIsNested(fs, at + [c], parts[1..], rest, links);
      }
    }
  }

  /** The real path is the standard's nested resolution from the root, and it
      fails on the same component with the same error. */
  lemma {:induction false} RealPathIsNested(fs: FileSystem, name: string)
    ensures RealPath(fs, name) ==
      match Walk(fs, [], Split(name), 0)
      case Failed(e) => Err(e)
      case Walked(at, _) => Ok(at)
  {
    WorkListIsNested(fs, [], Split(name), [], 0);
    assert Split(name) + [] == Split(name);
  }

  predicate Exists(fs: FileSystem, at: seq<string>) {
    Render(at) in fs && !fs[Render(at)].Link? && !fs[Render(at)].Denied?
  }

  /** Every prefix exists and is not a link. */
  ghost predicate Physical(fs: FileSystem, at: seq<string>) {
    AllPlain(at) && forall n :: 0 < n <= |at| ==> Exists(fs, at[..n])
  }

  predicate NoSlashes(parts: seq<string>) {
    forall i :: 0 <= i < |parts| ==> NoSlash(parts[i])
  }

  lemma {:induction false} Deeper(fs: FileSystem, at: seq<string>, c: string)
    requires Physical(fs, at) && Plain(c) && Exists(fs, at + [c])
    ensures Physical(fs, at + [c])
  {
    forall n | 0 < n <= |at + [c]| ensures Exists(fs, (at + [c])[..n]) {
      if n <= |at| { assert (at + [c])[..n] == at[..n]; } else { assert (at + [c])[..n] == at + [c]; }
    }
  }

  lemma {:induction false} Shallower(fs: FileSystem, at: seq<string>)
    requires Physical(fs, at)
    ensures Physical(fs, Up(at))
  {
    forall n | 0 < n <= |Up(at)| ensures Exists(fs, Up(at)[..n]) { assert Up(at)[..n] == at[..n]; }
  }

  lemma {:induction false} ResolvesPhysically(fs: FileSystem, at: seq<string>, pending: seq<string>, links: nat)
    requires links <= MAX_LINKS && Physical(fs, at) && NoSlashes(pending)
    ensures Resolve(fs, at, pending, links).Ok? ==> Physical(fs, Resolve(fs, at, pending, links).value)
    decreases MAX_LINKS - links, |pending|
  {
    if pending != [] {
      var c := pending[0];
      var next := Render(at + [c]);
      if c == "" || c == "." {
        ResolvesPhysically(fs, at, pending[1..], links);
      } else if c == ".." {
        Shallower(fs, at);
        ResolvesPhysically(fs, Up(at), pending[1..], links);
      } else if next in fs && fs[next].Link? {
        if links < MAX_LINKS {
          var target := fs[next].target;
          SplitParts(target);
          ResolvesPhysically(fs, if IsAbs(target) then [] else at, Split(target) + pending[1..], links + 1);
        }
      } else if next in fs && !fs[next].Denied? {
        Deeper(fs, at, c);
        ResolvesPhysically(fs, at + [c], pending[1..], links);
      }
    }
  }

  lemma {:induction false} PhysicalResolvesToItself(fs: FileSystem, at: seq<string>, more: seq<string>, links: nat)
    requires links <= MAX_LINKS && Physical(fs, at + more)
    ensures Resolve(fs, at, more, links) == Ok(at + more)
    decreases more
  {
    if more == [] {
      assert at + more == at;
    } else {
      var n := |at| + 1;
      assert (at + more)[..n] == at + [more[0]];
      assert Exists(fs, (at + more)[..n]) && Plain((at + more)[|at|]);
      assert (at + [more[0]]) + more[1..] == at + more;
      PhysicalResolvesToItself(fs, at + [more[0]], more[1..], links);
    }
  }

  lemma {:induction false} RealPathOfPhysical(fs: FileSystem, at: seq<string>)
    requires Physical(fs, at)
    ensures RealPath(fs, Render(at)) == Ok(at)
  {
    if at == [] {
      SplitJoined("", "");
      assert "" + "/" + "" == "/" && Split("/") == ["", ""];
      assert ["", ""][1..] == [""] && [""][1..] == [];
    } else {
      SplitSlashed(at);
      assert ([""] + at)[1..] == at;
      assert [] + at == at;
      PhysicalResolvesToItself(fs, [], at, 0);
    }
  }

  /** A real path names no link: every prefix of it exists and is none, and
      resolving it again changes nothing. */
  lemma {:induction false} RealPathIsReal(fs: FileSystem, name: string)
    requires RealPath(fs, name).Ok?
    ensures Physical(fs, RealPath(fs, name).value)
    ensures RealPath(fs, Render(RealPath(fs, name).value)) == RealPath(fs, name)
  {
    SplitParts(name);
    ResolvesPhysically(fs, [], Split(name), 0);
    RealPathOfPhysical(fs, RealPath(fs, name).value);
  }

  // ----------------------------------------------------- what links mean

  lemma {:induction false} ResolvesLexically(fs: FileSystem, at: seq<string>, pending: seq<string>, links: nat)
    requires links <= MAX_LINKS && (forall p :: p in fs ==> !fs[p].Link?) && AllPlain(at) && NoSlashes(pending)
    requires Resolve(fs, at, pending, links).Ok?
    ensures Resolve(fs, at, pending, links).value == PushAll(at, pending, true)
    decreases |pending|
  {
    if pending != [] {
      var c := pending[0];
      if c == "" || c == "." {
        ResolvesLexically(fs, at, pending[1..], links);
      } else if c == ".." {
        ResolvesLexically(fs, Up(at), pending[1..], links);
      } else {
        ResolvesLexically(fs, at + [c], pending[1..], links);
      }
    }
  }

  /** On a host without links a real path is the cleaned path. */
  lemma {:induction false} WithoutLinksItIsClean(fs: FileSystem, name: string)
    requires (forall p :: p in fs ==> !fs[p].Link?) && IsAbs(name) && RealPath(fs, name).Ok?
    ensures Render(RealPath(fs, name).value) == Clean(name)
  {
    SplitParts(name);
    ResolvesLexically(fs, [], Split(name), 0);
    CleanAbsolute(name);
  }

  lemma {:induction false} ResolvesThrough(fs: FileSystem, at: seq<string>, more: seq<string>, rest: seq<string>,
      links: nat)
    requires links <= MAX_LINKS && Physical(fs, at + more)
    ensures Resolve(fs, at, more + rest, links) == Resolve(fs, at + more, rest, links)
    decreases more
  {
    if more == [] {
      assert at + more == at && more + rest == rest;
    } else {
      var n := |at| + 1;
      assert (at + more)[..n] == at + [more[0]];
      assert Exists(fs, (at + more)[..n]) && Plain((at + more)[|at|]);
      assert (at + [more[0]]) + more[1..] == at + more;
      assert (more + rest)[1..] == more[1..] + rest;
      ResolvesThrough(fs, at + [more[0]], more[1..], rest, links);
    }
  }

  lemma {:induction false} SkipsEmpty(fs: FileSystem, at: seq<string>, rest: seq<string>, links: nat)
    requires links <= MAX_LINKS
    ensures Resolve(fs, at, [""] + rest, links) == Resolve(fs, at, rest, links)
  {
    assert ([""] + rest)[1..] == rest;
  }

  lemma {:induction false} BelowRoot(rest: string)
    ensures Split(Render([]) + "/" + rest) == [""] + ([""] + Split(rest))
  {
    assert Render([]) + "/" + rest == ['/'] + (['/'] + rest);
    SplitCons('/', ['/'] + rest);
    SplitCons('/', rest);
  }

  lemma {:induction false} BelowDirectory(at: seq<string>, rest: string)
    requires AllPlain(at) && at != []
    ensures Split(Render(at) + "/" + rest) == [""] + (at + Split(rest))
  {
    SplitJoined(Render(at), rest);
    SplitSlashed(at);
    assert ([""] + at) + Split(rest) == [""] + (at + Split(rest));
  }

  lemma {:induction false} ResolvesInto(fs: FileSystem, root: seq<string>, at: seq<string>, parts: seq<string>,
      links: nat)
    requires links <= MAX_LINKS && Physical(fs, at) && root == []
    ensures Resolve(fs, root, [""] + (at + parts), links) == Resolve(fs, at, parts, links)
  {
    SkipsEmpty(fs, root, at + parts, links);
    assert root + at == at;
    ResolvesThrough(fs, root, at, parts, links);
  }

  /** Below a physical directory a path is resolved from that directory. */
  lemma {:induction false} ResolvesBelow(fs: FileSystem, at: seq<string>, rest: string, links: nat)
    requires links <= MAX_LINKS && Physical(fs, at)
    ensures Resolve(fs, [], Split(Render(at) + "/" + rest), links) == Resolve(fs, at, Split(rest), links)
  {
    if at == [] {
      BelowRoot(rest);
      SkipsEmpty(fs, at, [""] + Split(rest), links);
      SkipsEmpty(fs, at, Split(rest), links);
    } else {
      BelowDirectory(at, rest);
      ResolvesInto(fs, [], at, Split(rest), links);
    }
  }

  /** The path with a link replaced by its target, in the link's directory. */
  function Replaced(at: seq<string>, target: string): string {
    if IsAbs(target) then target else Render(at) + "/" + target
  }

  lemma {:induction false} ResolvesReplaced(fs: FileSystem, at: seq<string>, target: string, rest: string, links: nat)
    requires links <= MAX_LINKS && Physical(fs, at)
    ensures Resolve(fs, [], Split(Replaced(at, target) + "/" + rest), links)
         == Resolve(fs, if IsAbs(target) then [] else at, Split(target) + Split(rest), links)
  {
    SplitJoined(target, rest);
    if !IsAbs(target) {
      assert Render(at) + "/" + target + "/" + rest == Render(at) + "/" + (target + "/" + rest);
      ResolvesBelow(fs, at, target + "/" + rest, links);
    }
  }

  /** A link means its target: the path with the link replaced by it, from the
      root if it is absolute and else in the link's directory, is resolved
      alike, one link fewer to go. */
  lemma {:induction false} LinkMeansItsTarget(fs: FileSystem, at: seq<string>, c: string, rest: string, links: nat)
    requires links < MAX_LINKS && Physical(fs, at) && Plain(c)
    requires Render(at + [c]) in fs && fs[Render(at + [c])].Link?
    ensures Resolve(fs, [], Split(Render(at) + "/" + (c + "/" + rest)), links)
         == Resolve(fs, [], Split(Replaced(at, fs[Render(at + [c])].target) + "/" + rest), links + 1)
  {
    ResolvesBelow(fs, at, c + "/" + rest, links);
    SplitJoined(c, rest);
    SplitOne(c);
    assert ([c] + Split(rest))[1..] == Split(rest);
    ResolvesReplaced(fs, at, fs[Render(at + [c])].target, rest, links + 1);
  }

  // -------------------------------------------------------------- the loop

  function Rendered(r: Result<seq<string>>): Result<string> {
    match r
    case Ok(at) => Ok(Render(at))
    case Err(e) => Err(e)
  }

  lemma {:induction false} NoSlashesIn(target: string, rest: seq<string>)
    requires NoSlashes(rest)
    ensures NoSlashes(Split(target) + rest)
  {
    SplitParts(target);
  }

  lemma {:induction false} PlainNext(at: seq<string>, pending: seq<string>)
    requires AllPlain(at) && NoSlashes(pending) && pending != []
    ensures NoSlashes(pending[1..]) && AllPlain(Up(at))
    ensures pending[0] !in {"", ".", ".."} ==> Plain(pending[0]) && AllPlain(at + [pending[0]])
  {
  }

  method Below(resolved: string, component: string, ghost at: seq<string>) returns (next: string)
    requires AllPlain(at) && Plain(component) && resolved == Render(at)
    ensures next == Render(at + [component])
  {
    JoinOne(at, component);
    next := Join(resolved, component);
  }

  method Above(resolved: string, ghost at: seq<string>) returns (next: string)
    requires AllPlain(at) && resolved == Render(at)
    ensures next == Render(Up(at))
  {
    DirRendered(at);
    next := Dir(resolved);
  }

  /** The loop over the pending components, on strings. */
  method FindRealPath(fs: FileSystem, name: string) returns (r: Result<string>)
    ensures r == Rendered(RealPath(fs, name))
  {
    var resolved := "/";
    var pending := Split(name);
    var links := 0;
    ghost var at: seq<string> := [];
    SplitParts(name);
    while pending != []
      invariant resolved == Render(at) && AllPlain(at) && NoSlashes(pending) && links <= MAX_LINKS
      invariant Resolve(fs, at, pending, links) == RealPath(fs, name)
      decreases MAX_LINKS - links, |pending|
    {
      PlainNext(at, pending);
      var component := pending[0];
      pending := pending[1..];
      if component == "" || component == "." { continue; }
      if component == ".." {
        resolved := Above(resolved, at);
        at := Up(at);
        continue;
      }
      var next := Below(resolved, component, at);
      if next !in fs { return Err(Missing); }
      var info := fs[next];
      if info.Denied? { return Err(Forbidden); }
      if !info.Link? {
        resolved := next;
        at := at + [component];
        continue;
      }
      links := links + 1;
      if links > MAX_LINKS { return Err(TooManyLinks); }
      var target := info.target;
      NoSlashesIn(target, pending);
      if IsAbs(target) {
        resolved := "/";
        at := [];
      }
      pending := Split(target) + pending;
    }
    return Ok(resolved);
  }

  // ------------------------------------------------------------ containment

  predicate Within(dir: string, file: string) {
    if dir == "/" then file != "/" && "/" <= file else dir + "/" <= file
  }

  /** On absolute paths the prefix test means strict containment, component by
      component: "/ab" does not hold "/abc". */
  lemma {:induction false} WithinIsContainment(dir: seq<string>, file: seq<string>)
    requires AllPlain(dir) && AllPlain(file)
    ensures Within(Render(dir), Render(file)) <==> dir < file
  {
    RenderIsAbs(file);
    if dir == [] {
      RenderedParts(file);
      if file != [] && Render(file) == "/" { RenderInjective(file, []); }
    } else {
      if Render(dir) == "/" { RenderInjective(dir, []); }
      if dir < file {
        var below := file[|dir|..];
        assert file == dir + below;
        SlashedAppend(dir, below);
        SlashedStarts(below);
      }
      if Render(dir) + "/" <= Render(file) { PrefixContains(dir, file); }
    }
  }

  lemma {:induction false} SlashedStarts(cs: seq<string>)
    requires cs != []
    ensures "/" <= Slashed(cs)
  {
    RenderIsAbs(cs);
  }

  lemma {:induction false} PrefixContains(dir: seq<string>, file: seq<string>)
    requires AllPlain(dir) && AllPlain(file) && dir != [] && Render(dir) + "/" <= Render(file)
    ensures dir < file
  {
    if file == [] {
      assert false;
    } else {
      var rest := Slashed(file)[|Slashed(dir) + "/"|..];
      assert Slashed(file) == Slashed(dir) + "/" + rest;
      SplitJoined(Slashed(dir), rest);
      SplitSlashed(dir);
      SplitSlashed(file);
      PrefixOfSplit(dir, file, Split(rest));
    }
  }

  lemma {:induction false} PrefixOfSplit(dir: seq<string>, file: seq<string>, rest: seq<string>)
    requires [""] + file == ([""] + dir) + rest && rest != []
    ensures dir < file
  {
    assert file == ([""] + file)[1..] == (([""] + dir) + rest)[1..] == dir + rest;
  }

  // ---------------------------------------------------------------- roots

  /** The first of the longest roots that hold the file, or "". */
  function RootOf(file: string, roots: seq<string>): string {
    if roots == [] then ""
    else
      var dir := roots[|roots| - 1];
      var root := RootOf(file, roots[..|roots| - 1]);
      if Within(dir, file) && |dir| > |root| then dir else root
  }

  method FindRoot(file: string, roots: seq<string>) returns (root: string)
    ensures root == RootOf(file, roots)
  {
    root := "";
    for i := 0 to |roots|
      invariant root == RootOf(file, roots[..i])
    {
      assert roots[..i + 1][..i] == roots[..i];
      var dir := roots[i];
      if Within(dir, file) && |dir| > |root| { root := dir; }
    }
    assert roots[..|roots|] == roots;
  }

  ghost predicate AllRendered(roots: seq<string>) {
    forall i :: 0 <= i < |roots| ==> IsRendered(roots[i])
  }

  ghost predicate IsRendered(p: string) {
    exists cs :: AllPlain(cs) && Render(cs) == p
  }

  lemma {:induction false} RootOfHolds(file: string, roots: seq<string>)
    ensures RootOf(file, roots) == "" || (RootOf(file, roots) in roots && Within(RootOf(file, roots), file))
    ensures forall i :: 0 <= i < |roots| && Within(roots[i], file) ==> |roots[i]| <= |RootOf(file, roots)|
  {
    if roots != [] {
      var before := roots[..|roots| - 1];
      RootOfHolds(file, before);
      forall i | 0 <= i < |roots| && Within(roots[i], file) ensures |roots[i]| <= |RootOf(file, roots)| {
        if i < |before| { assert before[i] == roots[i]; }
      }
      assert forall r :: r in before ==> r in roots;
    }
  }

  /** The root found is the innermost: it holds the file, every other root that
      does holds it, and there is none exactly if no root holds the file. */
  lemma {:induction false} InnermostRoot(file: seq<string>, roots: seq<string>, dir: seq<string>)
    requires AllPlain(file) && AllRendered(roots) && AllPlain(dir)
    ensures var root := RootOf(Render(file), roots);
      && (root == "" <==> forall i :: 0 <= i < |roots| ==> !Within(roots[i], Render(file)))
      && (root != "" ==> root in roots && Within(root, Render(file)))
      && (Render(dir) in roots && dir < file ==> root == Render(dir) || Within(Render(dir), root))
  {
    var name := Render(file);
    var root := RootOf(name, roots);
    RootOfHolds(name, roots);
    if Render(dir) in roots && dir < file {
      WithinIsContainment(dir, file);
      var k :| 0 <= k < |roots| && roots[k] == Render(dir);
      assert |Render(dir)| <= |root|;
      var j :| 0 <= j < |roots| && roots[j] == root;
      var cs :| AllPlain(cs) && Render(cs) == root;
      LongestHolds(dir, cs, file);
    }
  }

  /** Of two paths that hold a file, the longer one is the other or inside it. */
  lemma {:induction false} LongestHolds(dir: seq<string>, cs: seq<string>, file: seq<string>)
    requires AllPlain(dir) && AllPlain(cs) && AllPlain(file)
    requires dir < file && Within(Render(cs), Render(file)) && |Render(dir)| <= |Render(cs)|
    ensures cs == dir || Within(Render(dir), Render(cs))
  {
    WithinIsContainment(cs, file);
    assert dir == file[..|dir|] && cs == file[..|cs|];
    if |cs| < |dir| {
      assert cs == dir[..|cs|];
      LongerRendered(cs, dir);
    } else if |dir| < |cs| {
      assert dir == cs[..|dir|];
      WithinIsContainment(dir, cs);
    }
  }

  lemma {:induction false} LongerRendered(cs: seq<string>, ds: seq<string>)
    requires AllPlain(cs) && AllPlain(ds) && cs < ds
    ensures |Render(cs)| < |Render(ds)|
  {
    WithinIsContainment(cs, ds);
  }

  // --------------------------------------------------------------- finding

  datatype Found = Found(root: string, file: string)

  datatype Scan = Scan(found: seq<Found>, escaped: bool, seen: set<string>)

  /** The working directories that resolve. */
  function RootsOf(fs: FileSystem, dirs: seq<string>): seq<string> {
    if dirs == [] then []
    else
      var n := |dirs| - 1;
      match RealPath(fs, dirs[n])
      case Ok(at) => RootsOf(fs, dirs[..n]) + [Render(at)]
      case Err(_) => RootsOf(fs, dirs[..n])
  }

  predicate Regular(fs: FileSystem, p: string) {
    p in fs && fs[p].File?
  }

  /** One candidate after the others: a regular file inside a root is found
      unless an earlier candidate led to it. */
  function Candidate(fs: FileSystem, roots: seq<string>, scan: Scan, file: string): Scan {
    match Rendered(RealPath(fs, file))
    case Err(_) => scan
    case Ok(resolved) =>
      var root := RootOf(resolved, roots);
      if root == "" then scan.(escaped := true)
      else if !Regular(fs, resolved) || resolved in scan.seen then scan
      else Scan(scan.found + [Found(root, file)], scan.escaped, scan.seen + {resolved})
  }

  function Candidates(fs: FileSystem, roots: seq<string>, paths: seq<string>): Scan {
    if paths == [] then Scan([], false, {})
    else Candidate(fs, roots, Candidates(fs, roots, paths[..|paths| - 1]), paths[|paths| - 1])
  }

  method FindRemote(fs: FileSystem, dirs: seq<string>, paths: seq<string>) returns (found: seq<Found>, escaped: bool)
    ensures found == Candidates(fs, RootsOf(fs, dirs), paths).found
    ensures escaped == Candidates(fs, RootsOf(fs, dirs), paths).escaped
  {
    var roots: seq<string> := [];
    for i := 0 to |dirs|
      invariant roots == RootsOf(fs, dirs[..i])
    {
      assert dirs[..i + 1][..i] == dirs[..i];
      var resolved := FindRealPath(fs, dirs[i]);
      if resolved.Ok? { roots := roots + [resolved.value]; }
    }
    assert dirs[..|dirs|] == dirs;
    found, escaped := [], false;
    var seen: set<string> := {};
    for i := 0 to |paths|
      invariant Scan(found, escaped, seen) == Candidates(fs, roots, paths[..i])
    {
      assert paths[..i + 1][..i] == paths[..i];
      var file := paths[i];
      var resolved := FindRealPath(fs, file);
      if resolved.Err? { continue; }
      var root := FindRoot(resolved.value, roots);
      if root == "" {
        escaped := true;
        continue;
      }
      if resolved.value !in fs || !fs[resolved.value].File? || resolved.value in seen { continue; }
      seen := seen + {resolved.value};
      found := found + [Found(root, file)];
    }
    assert paths[..|paths|] == paths;
  }

  /** A candidate that leads to this file, inside a root. */
  predicate LeadsTo(fs: FileSystem, roots: seq<string>, file: string, resolved: string) {
    Rendered(RealPath(fs, file)) == Ok(resolved) && RootOf(resolved, roots) != "" && Regular(fs, resolved)
  }

  predicate Shows(fs: FileSystem, roots: seq<string>, f: Found, resolved: string) {
    LeadsTo(fs, roots, f.file, resolved) && f.root == RootOf(resolved, roots)
  }

  ghost predicate SoundAt(fs: FileSystem, roots: seq<string>, paths: seq<string>, s: Scan, f: Found) {
    f.file in paths && exists p :: p in s.seen && Shows(fs, roots, f, p)
  }

  ghost predicate Listed(fs: FileSystem, roots: seq<string>, s: Scan, p: string) {
    exists k :: 0 <= k < |s.found| && Shows(fs, roots, s.found[k], p)
  }

  ghost predicate Distinct(fs: FileSystem, roots: seq<string>, s: Scan) {
    forall j, k, p ::
      (0 <= j < |s.found| && 0 <= k < |s.found|
       && Shows(fs, roots, s.found[j], p) && Shows(fs, roots, s.found[k], p)) ==> j == k
  }

  ghost predicate ScanOK(fs: FileSystem, roots: seq<string>, paths: seq<string>, s: Scan) {
    && (forall k :: 0 <= k < |s.found| ==> SoundAt(fs, roots, paths, s, s.found[k]))
    && (forall p :: p in s.seen ==> Listed(fs, roots, s, p))
    && Distinct(fs, roots, s)
    && (forall i, p :: 0 <= i < |paths| && LeadsTo(fs, roots, paths[i], p) ==> p in s.seen)
    && (s.escaped <==> exists i :: 0 <= i < |paths| && Escapes(fs, roots, paths[i]))
  }

  predicate Escapes(fs: FileSystem, roots: seq<string>, file: string) {
    RealPath(fs, file).Ok? && RootOf(Render(RealPath(fs, file).value), roots) == ""
  }

  /** Exactly the regular files inside a root are found, each once, under its
      innermost root and by a candidate that leads to it; `escaped` says
      exactly whether some candidate resolves outside every root. */
  lemma {:induction false} FindsExactly(fs: FileSystem, roots: seq<string>, paths: seq<string>)
    ensures ScanOK(fs, roots, paths, Candidates(fs, roots, paths))
  {
    if paths != [] {
      var n := |paths| - 1;
      FindsExactly(fs, roots, paths[..n]);
      CandidateOK(fs, roots, paths[..n], Candidates(fs, roots, paths[..n]), paths[n]);
      assert paths[..n] + [paths[n]] == paths;
    }
  }

  /** More candidates and more of the scan keep what was sound. */
  lemma {:induction false} StaysSound(fs: FileSystem, roots: seq<string>, before: seq<string>, s: Scan, file: string,
      s': Scan, f: Found)
    requires SoundAt(fs, roots, before, s, f) && s.seen <= s'.seen
    ensures SoundAt(fs, roots, before + [file], s', f)
  {
    var p :| p in s.seen && Shows(fs, roots, f, p);
    assert p in s'.seen;
    assert f.file in before + [file];
  }

  lemma {:induction false} StaysComplete(fs: FileSystem, roots: seq<string>, before: seq<string>, s: Scan,
      file: string, i: int, p: string)
    requires ScanOK(fs, roots, before, s)
    requires 0 <= i < |before + [file]| && LeadsTo(fs, roots, (before + [file])[i], p)
    ensures p in Candidate(fs, roots, s, file).seen
  {
    if i < |before| { assert (before + [file])[i] == before[i]; }
  }

  lemma {:induction false} EscapesNow(fs: FileSystem, roots: seq<string>, before: seq<string>, s: Scan, file: string)
    requires s.escaped <==> exists i :: 0 <= i < |before| && Escapes(fs, roots, before[i])
    ensures var paths := before + [file];
            Candidate(fs, roots, s, file).escaped <==> exists i :: 0 <= i < |paths| && Escapes(fs, roots, paths[i])
  {
    var paths := before + [file];
    if s.escaped {
      var i :| 0 <= i < |before| && Escapes(fs, roots, before[i]);
      assert paths[i] == before[i];
    }
    if Escapes(fs, roots, file) { assert paths[|before|] == file; }
    if i :| 0 <= i < |paths| && Escapes(fs, roots, paths[i]) {
      if i < |before| { assert paths[i] == before[i]; }
    }
  }

  /** A new file joins the found ones. */
  lemma {:induction false} JoinsFound(fs: FileSystem, roots: seq<string>, s: Scan, s': Scan, f: Found, resolved: string)
    requires s'.found == s.found + [f] && s'.seen == s.seen + {resolved} && resolved !in s.seen
    requires Shows(fs, roots, f, resolved) && Distinct(fs, roots, s)
    requires forall p :: p in s.seen ==> Listed(fs, roots, s, p)
    requires forall k, p :: 0 <= k < |s.found| && Shows(fs, roots, s.found[k], p) ==> p in s.seen
    ensures Distinct(fs, roots, s') && forall p :: p in s'.seen ==> Listed(fs, roots, s', p)
  {
    assert forall k :: 0 <= k < |s.found| ==> s'.found[k] == s.found[k];
    forall p | p in s'.seen ensures Listed(fs, roots, s', p) {
      if p in s.seen {
        assert Listed(fs, roots, s, p);
        var k :| 0 <= k < |s.found| && Shows(fs, roots, s.found[k], p);
        assert s'.found[k] == s.found[k];
      } else {
        assert s'.found[|s.found|] == f;
      }
    }
    forall j, k, p | 0 <= j < |s'.found| && 0 <= k < |s'.found|
                     && Shows(fs, roots, s'.found[j], p) && Shows(fs, roots, s'.found[k], p)
      ensures j == k
    {
      assert j == |s.found| || k == |s.found| ==> p == resolved;
    }
  }

  lemma {:induction false} CandidateOK(fs: FileSystem, roots: seq<string>, before: seq<string>, s: Scan, file: string)
    requires ScanOK(fs, roots, before, s)
    ensures ScanOK(fs, roots, before + [file], Candidate(fs, roots, s, file))
  {
    var paths := before + [file];
    var s' := Candidate(fs, roots, s, file);
    EscapesNow(fs, roots, before, s, file);
    forall i, p | 0 <= i < |paths| && LeadsTo(fs, roots, paths[i], p) ensures p in s'.seen {
      StaysComplete(fs, roots, before, s, file, i, p);
    }
    if s'.found == s.found {
      forall k | 0 <= k < |s.found| ensures SoundAt(fs, roots, paths, s', s'.found[k]) {
        StaysSound(fs, roots, before, s, file, s', s.found[k]);
      }
      forall p | p in s'.seen ensures Listed(fs, roots, s', p) { assert Listed(fs, roots, s, p); }
    } else {
      CandidateFound(fs, roots, before, s, file);
    }
  }

  lemma {:induction false} CandidateFound(fs: FileSystem, roots: seq<string>, before: seq<string>, s: Scan,
      file: string)
    requires ScanOK(fs, roots, before, s) && Candidate(fs, roots, s, file).found != s.found
    ensures var s' := Candidate(fs, roots, s, file);
      && Distinct(fs, roots, s') && (forall p :: p in s'.seen ==> Listed(fs, roots, s', p))
      && forall k :: 0 <= k < |s'.found| ==> SoundAt(fs, roots, before + [file], s', s'.found[k])
  {
    var paths := before + [file];
    var s' := Candidate(fs, roots, s, file);
    var resolved := Render(RealPath(fs, file).value);
    var f := Found(RootOf(resolved, roots), file);
    assert Shows(fs, roots, f, resolved);
    forall k, p | 0 <= k < |s.found| && Shows(fs, roots, s.found[k], p) ensures p in s.seen {
      assert SoundAt(fs, roots, before, s, s.found[k]);
    }
    JoinsFound(fs, roots, s, s', f, resolved);
    forall k | 0 <= k < |s'.found| ensures SoundAt(fs, roots, paths, s', s'.found[k]) {
      if k < |s.found| {
        StaysSound(fs, roots, before, s, file, s', s.found[k]);
      } else {
        assert paths[|before|] == file && resolved in s'.seen;
      }
    }
  }

  // ---------------------------------------------------------- registration

  function TrimPrefix(s: string, p: string): string {
    if p <= s then s[|p|..] else s
  }

  /** What the registry keeps of a preview: its root, and the file below it. */
  datatype Entry = Entry(root: string, file: string)

  datatype Outcome = Opened(entry: Entry) | Escaped | NotFound | TooLarge

  function OpenRemote(fs: FileSystem, root: string, file: string): Outcome {
    var dir := Clean(root);
    match Rendered(RealPath(fs, Clean(file)))
    case Err(_) => NotFound
    case Ok(resolved) =>
      if !Within(dir, resolved) then Escaped
      else if !Regular(fs, resolved) then NotFound
      else if fs[resolved].size > MAX_BYTES then TooLarge
      else Opened(Entry(dir, TrimPrefix(TrimPrefix(resolved, dir), "/")))
  }

  /** The file a request below the entry's root reads, if it may. */
  function ServedFile(fs: FileSystem, e: Entry, rest: string): Result<string> {
    match Rendered(RealPath(fs, Join(e.root, rest)))
    case Err(error) => Err(error)
    case Ok(resolved) => if Within(e.root, resolved) && Regular(fs, resolved) then Ok(resolved) else Err(Missing)
  }

  lemma {:induction false} TrimsBelow(dir: seq<string>, below: seq<string>)
    requires AllPlain(dir + below) && below != []
    ensures TrimPrefix(TrimPrefix(Render(dir + below), Render(dir)), "/") == Slashed(below)[1..]
  {
    SlashedAppend(dir, below);
    SlashedStarts(below);
    if dir == [] {
      assert dir + below == below;
      NoLeadingSlash(below);
    }
  }

  lemma {:induction false} JoinBelow(dir: seq<string>, below: seq<string>)
    requires AllPlain(dir + below) && below != []
    ensures Join(Render(dir), Slashed(below)[1..]) == Render(dir + below)
  {
    var rel := Slashed(below)[1..];
    assert AllPlain(dir) by { assert forall i :: 0 <= i < |dir| ==> (dir + below)[i] == dir[i]; }
    assert AllPlain(below) by { assert forall i :: 0 <= i < |below| ==> (dir + below)[|dir| + i] == below[i]; }
    NoLeadingSlash(below);
    CleanBelow(dir, rel);
    SplitJoined("", rel);
    assert "" + "/" + rel == Slashed(below);
    SplitSlashed(below);
    assert Split(rel) == ([""] + below)[1..] == below;
    PushPlain(dir, below, true);
  }

  /** A cleaned path that holds an absolute one is absolute. */
  lemma {:induction false} HolderIsAbsolute(root: string, file: seq<string>)
    requires Within(Clean(root), Render(file))
    ensures IsAbs(root)
  {
    RenderIsAbs(file);
    assert Clean(root) != "" ==> (Clean(root) + "/")[0] == Clean(root)[0];
    if !IsAbs(root) { CleanStaysRelative(root); }
  }

  /** The kept path leads back to the file it was cut from. */
  lemma {:induction false} KeptPathLeadsBack(dir: seq<string>, at: seq<string>)
    requires AllPlain(dir) && AllPlain(at) && dir < at
    ensures Join(Render(dir), TrimPrefix(TrimPrefix(Render(at), Render(dir)), "/")) == Render(at)
  {
    var below := at[|dir|..];
    assert at == dir + below;
    TrimsBelow(dir, below);
    JoinBelow(dir, below);
  }

  lemma {:induction false} OpenedInside(fs: FileSystem, root: string, file: string) returns (dir: seq<string>,
      at: seq<string>)
    requires OpenRemote(fs, root, file).Opened?
    ensures RealPath(fs, Clean(file)) == Ok(at) && Physical(fs, at) && AllPlain(dir) && dir < at
    ensures Clean(root) == Render(dir) && Regular(fs, Render(at))
    ensures OpenRemote(fs, root, file).entry == Entry(Render(dir), TrimPrefix(TrimPrefix(Render(at), Render(dir)), "/"))
  {
    at := RealPath(fs, Clean(file)).value;
    dir := Parts(root);
    RealPathIsReal(fs, Clean(file));
    HolderIsAbsolute(root, at);
    CleanAbsolute(root);
    WithinIsContainment(dir, at);
  }

  /** Reopening what was registered leads to the same file: the root joined with
      the kept path resolves to itself, inside the root. */
  lemma {:induction false} ReopensSameFile(fs: FileSystem, root: string, file: string)
    requires OpenRemote(fs, root, file).Opened?
    ensures var e := OpenRemote(fs, root, file).entry;
      && RealPath(fs, Clean(file)).Ok?
      && ServedFile(fs, e, e.file) == Ok(Render(RealPath(fs, Clean(file)).value))
  {
    var dir, at := OpenedInside(fs, root, file);
    KeptPathLeadsBack(dir, at);
    RealPathOfPhysical(fs, at);
    WithinIsContainment(dir, at);
  }

  /** The root holds what the path led to: it is absolute, and its components
      come strictly before the file's. */
  predicate Holds(root: string, at: seq<string>) {
    IsAbs(root) && Parts(root) < at
  }

  lemma {:induction false} HoldsIsWithin(root: string, at: seq<string>)
    requires AllPlain(at)
    ensures Holds(root, at) <==> Within(Clean(root), Render(at))
  {
    if Within(Clean(root), Render(at)) { HolderIsAbsolute(root, at); }
    if IsAbs(root) {
      CleanAbsolute(root);
      WithinIsContainment(Parts(root), at);
    }
  }

  /** A file of more than 10 MiB. */
  predicate TooBig(fs: FileSystem, p: string) {
    Regular(fs, p) && fs[p].size > 10 * 1024 * 1024
  }

  /** Opening answers that the file escapes exactly if its path leads outside
      the root, that it is not found exactly if the path leads nowhere or to
      something inside that is no regular file, that it is too large exactly for
      a regular file inside of more than 10 MiB; every other one is opened. */
  lemma {:induction false} OpensExactly(fs: FileSystem, root: string, file: string)
    ensures var r := RealPath(fs, Clean(file));
            var outcome := OpenRemote(fs, root, file);
      && (outcome == Escaped <==> r.Ok? && !Holds(root, r.value))
      && (outcome == NotFound <==> r.Err? || (Holds(root, r.value) && !Regular(fs, Render(r.value))))
      && (outcome == TooLarge <==> r.Ok? && Holds(root, r.value) && TooBig(fs, Render(r.value)))
      && (outcome.Opened? ==> outcome.entry.root == Render(Parts(root)))
      && (outcome.Opened? ==> Join(outcome.entry.root, outcome.entry.file) == Render(r.value))
  {
    var r := RealPath(fs, Clean(file));
    if r.Ok? {
      RealPathIsReal(fs, Clean(file));
      HoldsIsWithin(root, r.value);
      if OpenRemote(fs, root, file).Opened? {
        var dir, at := OpenedInside(fs, root, file);
        KeptPathLeadsBack(dir, at);
        CleanAbsolute(root);
      }
    }
  }

  /** A request below the root is served what its path leads to, exactly if
      that is a regular file strictly inside the root. */
  lemma {:induction false} ServesExactly(fs: FileSystem, dir: seq<string>, file: string, rest: string)
    requires AllPlain(dir)
    ensures var r := RealPath(fs, Join(Render(dir), rest));
            var served := ServedFile(fs, Entry(Render(dir), file), rest);
      && (r.Err? ==> served == Err(r.error))
      && (r.Ok? && dir < r.value && Regular(fs, Render(r.value)) ==> served == Ok(Render(r.value)))
      && (r.Ok? && !(dir < r.value && Regular(fs, Render(r.value))) ==> served == Err(Missing))
  {
    var r := RealPath(fs, Join(Render(dir), rest));
    if r.Ok? {
      RealPathIsReal(fs, Join(Render(dir), rest));
      WithinIsContainment(dir, r.value);
    }
  }

  /** Every regular file below the root that no link hides is served under its
      own path, whichever file the preview was opened for. */
  lemma {:induction false} ServesBelow(fs: FileSystem, dir: seq<string>, below: seq<string>, file: string)
    requires Physical(fs, dir + below) && below != [] && Regular(fs, Render(dir + below))
    ensures ServedFile(fs, Entry(Render(dir), file), Slashed(below)[1..]) == Ok(Render(dir + below))
  {
    assert AllPlain(dir) by { assert forall i :: 0 <= i < |dir| ==> (dir + below)[i] == dir[i]; }
    JoinBelow(dir, below);
    RealPathOfPhysical(fs, dir + below);
    ServesExactly(fs, dir, file, Slashed(below)[1..]);
  }

  /** Nothing outside the root is served, whatever the request and the links. */
  lemma {:induction false} ServesInside(fs: FileSystem, dir: seq<string>, file: string, rest: string)
    requires AllPlain(dir) && ServedFile(fs, Entry(Render(dir), file), rest).Ok?
    ensures exists at ::
      Physical(fs, at) && dir < at && ServedFile(fs, Entry(Render(dir), file), rest) == Ok(Render(at))
  {
    var at := RealPath(fs, Join(Render(dir), rest)).value;
    RealPathIsReal(fs, Join(Render(dir), rest));
    WithinIsContainment(dir, at);
  }
}
