/** Slash-separated paths as strings, and what they mean as components. */
module Paths {
  predicate NoSlash(s: string) {
    '/' !in s
  }

  /** The parts between slashes: one more than there are slashes. */
  function Split(s: string): (parts: seq<string>)
    ensures |parts| > 0
  {
    if s == "" then [""]
    else
      var rest := Split(s[1..]);
      if s[0] == '/' then [""] + rest else [[s[0]] + rest[0]] + rest[1..]
  }

  lemma {:induction false} SplitParts(s: string)
    ensures forall i :: 0 <= i < |Split(s)| ==> NoSlash(Split(s)[i])
  {
    if s != "" {
      SplitParts(s[1..]);
      var rest := Split(s[1..]);
      forall i | 0 <= i < |Split(s)| ensures NoSlash(Split(s)[i]) {
        if s[0] == '/' {
          if i > 0 { assert Split(s)[i] == rest[i - 1]; }
        } else if i > 0 {
          assert Split(s)[i] == rest[i];
        } else {
          assert NoSlash(rest[0]);
        }
      }
    }
  }

  lemma {:induction false} SplitOne(c: string)
    requires NoSlash(c)
    ensures Split(c) == [c]
  {
    if c != "" {
      assert NoSlash(c[1..]);
      SplitOne(c[1..]);
      assert [c[0]] + c[1..] == c;
    }
  }

  /** A character in front of a path joins its first part, or starts one. */
  lemma {:induction false} SplitCons(c: char, s: string)
    ensures Split([c] + s) == if c == '/' then [""] + Split(s) else [[c] + Split(s)[0]] + Split(s)[1..]
  {
    assert ([c] + s)[1..] == s;
  }

  lemma {:induction false} PrependFirst(x: string, parts: seq<string>, more: seq<string>)
    requires parts != []
    ensures [x + (parts + more)[0]] + (parts + more)[1..] == ([x + parts[0]] + parts[1..]) + more
    ensures [""] + (parts + more) == ([""] + parts) + more
  {
  }

  lemma {:induction false} SplitJoined(a: string, b: string)
    ensures Split(a + "/" + b) == Split(a) + Split(b)
  {
    if a == "" {
      assert a + "/" + b == ['/'] + b;
      SplitCons('/', b);
    } else {
      SplitJoined(a[1..], b);
      assert a + "/" + b == [a[0]] + (a[1..] + "/" + b);
      SplitCons(a[0], a[1..] + "/" + b);
      assert a == [a[0]] + a[1..];
      SplitCons(a[0], a[1..]);
      PrependFirst([a[0]], Split(a[1..]), Split(b));
    }
  }

  // ------------------------------------------------------------ components

  predicate Plain(c: string) {
    c != "" && c != "." && c != ".." && NoSlash(c)
  }

  predicate AllPlain(cs: seq<string>) {
    forall i :: 0 <= i < |cs| ==> Plain(cs[i])
  }

  /** "/a/b" for the components a and b; "" for none. */
  function Slashed(cs: seq<string>): string {
    if cs == [] then "" else Slashed(cs[..|cs| - 1]) + "/" + cs[|cs| - 1]
  }

  /** The absolute path of these components. */
  function Render(cs: seq<string>): (p: string)
    ensures p != ""
  {
    if cs == [] then "/" else Slashed(cs)
  }

  lemma {:induction false} SplitSlashed(cs: seq<string>)
    requires AllPlain(cs)
    ensures Split(Slashed(cs)) == [""] + cs
  {
    if cs != [] {
      var n := |cs| - 1;
      SplitSlashed(cs[..n]);
      SplitOne(cs[n]);
      SplitJoined(Slashed(cs[..n]), cs[n]);
    }
  }

  lemma {:induction false} SlashedAppend(cs: seq<string>, ds: seq<string>)
    ensures Slashed(cs + ds) == Slashed(cs) + Slashed(ds)
  {
    if ds == [] {
      assert cs + ds == cs;
    } else {
      var n := |ds| - 1;
      SlashedAppend(cs, ds[..n]);
      assert (cs + ds)[..|cs + ds| - 1] == cs + ds[..n];
      assert Slashed(cs) + Slashed(ds[..n]) + "/" + ds[n] == Slashed(cs) + (Slashed(ds[..n]) + "/" + ds[n]);
    }
  }

  // ------------------------------------------------------- lexical cleaning

  function Pushed(stack: seq<string>, c: string, rooted: bool): seq<string> {
    if c == "" || c == "." then stack
    else if c != ".." then stack + [c]
    else if stack != [] && stack[|stack| - 1] != ".." then stack[..|stack| - 1]
    else if rooted then stack
    else stack + [".."]
  }

  function PushAll(stack: seq<string>, parts: seq<string>, rooted: bool): seq<string>
    decreases parts
  {
    if parts == [] then stack else PushAll(Pushed(stack, parts[0], rooted), parts[1..], rooted)
  }

  predicate IsAbs(p: string) {
    p != "" && p[0] == '/'
  }

  /** The path without empty, "." and "name/.." parts: path.Clean. */
  function Clean(p: string): string {
    if p == "" then "."
    else
      var stack := PushAll([], Split(p), IsAbs(p));
      if IsAbs(p) then Render(stack) else if stack == [] then "." else Slashed(stack)[1..]
  }

  /** path.Join, which drops an empty element. */
  function Join(a: string, b: string): string {
    if a == "" && b == "" then "" else if a == "" then Clean(b) else if b == "" then Clean(a) else Clean(a + "/" + b)
  }

  function UpToSlash(p: string): string {
    if p == "" || p[|p| - 1] == '/' then p else UpToSlash(p[..|p| - 1])
  }

  /** path.Dir. */
  function Dir(p: string): string {
    Clean(UpToSlash(p))
  }

  lemma {:induction false} PushAllAppend(stack: seq<string>, xs: seq<string>, ys: seq<string>, rooted: bool)
    ensures PushAll(stack, xs + ys, rooted) == PushAll(PushAll(stack, xs, rooted), ys, rooted)
    decreases xs
  {
    if xs == [] {
      assert xs + ys == ys;
    } else {
      assert (xs + ys)[1..] == xs[1..] + ys;
      PushAllAppend(Pushed(stack, xs[0], rooted), xs[1..], ys, rooted);
    }
  }

  lemma {:induction false} PushPlain(stack: seq<string>, cs: seq<string>, rooted: bool)
    requires AllPlain(cs)
    ensures PushAll(stack, cs, rooted) == stack + cs
    decreases cs
  {
    if cs == [] {
      assert stack + cs == stack;
    } else {
      PushPlain(stack + [cs[0]], cs[1..], rooted);
      assert stack + cs == (stack + [cs[0]]) + cs[1..];
    }
  }

  lemma {:induction false} PushKeepsPlain(stack: seq<string>, parts: seq<string>)
    requires AllPlain(stack) && forall i :: 0 <= i < |parts| ==> NoSlash(parts[i])
    ensures AllPlain(PushAll(stack, parts, true))
    decreases parts
  {
    if parts != [] {
      var next := Pushed(stack, parts[0], true);
      assert AllPlain(next);
      PushKeepsPlain(next, parts[1..]);
    }
  }

  /** The components of a cleaned absolute path. */
  function Parts(p: string): seq<string> {
    PushAll([], Split(p), true)
  }

  lemma {:induction false} CleanAbsolute(p: string)
    requires IsAbs(p)
    ensures Clean(p) == Render(Parts(p)) && AllPlain(Parts(p))
  {
    SplitParts(p);
    PushKeepsPlain([], Split(p));
  }

  /** A rendered path followed by more is cleaned part by part. */
  lemma {:induction false} CleanBelow(cs: seq<string>, p: string)
    requires AllPlain(cs)
    ensures IsAbs(Render(cs) + "/" + p) && Clean(Render(cs) + "/" + p) == Render(PushAll(cs, Split(p), true))
  {
    var s := Render(cs) + "/" + p;
    SplitJoined(Render(cs), p);
    RenderedParts(cs);
    PushAllAppend([], Split(Render(cs)), Split(p), true);
    RenderIsAbs(cs);
    assert s[0] == Render(cs)[0];
  }

  lemma {:induction false} RenderIsAbs(cs: seq<string>)
    ensures IsAbs(Render(cs))
  {
    if cs != [] {
      var before := cs[..|cs| - 1];
      if before == [] { assert Slashed(before) == ""; } else { RenderIsAbs(before); }
    }
  }

  lemma {:induction false} RenderedParts(cs: seq<string>)
    requires AllPlain(cs)
    ensures Parts(Render(cs)) == cs
  {
    if cs == [] {
      SplitJoined("", "");
      assert "" + "/" + "" == "/" && Split("") == [""];
      assert Split("/") == ["", ""];
      assert ["", ""][1..] == [""] && [""][1..] == [];
    } else {
      SplitSlashed(cs);
      assert ([""] + cs)[1..] == cs;
      PushPlain([], cs, true);
    }
  }

  lemma {:induction false} RenderInjective(cs: seq<string>, ds: seq<string>)
    requires AllPlain(cs) && AllPlain(ds) && Render(cs) == Render(ds)
    ensures cs == ds
  {
    RenderedParts(cs);
    RenderedParts(ds);
  }

  lemma {:induction false} CleanRendered(cs: seq<string>)
    requires AllPlain(cs)
    ensures Clean(Render(cs)) == Render(cs)
  {
    RenderIsAbs(cs);
    RenderedParts(cs);
  }

  /** Joining one component appends it. */
  lemma {:induction false} JoinOne(cs: seq<string>, c: string)
    requires AllPlain(cs) && Plain(c)
    ensures Join(Render(cs), c) == Render(cs + [c])
  {
    CleanBelow(cs, c);
    SplitOne(c);
    assert [c][1..] == [];
  }

  /** The directory part of a rendered path drops its last component. */
  lemma {:induction false} DirRendered(cs: seq<string>)
    requires AllPlain(cs)
    ensures Dir(Render(cs)) == Render(if cs == [] then [] else cs[..|cs| - 1])
  {
    if cs == [] {
      CleanRendered([]);
    } else {
      var n := |cs| - 1;
      UpToLast(Slashed(cs[..n]) + "/", cs[n]);
      assert Slashed(cs) == Slashed(cs[..n]) + "/" + cs[n];
      if n == 0 {
        assert cs[..n] == [] && Slashed(cs[..n]) + "/" == "/";
        CleanRendered([]);
      } else {
        CleanBelow(cs[..n], "");
        assert Render(cs[..n]) + "/" + "" == Slashed(cs[..n]) + "/";
        assert Split("") == [""] && [""][1..] == [];
      }
    }
  }

  lemma {:induction false} UpToLast(p: string, c: string)
    requires NoSlash(c) && p != "" && p[|p| - 1] == '/'
    ensures UpToSlash(p + c) == p
  {
    if c == "" {
      assert p + c == p;
    } else {
      var n := |c| - 1;
      assert (p + c)[..|p + c| - 1] == p + c[..n];
      assert (p + c)[|p + c| - 1] == c[n];
      UpToLast(p, c[..n]);
    }
  }

  predicate Named(c: string) {
    c != "" && NoSlash(c)
  }

  /** After its first slash a path of names goes on with a name. */
  lemma {:induction false} NoLeadingSlash(cs: seq<string>)
    requires cs != [] && forall i :: 0 <= i < |cs| ==> Named(cs[i])
    ensures "/" <= Slashed(cs) && Slashed(cs)[1..] != "" && Slashed(cs)[1] != '/'
  {
    var n := |cs| - 1;
    if n == 0 {
      assert Slashed(cs[..0]) == "";
      assert Slashed(cs) == "/" + cs[0];
      assert cs[0][0] in cs[0];
    } else {
      NoLeadingSlash(cs[..n]);
    }
  }

  lemma {:induction false} PushKeepsNamed(stack: seq<string>, parts: seq<string>, rooted: bool)
    requires (forall i :: 0 <= i < |stack| ==> Named(stack[i])) && forall i :: 0 <= i < |parts| ==> NoSlash(parts[i])
    ensures forall i :: 0 <= i < |PushAll(stack, parts, rooted)| ==> Named(PushAll(stack, parts, rooted)[i])
    decreases parts
  {
    if parts != [] {
      var next := Pushed(stack, parts[0], rooted);
      assert forall i :: 0 <= i < |next| ==> Named(next[i]);
      PushKeepsNamed(next, parts[1..], rooted);
    }
  }

  lemma {:induction false} CleanStaysRelative(p: string)
    requires !IsAbs(p)
    ensures Clean(p) != "" && Clean(p)[0] != '/'
  {
    SplitParts(p);
    PushKeepsNamed([], Split(p), false);
    var stack := PushAll([], Split(p), false);
    if stack != [] { NoLeadingSlash(stack); }
  }
}
