/** Removing panes from the split tree of a workspace. */
module PaneTree {
  // Emptied splits go, a split left with one child gives its place to that child, and the
  // sizes of every level are brought back to a sum of 100.
  //
  // Sizes are real numbers; rounding is not part of this model.

  import opened Text

  /** A child is a pane or a split, as its `pane` and `children` say. */
  datatype Child = Child(size: real, pane: Option<string>, direction: string, children: seq<Child>)

  /** What the layouts of a configuration hold: panes and splits with children,
      all with positive sizes. */
  predicate WellFormed(children: seq<Child>) {
    forall i :: 0 <= i < |children| ==> ChildOK(children[i])
  }

  predicate ChildOK(c: Child) {
    c.size > 0.0 && (c.pane.Some? <==> c.children == []) && WellFormed(c.children)
  }

  // ----------------------------------------------------------------- sizes

  function Total(children: seq<Child>): real {
    if children == [] then 0.0 else Total(children[..|children| - 1]) + children[|children| - 1].size
  }

  function Scaled(children: seq<Child>, factor: real): (r: seq<Child>)
    ensures |r| == |children|
  {
    seq(|children|, i requires 0 <= i < |children| => children[i].(size := children[i].size * factor))
  }

  /** Sizes brought to a sum of 100, when they have one. */
  function Normalized(children: seq<Child>): (r: seq<Child>)
    ensures |r| == |children|
  {
    var total := Total(children);
    if total > 0.0 then
      seq(|children|, i requires 0 <= i < |children| => children[i].(size := children[i].size / total * 100.0))
    else children
  }

  // --------------------------------------------------------------- removal

  /** What is left of one child: nothing, or the child itself, shrunk. */
  function Left(c: Child, gone: set<string>): (r: seq<Child>)
    ensures |r| <= 1
    decreases c, 0
  {
    if c.pane.Some? && c.pane.value in gone then []
    else if c.children == [] then [c]
    else
      var sub := Removed(c.children, gone);
      if sub == [] then []
      else if |sub| == 1 then [sub[0].(size := c.size)]
      else [Child(c.size, None, c.direction, sub)]
  }

  function Survivors(children: seq<Child>, gone: set<string>): seq<Child>
    decreases children, 1
  {
    if children == [] then []
    else Survivors(children[..|children| - 1], gone) + Left(children[|children| - 1], gone)
  }

  function Removed(children: seq<Child>, gone: set<string>): seq<Child>
    decreases children, 2
  {
    Normalized(Survivors(children, gone))
  }

  /** The survivors, then their sizes. */
  method RemovePaneChildren(children: seq<Child>, paneID: string) returns (result: seq<Child>)
    ensures result == Removed(children, {paneID})
    decreases children
  {
    result := [];
    for i := 0 to |children|
      invariant result == Survivors(children[..i], {paneID})
    {
      assert children[..i + 1][..i] == children[..i];
      var child := children[i];
      if child.pane.Some? && child.pane.value == paneID { continue; }
      if |child.children| > 0 {
        var sub := RemovePaneChildren(child.children, paneID);
        if |sub| == 0 { continue; }
        if |sub| == 1 {
          result := result + [Child(child.size, sub[0].pane, sub[0].direction, sub[0].children)];
        } else {
          result := result + [Child(child.size, None, child.direction, sub)];
        }
      } else {
        result := result + [child];
      }
    }
    assert children[..|children|] == children;
    result := NormalizeSizes(result);
  }

  method NormalizeSizes(children: seq<Child>) returns (result: seq<Child>)
    ensures result == Normalized(children)
  {
    result := children;
    if |children| == 0 { return; }
    var total := SumSizes(children);
    if total > 0.0 { result := Resized(children, total); }
  }

  method SumSizes(children: seq<Child>) returns (total: real)
    ensures total == Total(children)
  {
    total := 0.0;
    for i := 0 to |children|
      invariant total == Total(children[..i])
    {
      assert children[..i + 1][..i] == children[..i];
      total := total + children[i].size;
    }
    assert children[..|children|] == children;
  }

  method Resized(children: seq<Child>, total: real) returns (result: seq<Child>)
    requires total > 0.0 && total == Total(children)
    ensures result == Normalized(children)
  {
    result := children;
    for i := 0 to |result|
      invariant |result| == |children|
      invariant forall k :: 0 <= k < i ==> result[k] == Normalized(children)[k]
      invariant forall k :: i <= k < |result| ==> result[k] == children[k]
    {
      result := result[i := result[i].(size := result[i].size / total * 100.0)];
    }
  }

  // ------------------------------------------------------------------ panes

  /** The panes below, in order. */
  function Panes(children: seq<Child>): seq<string>
    decreases children, 1
  {
    if children == [] then []
    else Panes(children[..|children| - 1]) + PanesIn(children[|children| - 1])
  }

  function PanesIn(c: Child): seq<string>
    decreases c, 0
  {
    (if c.pane.Some? then [c.pane.value] else []) + Panes(c.children)
  }

  function Without(ids: seq<string>, gone: set<string>): seq<string> {
    if ids == [] then []
    else
      var last := ids[|ids| - 1];
      Without(ids[..|ids| - 1], gone) + (if last in gone then [] else [last])
  }

  lemma {:induction false} WithoutAppend(xs: seq<string>, ys: seq<string>, gone: set<string>)
    ensures Without(xs + ys, gone) == Without(xs, gone) + Without(ys, gone)
  {
    if ys == [] {
      assert xs + ys == xs;
    } else {
      var n := |ys| - 1;
      WithoutAppend(xs, ys[..n], gone);
      assert (xs + ys)[..|xs + ys| - 1] == xs + ys[..n];
    }
  }

  lemma {:induction false} PanesAppend(xs: seq<Child>, ys: seq<Child>)
    ensures Panes(xs + ys) == Panes(xs) + Panes(ys)
  {
    if ys == [] {
      assert xs + ys == xs;
    } else {
      var n := |ys| - 1;
      PanesAppend(xs, ys[..n]);
      assert (xs + ys)[..|xs + ys| - 1] == xs + ys[..n];
      assert Panes(xs) + Panes(ys[..n]) + PanesIn(ys[n]) == Panes(xs) + (Panes(ys[..n]) + PanesIn(ys[n]));
    }
  }

  /** Sizes say nothing about panes. */
  lemma {:induction false} PanesResized(xs: seq<Child>, ys: seq<Child>)
    requires |xs| == |ys| && forall i :: 0 <= i < |xs| ==> ys[i] == xs[i].(size := ys[i].size)
    ensures Panes(xs) == Panes(ys)
  {
    if xs != [] {
      var n := |xs| - 1;
      PanesResized(xs[..n], ys[..n]);
      assert PanesIn(xs[n]) == PanesIn(ys[n]);
    }
  }

  lemma {:induction false} PanesOfOne(c: Child)
    ensures Panes([c]) == PanesIn(c)
  {
    assert [c][..0] == [];
    assert Panes([]) + PanesIn(c) == PanesIn(c);
  }

  lemma {:induction false} KeepsOrderLeft(c: Child, gone: set<string>)
    requires ChildOK(c)
    ensures Panes(Left(c, gone)) == Without(PanesIn(c), gone)
    decreases c, 0
  {
    if c.pane.Some? {
      assert PanesIn(c) == [c.pane.value] && [c.pane.value][..0] == [];
      PanesOfOne(c);
    } else {
      KeepsOrder(c.children, gone);
      assert PanesIn(c) == Panes(c.children);
      var sub := Removed(c.children, gone);
      if |sub| == 1 {
        var kept := sub[0].(size := c.size);
        PanesOfOne(sub[0]);
        PanesOfOne(kept);
        assert PanesIn(kept) == PanesIn(sub[0]);
        assert sub == [sub[0]];
      } else if |sub| > 1 {
        var kept := Child(c.size, None, c.direction, sub);
        PanesOfOne(kept);
        assert PanesIn(kept) == Panes(sub);
      }
    }
  }

  /** Removing keeps every other pane, in order. */
  lemma {:induction false} KeepsOrder(children: seq<Child>, gone: set<string>)
    requires WellFormed(children)
    ensures Panes(Removed(children, gone)) == Without(Panes(children), gone)
    decreases children, 2
  {
    KeepsOrderOf(children, gone);
    PanesResized(Survivors(children, gone), Removed(children, gone));
  }

  lemma {:induction false} KeepsOrderOf(children: seq<Child>, gone: set<string>)
    requires WellFormed(children)
    ensures Panes(Survivors(children, gone)) == Without(Panes(children), gone)
    decreases children, 1
  {
    if children != [] {
      var n := |children| - 1;
      KeepsOrderOf(children[..n], gone);
      KeepsOrderLeft(children[n], gone);
      PanesAppend(Survivors(children[..n], gone), Left(children[n], gone));
      WithoutAppend(Panes(children[..n]), PanesIn(children[n]), gone);
    }
  }

  // ------------------------------------------------------------------ levels

  lemma {:induction false} TotalPositive(children: seq<Child>)
    requires WellFormed(children)
    ensures Total(children) >= 0.0 && (children != [] ==> Total(children) > 0.0)
  {
    if children != [] { TotalPositive(children[..|children| - 1]); }
  }

  lemma {:induction false} ScaledPrefix(children: seq<Child>, factor: real, n: nat)
    requires n <= |children|
    ensures Scaled(children, factor)[..n] == Scaled(children[..n], factor)
  {
    forall i | 0 <= i < n ensures Scaled(children, factor)[..n][i] == Scaled(children[..n], factor)[i] {
      assert children[..n][i] == children[i];
    }
  }

  lemma {:induction false} ScaledAppend(xs: seq<Child>, ys: seq<Child>, factor: real)
    ensures Scaled(xs + ys, factor) == Scaled(xs, factor) + Scaled(ys, factor)
  {
    var r := Scaled(xs, factor) + Scaled(ys, factor);
    forall i | 0 <= i < |xs + ys| ensures Scaled(xs + ys, factor)[i] == r[i] {
      var c := if i < |xs| then xs[i] else ys[i - |xs|];
      assert (xs + ys)[i] == c && r[i] == c.(size := c.size * factor);
    }
  }

  lemma {:induction false} TotalScaled(children: seq<Child>, factor: real)
    ensures Total(Scaled(children, factor)) == Total(children) * factor
  {
    if children != [] {
      var n := |children| - 1;
      TotalScaled(children[..n], factor);
      ScaledPrefix(children, factor, n);
    }
  }

  /** Normalizing is scaling, all siblings alike. */
  lemma {:induction false} NormalizedIsScaled(children: seq<Child>)
    requires Total(children) > 0.0
    ensures Normalized(children) == Scaled(children, 100.0 / Total(children))
  {
    var total := Total(children);
    forall i | 0 <= i < |children| ensures Normalized(children)[i] == Scaled(children, 100.0 / total)[i] {
      DivideThenMultiply(children[i].size, total);
    }
  }

  lemma {:induction false} DivideThenMultiply(x: real, total: real)
    requires total > 0.0
    ensures x / total * 100.0 == x * (100.0 / total)
  {
  }

  lemma {:induction false} NormalizedSums(children: seq<Child>)
    requires Total(children) > 0.0
    ensures Total(Normalized(children)) == 100.0
  {
    NormalizedIsScaled(children);
    TotalScaled(children, 100.0 / Total(children));
    assert Total(children) * (100.0 / Total(children)) == 100.0;
  }

  lemma {:induction false} NormalizedWellFormed(children: seq<Child>)
    requires WellFormed(children)
    ensures WellFormed(Normalized(children))
  {
    TotalPositive(children);
    var total := Total(children);
    forall i | 0 <= i < |children| ensures ChildOK(Normalized(children)[i]) {
      assert ChildOK(children[i]);
      PositiveShare(children[i].size, total);
    }
  }

  lemma {:induction false} PositiveShare(x: real, total: real)
    requires x > 0.0 && total > 0.0
    ensures x / total * 100.0 > 0.0
  {
    assert x / total > 0.0;
  }

  /** Every level sums to 100, and no split has fewer than two children. */
  predicate Tidy(children: seq<Child>) {
    && (children != [] ==> Total(children) == 100.0)
    && forall i :: 0 <= i < |children| ==> TidyBelow(children[i])
  }

  predicate TidyBelow(c: Child) {
    (c.children == [] || |c.children| >= 2) && Tidy(c.children)
  }

  lemma {:induction false} LeftIsTidy(c: Child, gone: set<string>)
    requires ChildOK(c)
    ensures forall i :: 0 <= i < |Left(c, gone)| ==> TidyBelow(Left(c, gone)[i]) && ChildOK(Left(c, gone)[i])
    decreases c, 0
  {
    if c.pane.None? {
      RemovedIsTidy(c.children, gone);
      var sub := Removed(c.children, gone);
      if |sub| == 1 {
        assert TidyBelow(sub[0]) && ChildOK(sub[0]);
      }
    }
  }

  lemma {:induction false} SurvivorsTidyBelow(children: seq<Child>, gone: set<string>)
    requires WellFormed(children)
    ensures var r := Survivors(children, gone);
            WellFormed(r) && forall i :: 0 <= i < |r| ==> TidyBelow(r[i])
    decreases children, 1
  {
    if children != [] {
      var n := |children| - 1;
      SurvivorsTidyBelow(children[..n], gone);
      LeftIsTidy(children[n], gone);
      var r := Survivors(children, gone);
      forall i | 0 <= i < |r| ensures TidyBelow(r[i]) && ChildOK(r[i]) {
        if i < |Survivors(children[..n], gone)| {
          assert r[i] == Survivors(children[..n], gone)[i];
        } else {
          assert r[i] == Left(children[n], gone)[0];
        }
      }
    }
  }

  /** After a removal every non-empty level sums to 100, and below the root no
      split has fewer than two children. */
  lemma {:induction false} RemovedIsTidy(children: seq<Child>, gone: set<string>)
    requires WellFormed(children)
    ensures Tidy(Removed(children, gone)) && WellFormed(Removed(children, gone))
    decreases children, 2
  {
    var r := Survivors(children, gone);
    SurvivorsTidyBelow(children, gone);
    TotalPositive(r);
    NormalizedWellFormed(r);
    if r != [] { NormalizedSums(r); }
    forall i | 0 <= i < |r| ensures TidyBelow(Normalized(r)[i]) { assert TidyBelow(r[i]); }
  }

  // ------------------------------------------------------------------ ratios

  /** The children that survive, by position. */
  function Sources(children: seq<Child>, gone: set<string>): seq<nat> {
    if children == [] then []
    else
      var n := |children| - 1;
      Sources(children[..n], gone) + (if Left(children[n], gone) == [] then [] else [n])
  }

  lemma {:induction false} SourcesAre(children: seq<Child>, gone: set<string>)
    ensures var src := Sources(children, gone);
            var r := Survivors(children, gone);
      && |src| == |r|
      && (forall k :: 0 <= k < |src| ==> src[k] < |children| && r[k].size == children[src[k]].size)
      && (forall j, k :: 0 <= j < k < |src| ==> src[j] < src[k])
  {
    if children != [] {
      var n := |children| - 1;
      SourcesAre(children[..n], gone);
      LeftKeepsSize(children[n], gone);
    }
  }

  lemma {:induction false} LeftKeepsSize(c: Child, gone: set<string>)
    ensures Left(c, gone) != [] ==> Left(c, gone)[0].size == c.size
  {
  }

  lemma {:induction false} EqualShares(x: real, y: real, total: real)
    requires total > 0.0
    ensures (x / total * 100.0) * y == (y / total * 100.0) * x
  {
    DivideThenMultiply(x, total);
    DivideThenMultiply(y, total);
    assert x * (100.0 / total) * y == y * (100.0 / total) * x;
  }

  lemma {:induction false} SharesKeepRatio(children: seq<Child>, j: nat, k: nat)
    requires Total(children) > 0.0 && j < |children| && k < |children|
    ensures Normalized(children)[j].size * children[k].size == Normalized(children)[k].size * children[j].size
  {
    EqualShares(children[j].size, children[k].size, Total(children));
  }

  predicate SameRatio(x: real, y: real, x': real, y': real) {
    x * y' == y * x'
  }

  lemma {:induction false} SurvivorsKeepRatio(children: seq<Child>, gone: set<string>, j: nat, k: nat)
    requires WellFormed(children) && j < |Survivors(children, gone)| && k < |Survivors(children, gone)|
    ensures var s := Survivors(children, gone);
            SameRatio(Normalized(s)[j].size, Normalized(s)[k].size, s[j].size, s[k].size)
  {
    SurvivorsTidyBelow(children, gone);
    TotalPositive(Survivors(children, gone));
    SharesKeepRatio(Survivors(children, gone), j, k);
  }

  /** Surviving siblings keep the ratios of the sizes they had. */
  lemma {:induction false} KeepsRatios(children: seq<Child>, gone: set<string>, j: nat, k: nat)
    requires WellFormed(children) && j < |Removed(children, gone)| && k < |Removed(children, gone)|
    ensures var src := Sources(children, gone);
            var r := Removed(children, gone);
      && |src| == |r| && src[j] < |children| && src[k] < |children|
      && SameRatio(r[j].size, r[k].size, children[src[j]].size, children[src[k]].size)
  {
    SourcesAre(children, gone);
    SurvivorsKeepRatio(children, gone, j, k);
  }

  // ---------------------------------------------------------------- partings

  /** Where two panes part: never, or at a level with this direction, in
      branches of these sizes. */
  datatype Parting = Together | Parted(direction: string, first: real, second: real)

  /** The size of the last child that holds the pane. */
  function SizeOf(children: seq<Child>, p: string): real {
    if children == [] then 0.0
    else
      var last := children[|children| - 1];
      if p in PanesIn(last) then last.size else SizeOf(children[..|children| - 1], p)
  }

  function Part(children: seq<Child>, direction: string, p: string, q: string): Parting
    decreases children
  {
    if children == [] then Together
    else
      var n := |children| - 1;
      var last := children[n];
      if p in PanesIn(last) && q in PanesIn(last) then Part(last.children, last.direction, p, q)
      else if p in PanesIn(last) || q in PanesIn(last) then Parted(direction, SizeOf(children, p), SizeOf(children, q))
      else Part(children[..n], direction, p, q)
  }

  /** The same parting, in branches that grew by the same factor. */
  predicate Alike(a: Parting, b: Parting, factor: real) {
    && (a.Together? <==> b.Together?)
    && (a.Parted? ==> b.direction == a.direction && b.first == a.first * factor && b.second == a.second * factor)
  }

  lemma {:induction false} AlikeTwice(a: Parting, b: Parting, c: Parting, f: real, g: real)
    requires Alike(a, b, f) && Alike(b, c, g)
    ensures Alike(a, c, f * g)
  {
  }

  lemma {:induction false} SizeOfScaled(children: seq<Child>, factor: real, p: string)
    ensures SizeOf(Scaled(children, factor), p) == SizeOf(children, p) * factor
  {
    if children != [] {
      var n := |children| - 1;
      ScaledPrefix(children, factor, n);
      SizeOfScaled(children[..n], factor, p);
    }
  }

  lemma {:induction false} PartScaled(children: seq<Child>, factor: real, direction: string, p: string, q: string)
    returns (f: real)
    requires factor > 0.0
    ensures f > 0.0 && Alike(Part(children, direction, p, q), Part(Scaled(children, factor), direction, p, q), f)
  {
    f := 1.0;
    if children != [] {
      var n := |children| - 1;
      var last := children[n];
      ScaledPrefix(children, factor, n);
      if p in PanesIn(last) && q in PanesIn(last) {
      } else if p in PanesIn(last) || q in PanesIn(last) {
        SizeOfScaled(children, factor, p);
        SizeOfScaled(children, factor, q);
        f := factor;
      } else {
        f := PartScaled(children[..n], factor, direction, p, q);
      }
    }
  }

  lemma {:induction false} PartNormalized(children: seq<Child>, direction: string, p: string, q: string)
    returns (f: real)
    requires WellFormed(children)
    ensures f > 0.0 && Alike(Part(children, direction, p, q), Part(Normalized(children), direction, p, q), f)
  {
    if children == [] {
      f := 1.0;
    } else {
      TotalPositive(children);
      NormalizedIsScaled(children);
      PositiveFactor(Total(children));
      f := PartScaled(children, 100.0 / Total(children), direction, p, q);
    }
  }

  /** A pane that stays is in what is left of a child exactly if it was in it. */
  lemma {:induction false} StaysIn(c: Child, gone: set<string>, p: string)
    requires ChildOK(c) && p !in gone
    ensures Left(c, gone) == [] ==> p !in PanesIn(c)
    ensures Left(c, gone) != [] ==> (p in PanesIn(Left(c, gone)[0]) <==> p in PanesIn(c))
  {
    KeepsOrderLeft(c, gone);
    WithoutHas(PanesIn(c), gone, p);
    if Left(c, gone) != [] {
      assert Left(c, gone) == [Left(c, gone)[0]];
      PanesOfOne(Left(c, gone)[0]);
    }
  }

  lemma {:induction false} WithoutHas(ids: seq<string>, gone: set<string>, p: string)
    requires p !in gone
    ensures p in Without(ids, gone) <==> p in ids
  {
    if ids != [] { WithoutHas(ids[..|ids| - 1], gone, p); }
  }

  lemma {:induction false} SizeOfSurvivors(children: seq<Child>, gone: set<string>, p: string)
    requires WellFormed(children) && p !in gone
    ensures SizeOf(Survivors(children, gone), p) == SizeOf(children, p)
  {
    if children != [] {
      var n := |children| - 1;
      SizeOfSurvivors(children[..n], gone, p);
      StaysIn(children[n], gone, p);
      LeftKeepsSize(children[n], gone);
      LastSurvivor(children, gone);
    }
  }

  /** The last child is gone, or what is left of it comes last. */
  lemma {:induction false} LastSurvivor(children: seq<Child>, gone: set<string>)
    requires children != []
    ensures var n := |children| - 1;
            var left := Left(children[n], gone);
            var r := Survivors(children, gone);
      && (left == [] ==> r == Survivors(children[..n], gone))
      && (left != [] ==> r != [] && r[|r| - 1] == left[0] && r[..|r| - 1] == Survivors(children[..n], gone))
  {
  }

  lemma {:induction false} PartOfOne(z: Child, direction: string, p: string, q: string)
    requires p in PanesIn(z) && q in PanesIn(z)
    ensures Part([z], direction, p, q) == Part(z.children, z.direction, p, q)
  {
  }

  /** Two panes in one child part below it as they did. */
  lemma {:induction false} LeftKeepsParting(c: Child, gone: set<string>, p: string, q: string) returns (f: real)
    requires ChildOK(c) && p !in gone && q !in gone && p in PanesIn(c) && q in PanesIn(c) && Left(c, gone) != []
    ensures var left := Left(c, gone)[0];
      f > 0.0 && Alike(Part(c.children, c.direction, p, q), Part(left.children, left.direction, p, q), f)
    decreases c, 0
  {
    f := 1.0;
    if c.children != [] {
      f := KeepsParting(c.children, gone, c.direction, p, q);
      var sub := Removed(c.children, gone);
      if |sub| == 1 {
        StaysIn(c, gone, p);
        StaysIn(c, gone, q);
        assert sub == [sub[0]];
        PanesSized(sub[0], c.size);
        PartOfOne(sub[0], c.direction, p, q);
      }
    }
  }

  lemma {:induction false} PanesSized(c: Child, size: real)
    ensures PanesIn(c.(size := size)) == PanesIn(c)
  {
  }

  lemma {:induction false} SurvivorsKeepParting(children: seq<Child>, gone: set<string>, direction: string, p: string,
      q: string) returns (f: real)
    requires WellFormed(children) && p !in gone && q !in gone
    ensures f > 0.0 && Alike(Part(children, direction, p, q), Part(Survivors(children, gone), direction, p, q), f)
    decreases children, 1
  {
    f := 1.0;
    if children != [] {
      var n := |children| - 1;
      var last := children[n];
      StaysIn(last, gone, p);
      StaysIn(last, gone, q);
      LastSurvivor(children, gone);
      if p in PanesIn(last) && q in PanesIn(last) {
        f := LeftKeepsParting(last, gone, p, q);
      } else if p in PanesIn(last) || q in PanesIn(last) {
        SizeOfSurvivors(children, gone, p);
        SizeOfSurvivors(children, gone, q);
      } else {
        f := SurvivorsKeepParting(children[..n], gone, direction, p, q);
      }
    }
  }

  /** Any two panes that stay are parted as they were: side by side or stacked,
      as before, and in branches whose sizes keep their ratio, however many
      splits between them went. */
  lemma {:induction false} KeepsParting(children: seq<Child>, gone: set<string>, direction: string, p: string,
      q: string) returns (f: real)
    requires WellFormed(children) && p !in gone && q !in gone
    ensures f > 0.0 && Alike(Part(children, direction, p, q), Part(Removed(children, gone), direction, p, q), f)
    decreases children, 2
  {
    var f1 := SurvivorsKeepParting(children, gone, direction, p, q);
    SurvivorsTidyBelow(children, gone);
    var f2 := PartNormalized(Survivors(children, gone), direction, p, q);
    AlikeTwice(Part(children, direction, p, q), Part(Survivors(children, gone), direction, p, q),
               Part(Removed(children, gone), direction, p, q), f1, f2);
    f := f1 * f2;
  }

  // ------------------------------------------------------------- composition

  lemma {:induction false} LeftScaled(c: Child, d: Child, gone: set<string>, factor: real)
    requires d == c.(size := d.size) && d.size == c.size * factor
    ensures Left(d, gone) == Scaled(Left(c, gone), factor)
  {
    LeftResized(c, gone, d.size);
    LeftKeepsSize(c, gone);
    var r := Left(c, gone);
    if r != [] {
      assert Scaled(r, factor)[0] == r[0].(size := d.size);
    }
  }

  lemma {:induction false} SurvivorsScaled(children: seq<Child>, gone: set<string>, factor: real)
    ensures Survivors(Scaled(children, factor), gone) == Scaled(Survivors(children, gone), factor)
  {
    if children == [] {
      assert Scaled(children, factor) == [] && Scaled(Survivors(children, gone), factor) == [];
    } else {
      var n := |children| - 1;
      var scaled := Scaled(children, factor);
      SurvivorsScaled(children[..n], gone, factor);
      ScaledPrefix(children, factor, n);
      LeftScaled(children[n], scaled[n], gone, factor);
      ScaledAppend(Survivors(children[..n], gone), Left(children[n], gone), factor);
    }
  }

  /** A child's size passes through its shrinking. */
  lemma {:induction false} LeftResized(c: Child, gone: set<string>, size: real)
    ensures |Left(c.(size := size), gone)| == |Left(c, gone)|
    ensures Left(c, gone) != [] ==> Left(c.(size := size), gone)[0] == Left(c, gone)[0].(size := size)
  {
  }

  lemma {:induction false} CancelScale(x: real, total: real, factor: real)
    requires total > 0.0 && factor > 0.0
    ensures total * factor > 0.0 && x * factor / (total * factor) * 100.0 == x / total * 100.0
  {
    assert x / total * (total * factor) == x * factor;
  }

  lemma {:induction false} ShareIgnoresScale(children: seq<Child>, factor: real, i: nat, total: real)
    requires Total(children) > 0.0 && factor > 0.0 && i < |children| && total == Total(children) * factor
    ensures total > 0.0
    ensures Scaled(children, factor)[i].(size := Scaled(children, factor)[i].size / total * 100.0)
         == children[i].(size := children[i].size / Total(children) * 100.0)
  {
    CancelScale(children[i].size, Total(children), factor);
  }

  lemma {:induction false} NormalizedAt(children: seq<Child>, total: real, i: nat)
    requires total == Total(children) && total > 0.0 && i < |children|
    ensures Normalized(children)[i] == children[i].(size := children[i].size / total * 100.0)
  {
  }

  lemma {:induction false} NormalizedIgnoresScale(children: seq<Child>, factor: real)
    requires Total(children) > 0.0 && factor > 0.0
    ensures Normalized(Scaled(children, factor)) == Normalized(children)
  {
    forall i: nat | i < |children| ensures Normalized(Scaled(children, factor))[i] == Normalized(children)[i] {
      NormalizedIgnoresScaleAt(children, factor, i);
    }
  }

  lemma {:induction false} NormalizedIgnoresScaleAt(children: seq<Child>, factor: real, i: nat)
    requires Total(children) > 0.0 && factor > 0.0 && i < |children|
    ensures Normalized(Scaled(children, factor))[i] == Normalized(children)[i]
  {
    var total := Total(Scaled(children, factor));
    TotalScaled(children, factor);
    ShareIgnoresScale(children, factor, i, total);
    NormalizedAt(children, Total(children), i);
    NormalizedAt(Scaled(children, factor), total, i);
  }

  lemma {:induction false} RemovedOfScaled(children: seq<Child>, gone: set<string>, factor: real)
    requires WellFormed(children) && factor > 0.0
    ensures Removed(Scaled(children, factor), gone) == Removed(children, gone)
  {
    SurvivorsScaled(children, gone, factor);
    var r := Survivors(children, gone);
    SurvivorsTidyBelow(children, gone);
    TotalPositive(r);
    if r == [] { assert Scaled(r, factor) == []; } else { NormalizedIgnoresScale(r, factor); }
  }

  lemma {:induction false} PositiveFactor(total: real)
    requires total > 0.0
    ensures 100.0 / total > 0.0
  {
  }

  /** Removing from normalized survivors is removing from the survivors. */
  lemma {:induction false} RemovedOfNormalized(children: seq<Child>, gone: set<string>)
    requires WellFormed(children)
    ensures Removed(Normalized(children), gone) == Removed(children, gone)
  {
    TotalPositive(children);
    if children != [] {
      NormalizedIsScaled(children);
      PositiveFactor(Total(children));
      RemovedOfScaled(children, gone, 100.0 / Total(children));
    }
  }

  lemma {:induction false} SurvivorsAppend(xs: seq<Child>, ys: seq<Child>, gone: set<string>)
    ensures Survivors(xs + ys, gone) == Survivors(xs, gone) + Survivors(ys, gone)
  {
    if ys == [] {
      assert xs + ys == xs;
    } else {
      var n := |ys| - 1;
      SurvivorsAppend(xs, ys[..n], gone);
      assert (xs + ys)[..|xs + ys| - 1] == xs + ys[..n];
    }
  }

  lemma {:induction false} SurvivorsOfOne(c: Child, gone: set<string>)
    ensures Survivors([c], gone) == Left(c, gone)
  {
    assert [c][..0] == [];
  }

  /** What one removal leaves of a child, the next one shrinks as if both were
      removed at once. */
  lemma {:induction false} LeftComposes(c: Child, a: set<string>, b: set<string>)
    requires ChildOK(c)
    ensures Survivors(Left(c, a), b) == Left(c, a + b)
    decreases c, 0
  {
    if c.pane.Some? {
      if c.pane.value !in a { SurvivorsOfOne(c, b); }
    } else {
      RemovalsCompose(c.children, a, b);
      RemovedIsTidy(c.children, a);
      var sub := Removed(c.children, a);
      if |sub| == 1 {
        CollapseComposes(c, sub[0], b);
        SurvivorsOfOne(sub[0].(size := c.size), b);
        assert sub == [sub[0]];
      } else if |sub| > 1 {
        SurvivorsOfOne(Child(c.size, None, c.direction, sub), b);
      }
    }
  }

  /** A child that took its parent's place shrinks as it would have below it. */
  lemma {:induction false} CollapseComposes(c: Child, x: Child, b: set<string>)
    requires ChildOK(x)
    ensures var sub := Removed([x], b);
            Left(x.(size := c.size), b) == if sub == [] then [] else [sub[0].(size := c.size)]
    ensures |Removed([x], b)| <= 1
  {
    SurvivorsOfOne(x, b);
    LeftResized(x, b, c.size);
  }

  lemma {:induction false} SurvivorsCompose(children: seq<Child>, a: set<string>, b: set<string>)
    requires WellFormed(children)
    ensures Survivors(Survivors(children, a), b) == Survivors(children, a + b)
    decreases children, 1
  {
    if children != [] {
      var n := |children| - 1;
      SurvivorsCompose(children[..n], a, b);
      LeftComposes(children[n], a, b);
      SurvivorsAppend(Survivors(children[..n], a), Left(children[n], a), b);
    }
  }

  /** Removing some panes and then others is removing all of them at once:
      removals commute, and repeating one changes nothing. */
  lemma {:induction false} RemovalsCompose(children: seq<Child>, a: set<string>, b: set<string>)
    requires WellFormed(children)
    ensures Removed(Removed(children, a), b) == Removed(children, a + b)
    decreases children, 2
  {
    SurvivorsTidyBelow(children, a);
    RemovedOfNormalized(Survivors(children, a), b);
    SurvivorsCompose(children, a, b);
  }

  predicate NoneOf(ids: seq<string>, gone: set<string>) {
    forall id :: id in ids ==> id !in gone
  }

  lemma {:induction false} LeftWhole(c: Child, gone: set<string>)
    requires ChildOK(c) && TidyBelow(c) && NoneOf(PanesIn(c), gone)
    ensures Left(c, gone) == [c]
    decreases c, 0
  {
    if c.pane.Some? {
      assert c.pane.value in PanesIn(c);
    } else {
      assert PanesIn(c) == Panes(c.children);
      NothingToRemove(c.children, gone);
    }
  }

  lemma {:induction false} SurvivorsWhole(children: seq<Child>, gone: set<string>)
    requires WellFormed(children) && NoneOf(Panes(children), gone)
    requires forall i :: 0 <= i < |children| ==> TidyBelow(children[i])
    ensures Survivors(children, gone) == children
    decreases children, 1
  {
    if children != [] {
      var n := |children| - 1;
      assert forall id :: id in Panes(children[..n]) || id in PanesIn(children[n]) ==> id in Panes(children);
      SurvivorsWhole(children[..n], gone);
      LeftWhole(children[n], gone);
      assert children[..n] + [children[n]] == children;
    }
  }

  lemma {:induction false} NormalizedWhole(children: seq<Child>)
    requires Total(children) == 100.0
    ensures Normalized(children) == children
  {
    forall i | 0 <= i < |children| ensures Normalized(children)[i] == children[i] { NormalizedAt(children, 100.0, i); }
  }

  /** A tidy tree without the panes to remove stays exactly as it is: sizes,
      directions and nesting. */
  lemma {:induction false} NothingToRemove(children: seq<Child>, gone: set<string>)
    requires WellFormed(children) && Tidy(children) && NoneOf(Panes(children), gone)
    ensures Removed(children, gone) == children
    decreases children, 2
  {
    SurvivorsWhole(children, gone);
    if children != [] { NormalizedWhole(children); }
  }

  lemma {:induction false} RemovalIdempotent(children: seq<Child>, id: string)
    requires WellFormed(children)
    ensures Removed(Removed(children, {id}), {id}) == Removed(children, {id})
  {
    RemovalsCompose(children, {id}, {id});
    assert {id} + {id} == {id};
  }

  lemma {:induction false} RemovalsCommute(children: seq<Child>, id: string, other: string)
    requires WellFormed(children)
    ensures Removed(Removed(children, {id}), {other}) == Removed(Removed(children, {other}), {id})
  {
    RemovalsCompose(children, {id}, {other});
    RemovalsCompose(children, {other}, {id});
    assert {id} + {other} == {other} + {id};
  }
}
