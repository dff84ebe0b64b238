/** Workspace changes, each undone exactly if it fails. */
module Workspaces {
  // Adding, removing, selecting and changing the workspaces of a configuration
  // keeps one of them active and mirrored, and a change that cannot be
  // saved is undone exactly.

  import opened Text
  import opened PaneTree

  datatype Layout = Layout(pane: Option<string>, direction: string, children: seq<Child>)

  datatype Item = Item(id: string, title: string, layout: Layout)

  /** `layout` is the top-level layout, which mirrors the active item's. */
  datatype State = State(layout: Layout, active: string, tabPosition: string, width: int, items: seq<Item>)

  const DEFAULT_ID := "default"
  const DEFAULT_TITLE := "Default"
  const DEFAULT_TAB_POSITION := "top"
  const DEFAULT_WIDTH := 280
  const HORIZONTAL := "horizontal"

  // ---------------------------------------------------------- normalization

  /** A root pane becomes the only child; a missing direction is horizontal. */
  function NormalLayout(l: Layout): Layout {
    var l1 := if l.pane.Some? && l.children == []
              then l.(children := [Child(100.0, l.pane, "", [])], pane := None) else l;
    if l1.direction == "" then l1.(direction := HORIZONTAL) else l1
  }

  function NormalItems(items: seq<Item>): (r: seq<Item>)
    ensures |r| == |items|
  {
    seq(|items|, i requires 0 <= i < |items| => items[i].(layout := NormalLayout(items[i].layout)))
  }

  /** The first item with the ID, or the number of items. */
  function Find(items: seq<Item>, id: string): (i: nat)
    ensures i <= |items|
    ensures i < |items| ==> items[i].id == id
    ensures forall j :: 0 <= j < i ==> items[j].id != id
  {
    if items == [] then 0
    else
      var n := |items| - 1;
      var i := Find(items[..n], id);
      if i < n then i else if items[n].id == id then n else n + 1
  }

  predicate Has(s: State, id: string) {
    Find(s.items, id) < |s.items|
  }

  function LayoutOf(s: State, id: string): Layout
    requires Has(s, id)
  {
    s.items[Find(s.items, id)].layout
  }

  function Mirrored(s: State): State {
    if Has(s, s.active) then s.(layout := LayoutOf(s, s.active)) else s
  }

  function NormalView(s: State): State {
    var s1 := if s.items == []
              then State(s.layout, DEFAULT_ID, DEFAULT_TAB_POSITION, DEFAULT_WIDTH,
                         [Item(DEFAULT_ID, DEFAULT_TITLE, s.layout)])
              else s;
    s1.(tabPosition := if s1.tabPosition == "" then DEFAULT_TAB_POSITION else s1.tabPosition,
        width := if s1.width == 0 then DEFAULT_WIDTH else s1.width,
        active := if s1.active == "" then s1.items[0].id else s1.active,
        items := NormalItems(s1.items))
  }

  function Normal(s: State): State {
    Mirrored(NormalView(s))
  }

  // -------------------------------------------------------------- operations

  function SetActive(s: State, id: string): State {
    if Has(s, id) then s.(active := id, layout := LayoutOf(s, id)) else s
  }

  function UpdateLayout(s: State, id: string, l: Layout): State {
    if !Has(s, id) then s
    else
      var i := Find(s.items, id);
      s.(items := s.items[i := s.items[i].(layout := l)], layout := if s.active == id then l else s.layout)
  }

  /** "workspace-n" for the first n from `start` on that no item has. */
  ghost predicate IsNextID(s: State, start: nat, id: string) {
    && !Has(s, id)
    && exists n: nat :: start <= n && id == "workspace-" + Itoa(n)
         && forall m: nat :: start <= m < n ==> Has(s, "workspace-" + Itoa(m))
  }

  function AllPanes(items: seq<Item>): seq<string> {
    if items == [] then [] else AllPanes(items[..|items| - 1]) + Panes(items[|items| - 1].layout.children)
  }

  ghost predicate IsNextPane(s: State, base: string, pane: string) {
    && pane !in AllPanes(s.items)
    && (pane == base || (base in AllPanes(s.items) && exists n: nat :: 2 <= n && pane == base + "-" + Itoa(n)))
  }

  function SinglePane(pane: string): Layout {
    Layout(None, HORIZONTAL, [Child(100.0, Some(pane), "", [])])
  }

  /** A new workspace, active; its ID and its pane's are found fresh. */
  function Added(s0: State, id: string, pane: string): State {
    var s := Normal(s0);
    var item := Item(id, "Workspace " + Itoa(|s.items| + 1), SinglePane(pane));
    s.(items := s.items + [item], active := id, layout := item.layout)
  }

  function Dropped(items: seq<Item>, i: nat): seq<Item>
    requires i < |items|
  {
    items[..i] + items[i + 1..]
  }

  /** The item goes; if it was active, its neighbour takes over. */
  function Cut(s: State, id: string): State {
    if !Has(s, id) then s
    else
      var i := Find(s.items, id);
      var items := Dropped(s.items, i);
      if s.active == id && items != [] then
        var next := if i < |items| then i else |items| - 1;
        s.(items := items, active := items[next].id, layout := items[next].layout)
      else s.(items := items)
  }

  function Deleted(s: State, id: string): State {
    Cut(Normal(s), id)
  }

  function Renamed(s0: State, id: string, title: string): State {
    var s := Normal(s0);
    if !Has(s, id) then s
    else
      var i := Find(s.items, id);
      s.(items := s.items[i := s.items[i].(title := title)])
  }

  function PaneRemoved(l: Layout, pane: string): Layout {
    l.(children := Removed(l.children, {pane}))
  }

  function PanesRemoved(items: seq<Item>, pane: string): (r: seq<Item>)
    ensures |r| == |items|
  {
    seq(|items|, i requires 0 <= i < |items| => items[i].(layout := PaneRemoved(items[i].layout, pane)))
  }

  function WithoutPane(s0: State, pane: string): State {
    var s := Normal(s0);
    Mirrored(s.(items := PanesRemoved(s.items, pane)))
  }

  // ------------------------------------------------------------- invariant

  predicate Distinct(items: seq<Item>) {
    forall i, j :: 0 <= i < j < |items| ==> items[i].id != items[j].id
  }

  /** IDs are unique, the active one names an item, and the top-level layout is
      that item's. */
  predicate Good(s: State) {
    Distinct(s.items) && Has(s, s.active) && s.layout == LayoutOf(s, s.active)
  }

  /** Items that only changed besides their IDs are found where they were. */
  lemma {:induction false} FindSame(items: seq<Item>, items': seq<Item>, id: string)
    requires |items| == |items'| && forall i :: 0 <= i < |items| ==> items'[i].id == items[i].id
    ensures Find(items', id) == Find(items, id)
  {
  }

  /** Loading makes a configuration good exactly if its IDs are unique and its
      active ID, if any, names an item. */
  lemma {:induction false} NormalIsGood(s: State)
    ensures Good(Normal(s)) <==> Distinct(s.items) && (s.items == [] || s.active == "" || Has(s, s.active))
  {
    var v := NormalView(s);
    if s.items != [] { FindSame(s.items, v.items, s.active); }
    if v.active == v.items[0].id { assert Find(v.items, v.active) == 0; }
  }

  lemma {:induction false} NormalKeeps(s: State)
    requires Good(s)
    ensures var v := Normal(s);
      && Good(v) && |v.items| == |s.items| && (forall i :: 0 <= i < |s.items| ==> v.items[i].id == s.items[i].id)
      && (s.active != "" ==> v.active == s.active)
  {
    NormalIsGood(s);
  }

  lemma {:induction false} AddedGood(s: State, id: string, pane: string)
    requires Good(s) && !Has(Normal(s), id)
    ensures Good(Added(s, id, pane))
  {
    NormalKeeps(s);
  }

  /** Dropping one of distinct items leaves every other to be found. */
  lemma {:induction false} DroppedFinds(items: seq<Item>, i: nat, id: string)
    requires Distinct(items) && i < |items|
    ensures Distinct(Dropped(items, i))
    ensures var rest := Dropped(items, i);
            var a := Find(items, id);
            a < |items| && a != i ==> Find(rest, id) < |rest| && rest[Find(rest, id)] == items[a]
  {
    var rest := Dropped(items, i);
    forall j, k | 0 <= j < k < |rest| ensures rest[j].id != rest[k].id {
      assert rest[j] == items[if j < i then j else j + 1];
      assert rest[k] == items[if k < i then k else k + 1];
    }
    var a := Find(items, id);
    if a < |items| && a != i {
      var b := if a < i then a else a - 1;
      assert rest[b] == items[a];
      assert Find(rest, id) == b;
    }
  }

  lemma {:induction false} CutGood(s: State, id: string)
    requires Good(s) && |s.items| >= 2
    ensures Good(Cut(s, id)) && Cut(s, id).items != []
  {
    if Has(s, id) {
      var i := Find(s.items, id);
      var items := Dropped(s.items, i);
      DroppedFinds(s.items, i, s.active);
      if s.active == id {
        var next := if i < |items| then i else |items| - 1;
        assert Find(items, items[next].id) == next;
      }
    }
  }

  lemma {:induction false} DeletedGood(s: State, id: string)
    requires Good(s) && |s.items| >= 2
    ensures Good(Deleted(s, id)) && Deleted(s, id).items != []
  {
    NormalKeeps(s);
    CutGood(Normal(s), id);
  }

  lemma {:induction false} UpdatedGood(s: State, id: string, l: Layout)
    requires Good(s)
    ensures Good(UpdateLayout(s, id, l))
  {
    if Has(s, id) {
      var s' := UpdateLayout(s, id, l);
      FindSame(s.items, s'.items, s.active);
      if s.active != id { assert Find(s.items, s.active) != Find(s.items, id); }
    }
  }

  lemma {:induction false} RenamedGood(s: State, id: string, title: string)
    requires Good(s)
    ensures Good(Renamed(s, id, title))
  {
    NormalKeeps(s);
    var v := Normal(s);
    FindSame(v.items, Renamed(s, id, title).items, v.active);
  }

  lemma {:induction false} WithoutPaneGood(s: State, pane: string)
    requires Good(s)
    ensures Good(WithoutPane(s, pane))
  {
    NormalKeeps(s);
    var v := Normal(s);
    FindSame(v.items, WithoutPane(s, pane).items, v.active);
  }

  // ------------------------------------------------------------------- runs

  /** A request that changes the workspaces. `works` says whether everything
      that may fail after the change, a session or the save, succeeded. */
  datatype Request =
    | Post(id: string, pane: string)
    | Delete(id: string)
    | Activate(id: string)
    | PutLayout(id: string, layout: Layout)
    | PutActiveLayout(layout: Layout)
    | Rename(id: string, title: string)
    | DeletePane(pane: string)
    | Place(tabPosition: string)
    | Widen(width: int)

  datatype Change = Done(state: State) | NotFound(state: State)

  /** Deleting the last workspace is refused before anything changes. */
  ghost predicate Possible(s: State, r: Request) {
    match r
    case Post(id, pane) => IsNextID(Normal(s), |Normal(s).items| + 1, id) && IsNextPane(Normal(s), id + "-main", pane)
    case Delete(_) => |NormalView(s).items| > 1
    case _ => true
  }

  function Changed(s: State, r: Request): Change {
    match r
    case Post(id, pane) => Done(Added(s, id, pane))
    case Delete(id) => if Has(Normal(s), id) then Done(Deleted(s, id)) else NotFound(Normal(s))
    case Activate(id) => if Has(s, id) then Done(SetActive(s, id)) else NotFound(s)
    case PutLayout(id, l) => if Has(s, id) then Done(UpdateLayout(s, id, NormalLayout(l))) else NotFound(s)
    case PutActiveLayout(_) => Done(s)
    case Rename(id, title) => if Has(Normal(s), id) then Done(Renamed(s, id, title)) else NotFound(Normal(s))
    case DeletePane(pane) => Done(WithoutPane(s, pane))
    case Place(p) => Done(Normal(s).(tabPosition := p))
    case Widen(w) => Done(Normal(s).(width := w))
  }

  /** Saving a layout first puts it into the active workspace. */
  function WithActiveLayout(s: State, l: Layout): State {
    var n := Normal(Normal(s));
    if Has(n, n.active) then UpdateLayout(n, n.active, l) else n.(layout := l)
  }

  /** What saving makes of a changed state. */
  function Persisted(s: State, r: Request): State {
    match r
    case PutActiveLayout(l) => WithActiveLayout(s, NormalLayout(l))
    case DeletePane(_) => WithActiveLayout(s, s.layout)
    case _ => Normal(s)
  }

  /** The state after the request: the change, saved; or all as it was. The
      requests below compute it, rolling back what they changed in place. */
  function Answered(s: State, r: Request, works: bool): State {
    match Changed(s, r)
    case NotFound(s') => s'
    case Done(s') => if works then Persisted(s', r) else s
  }

  ghost predicate AllPossible(s: State, requests: seq<(Request, bool)>)
    decreases requests
  {
    requests == []
    || (Possible(s, requests[0].0) && AllPossible(Answered(s, requests[0].0, requests[0].1), requests[1..]))
  }

  ghost function After(s: State, requests: seq<(Request, bool)>): State
    requires AllPossible(s, requests)
    decreases requests
  {
    if requests == [] then s else After(Answered(s, requests[0].0, requests[0].1), requests[1..])
  }

  lemma {:induction false} AnsweredGood(s: State, r: Request, works: bool)
    requires Good(s) && Possible(s, r)
    ensures Good(Answered(s, r, works))
  {
    NormalKeeps(s);
    match r {
      case Post(id, pane) => AddedGood(s, id, pane);
      case Delete(id) => DeletedGood(s, id);
      case PutLayout(id, l) => UpdatedGood(s, id, NormalLayout(l));
      case Rename(id, title) => RenamedGood(s, id, title);
      case DeletePane(pane) => WithoutPaneGood(s, pane);
      case _ =>
    }
    if Changed(s, r).Done? { PersistedGood(Changed(s, r).state, r); }
  }

  lemma {:induction false} PersistedGood(s: State, r: Request)
    requires Good(s)
    ensures Good(Persisted(s, r))
  {
    NormalKeeps(s);
    NormalKeeps(Normal(s));
    var n := Normal(Normal(s));
    match r {
      case PutActiveLayout(l) => UpdatedGood(n, n.active, NormalLayout(l));
      case DeletePane(_) => UpdatedGood(n, n.active, s.layout);
      case _ =>
    }
  }

  /** Through every sequence of requests, failed ones included, IDs stay unique,
      the active one names an item, and the layout mirrors it. */
  lemma {:induction false} StaysGood(s: State, requests: seq<(Request, bool)>)
    requires Good(s) && AllPossible(s, requests)
    ensures Good(After(s, requests))
    decreases requests
  {
    if requests != [] {
      AnsweredGood(s, requests[0].0, requests[0].1);
      StaysGood(Answered(s, requests[0].0, requests[0].1), requests[1..]);
    }
  }

  // ------------------------------------------------ what each request does

  /** The item of this ID has the title and layout, every other is as it was. */
  predicate ItemIs(v: seq<Item>, r: seq<Item>, id: string, title: string, l: Layout) {
    && |r| == |v|
    && forall i :: 0 <= i < |v| ==>
         && (v[i].id != id ==> r[i] == v[i])
         && (v[i].id == id ==> r[i].id == id && r[i].title == title && r[i].layout == l)
  }

  /** Nothing is left to normalize. */
  predicate IsNormal(s: State) {
    && s.items != [] && s.tabPosition != "" && s.width != 0 && (s.active == "" ==> s.items[0].id == "")
    && (forall i :: 0 <= i < |s.items| ==> NormalLayout(s.items[i].layout) == s.items[i].layout)
    && (Has(s, s.active) ==> s.layout == LayoutOf(s, s.active))
  }

  lemma {:induction false} NormalIsSelf(s: State)
    requires IsNormal(s)
    ensures Normal(s) == s
  {
    assert NormalItems(s.items) == s.items;
  }

  /** Normalizing keeps IDs, titles and what is set. */
  lemma {:induction false} NormalFields(s: State)
    requires s.items != []
    ensures var v := Normal(s);
      && v.items == NormalItems(s.items)
      && v.active == (if s.active == "" then s.items[0].id else s.active)
      && (Has(s, v.active) <==> Has(v, v.active))
      && v.layout == (if Has(s, v.active) then NormalLayout(LayoutOf(s, v.active)) else s.layout)
      && v.tabPosition == (if s.tabPosition == "" then DEFAULT_TAB_POSITION else s.tabPosition)
      && v.width == (if s.width == 0 then DEFAULT_WIDTH else s.width)
  {
    FindSame(s.items, NormalItems(s.items), Normal(s).active);
  }

  /** A configuration without workspaces gets one around its layout, with the
      settings a new configuration has. */
  lemma {:induction false} NormalOfNone(s: State)
    requires s.items == []
    ensures var l := NormalLayout(s.layout);
      Normal(s) == State(l, "default", "top", 280, [Item("default", "Default", l)])
  {
    var v := NormalView(s);
    assert v.items == [Item(DEFAULT_ID, DEFAULT_TITLE, NormalLayout(s.layout))];
    assert v.items[..0] == [];
  }

  /** It does all there is to do. */
  lemma {:induction false} NormalTwice(s: State)
    requires s.items != []
    ensures IsNormal(Normal(s)) && Normal(Normal(s)) == Normal(s)
  {
    NormalFields(s);
    FindSame(s.items, NormalItems(s.items), Normal(s).active);
    NormalIsSelf(Normal(s));
  }

  lemma {:induction false} OnlyOne(v: seq<Item>, id: string, j: nat)
    requires Distinct(v) && j < |v| && v[j].id == id
    ensures Find(v, id) == j
  {
    var i := Find(v, id);
    assert !(i < j);
  }

  lemma {:induction false} UpdatesItem(v: State, id: string, l: Layout)
    requires Distinct(v.items) && Has(v, id)
    ensures ItemIs(v.items, UpdateLayout(v, id, l).items, id, v.items[Find(v.items, id)].title, l)
  {
    forall j: nat | j < |v.items| && v.items[j].id == id ensures j == Find(v.items, id) { OnlyOne(v.items, id, j); }
  }

  /** Replacing a layout by a normal one may as well come after normalizing. */
  lemma {:induction false} UpdateThenNormal(s: State, id: string, l: Layout)
    requires s.items != [] && Has(s, id) && Distinct(s.items) && NormalLayout(l) == l
    ensures Has(Normal(s), id) && Normal(UpdateLayout(s, id, l)).items == UpdateLayout(Normal(s), id, l).items
    ensures Normal(UpdateLayout(s, id, l)).active == Normal(s).active
  {
    NormalFields(s);
    FindSame(s.items, NormalItems(s.items), id);
    var u := UpdateLayout(s, id, l);
    NormalFields(u);
    var i := Find(s.items, id);
    assert NormalItems(u.items) == NormalItems(s.items)[i := NormalItems(s.items)[i].(layout := l)];
  }

  // The answer to each request that succeeds, compared with what was served
  // before it, which is the normal form.

  lemma {:induction false} ActivateSelects(s: State, id: string)
    requires Good(s) && Has(s, id) && id != ""
    ensures var v := Normal(s);
      Has(v, id) && Answered(s, Activate(id), true) == v.(active := id, layout := LayoutOf(v, id))
  {
    NormalFields(s);
    NormalFields(SetActive(s, id));
    FindSame(s.items, NormalItems(s.items), id);
  }

  lemma {:induction false} PutLayoutReplaces(s: State, id: string, l: Layout)
    requires Good(s) && Has(s, id)
    ensures var v := Normal(s);
            var r := Answered(s, PutLayout(id, l), true);
      && Has(v, id) && ItemIs(v.items, r.items, id, v.items[Find(v.items, id)].title, NormalLayout(l))
      && Has(r, v.active) && r == v.(items := r.items, layout := LayoutOf(r, v.active))
  {
    var u := UpdateLayout(s, id, NormalLayout(l));
    NormalKeeps(s);
    UpdateThenNormal(s, id, NormalLayout(l));
    UpdatesItem(Normal(s), id, NormalLayout(l));
    UpdatedGood(s, id, NormalLayout(l));
    NormalKeeps(u);
    NormalFields(s);
    NormalFields(u);
  }

  lemma {:induction false} PutActiveReplaces(s: State, l: Layout)
    requires Good(s)
    ensures var v := Normal(s);
            var r := Answered(s, PutActiveLayout(l), true);
      && Has(v, v.active)
      && ItemIs(v.items, r.items, v.active, v.items[Find(v.items, v.active)].title, NormalLayout(l))
      && r == v.(items := r.items, layout := NormalLayout(l))
  {
    NormalKeeps(s);
    NormalTwice(s);
    UpdatesItem(Normal(s), Normal(s).active, NormalLayout(l));
  }

  lemma {:induction false} RenameRetitles(s: State, id: string, title: string)
    requires Good(s) && Has(Normal(s), id)
    ensures var v := Normal(s);
            var r := Answered(s, Rename(id, title), true);
      && ItemIs(v.items, r.items, id, title, LayoutOf(v, id)) && r == v.(items := r.items)
  {
    NormalKeeps(s);
    NormalTwice(s);
    RenamedIsNormal(s, id, title);
    RetitlesItem(Normal(s), Renamed(s, id, title), id, title);
  }

  lemma {:induction false} RetitlesItem(v: State, r: State, id: string, title: string)
    requires Distinct(v.items) && Has(v, id)
    requires r.items == v.items[Find(v.items, id) := v.items[Find(v.items, id)].(title := title)]
    ensures ItemIs(v.items, r.items, id, title, LayoutOf(v, id))
  {
    forall j: nat | j < |v.items| && v.items[j].id == id ensures j == Find(v.items, id) { OnlyOne(v.items, id, j); }
  }

  lemma {:induction false} RenamedIsNormal(s: State, id: string, title: string)
    requires s.items != []
    ensures Normal(Renamed(s, id, title)) == Renamed(s, id, title)
  {
    NormalTwice(s);
    var v := Normal(s);
    var r := Renamed(s, id, title);
    if Has(v, id) {
      FindSame(v.items, r.items, v.active);
      NormalIsSelf(r);
    }
  }

  lemma {:induction false} PostAdds(s: State, id: string, pane: string)
    requires Good(s) && !Has(Normal(s), id) && id != ""
    ensures var v := Normal(s);
            var item := Item(id, "Workspace " + Itoa(|v.items| + 1), SinglePane(pane));
      Answered(s, Post(id, pane), true) == v.(items := v.items + [item], active := id, layout := item.layout)
  {
    NormalTwice(s);
    AddedGood(s, id, pane);
    AddedIsNormal(s, id, pane);
    NormalIsSelf(Added(s, id, pane));
  }

  lemma {:induction false} AddedIsNormal(s: State, id: string, pane: string)
    requires IsNormal(Normal(s)) && Good(Added(s, id, pane)) && id != ""
    ensures IsNormal(Added(s, id, pane))
  {
  }

  lemma {:induction false} DeleteDeletes(s: State, id: string)
    requires Good(s) && |s.items| >= 2 && Has(Normal(s), id)
    ensures Answered(s, Delete(id), true).items == Deleted(s, id).items
    ensures Deleted(s, id).active != "" ==> Answered(s, Delete(id), true) == Deleted(s, id)
  {
    NormalTwice(s);
    DeletedGood(s, id);
    var r := Deleted(s, id);
    CutKeepsLayouts(Normal(s), id);
    NormalFields(r);
    assert NormalItems(r.items) == r.items;
    if r.active != "" { NormalIsSelf(r); }
  }

  lemma {:induction false} CutKeepsLayouts(v: State, id: string)
    requires IsNormal(v) && Has(v, id)
    ensures var r := Cut(v, id);
      && r.tabPosition != "" && r.width != 0
      && forall i :: 0 <= i < |r.items| ==> NormalLayout(r.items[i].layout) == r.items[i].layout
  {
    var k := Find(v.items, id);
    var rest := Dropped(v.items, k);
    assert forall i :: 0 <= i < |rest| ==> rest[i] == v.items[if i < k then i else i + 1];
  }

  lemma {:induction false} SettingsSet(s: State, position: string, width: int)
    requires Good(s) && position != "" && width != 0
    ensures Answered(s, Place(position), true) == Normal(s).(tabPosition := position)
    ensures Answered(s, Widen(width), true) == Normal(s).(width := width)
  {
    NormalTwice(s);
    NormalIsSelf(Normal(s).(tabPosition := position));
    NormalIsSelf(Normal(s).(width := width));
  }

  /** Every layout is a pane or a split, not both. */
  predicate OneForm(items: seq<Item>) {
    forall i :: 0 <= i < |items| ==> items[i].layout.pane.None? || items[i].layout.children == []
  }

  lemma {:induction false} DeletePaneRemoves(s: State, pane: string)
    requires Good(s) && OneForm(s.items)
    ensures Answered(s, DeletePane(pane), true) == WithoutPane(s, pane)
  {
    WithoutPaneGood(s, pane);
    var r := WithoutPane(s, pane);
    WithoutPaneIsNormal(s, pane);
    NormalIsSelf(r);
    assert r.items[Find(r.items, r.active) := r.items[Find(r.items, r.active)].(layout := r.layout)] == r.items;
  }

  lemma {:induction false} WithoutPaneIsNormal(s: State, pane: string)
    requires Good(s) && OneForm(s.items)
    ensures IsNormal(WithoutPane(s, pane))
  {
    NormalTwice(s);
    NormalFields(s);
    WithoutPaneGood(s, pane);
    var r := WithoutPane(s, pane);
    forall i | 0 <= i < |r.items| ensures NormalLayout(r.items[i].layout) == r.items[i].layout {
      NormalKeepsPanes(s.items[i].layout);
    }
  }

  predicate WellFormedItems(items: seq<Item>) {
    forall i :: 0 <= i < |items| ==> WellFormed(items[i].layout.children)
  }

  lemma {:induction false} PanesRemovedFrom(items: seq<Item>, pane: string)
    requires WellFormedItems(items)
    ensures AllPanes(PanesRemoved(items, pane)) == PaneTree.Without(AllPanes(items), {pane})
  {
    if items != [] {
      var n := |items| - 1;
      PanesRemovedFrom(items[..n], pane);
      assert PanesRemoved(items, pane)[..n] == PanesRemoved(items[..n], pane);
      KeepsOrder(items[n].layout.children, {pane});
      WithoutAppend(AllPanes(items[..n]), Panes(items[n].layout.children), {pane});
    }
  }

  /** A removed pane is gone from every workspace, and all other panes stay
      where they were in order. */
  lemma {:induction false} PaneGoneEverywhere(s: State, pane: string)
    requires WellFormedItems(Normal(s).items)
    ensures AllPanes(WithoutPane(s, pane).items) == PaneTree.Without(AllPanes(Normal(s).items), {pane})
  {
    PanesRemovedFrom(Normal(s).items, pane);
  }

  /** Nothing but the panes below a layout's root changes: in every workspace
      the pane is taken out of the children, and IDs, titles, selection and
      settings stay. */
  lemma {:induction false} OnlyPanesChange(s: State, pane: string)
    ensures var v := Normal(s);
            var r := WithoutPane(s, pane);
      && |r.items| == |v.items| && r == v.(items := r.items, layout := r.layout)
      && (forall i :: 0 <= i < |v.items| ==>
            && r.items[i] == v.items[i].(layout := r.items[i].layout)
            && r.items[i].layout == v.items[i].layout.(children := Removed(v.items[i].layout.children, {pane})))
      && (Has(v, v.active) ==> Has(r, v.active) && r.layout == LayoutOf(r, v.active))
  {
    FindSame(Normal(s).items, WithoutPane(s, pane).items, Normal(s).active);
  }

  /** The pane of a layout that is a pane, else the panes of its children. */
  function PanesOf(l: Layout): seq<string> {
    if l.pane.Some? then [l.pane.value] else Panes(l.children)
  }

  /** Normalizing a layout that is a pane or a split, not both, makes it a split
      with a direction and the same panes in order. */
  lemma {:induction false} NormalKeepsPanes(l: Layout)
    requires l.pane.None? || l.children == []
    ensures var l1 := NormalLayout(l);
      && l1.pane.None? && l1.direction != "" && (l.direction != "" ==> l1.direction == l.direction)
      && (l.pane.None? ==> l1.children == l.children)
      && Panes(l1.children) == PanesOf(l)
  {
    if l.pane.Some? { PanesOfOne(Child(100.0, l.pane, "", [])); }
  }

  /** The item after a deleted active one takes over, or the one before it if
      it was the last. */
  lemma {:induction false} NeighbourTakesOver(s: State, id: string)
    requires Has(Normal(s), id) && Normal(s).active == id && |Normal(s).items| > 1
    ensures var v := Normal(s);
            var i := Find(v.items, id);
            var heir := if i + 1 < |v.items| then v.items[i + 1] else v.items[i - 1];
      Deleted(s, id).active == heir.id && Deleted(s, id).layout == heir.layout
  {
  }

  lemma {:induction false} OthersStay(items: seq<Item>, i: nat, x: string)
    requires i < |items| && items[i].id != x
    ensures var rest := Dropped(items, i);
            var a := Find(items, x);
      && (a < |items| <==> Find(rest, x) < |rest|)
      && (a < |items| ==> Find(rest, x) == (if a < i then a else a - 1) && rest[Find(rest, x)] == items[a])
  {
    var rest := Dropped(items, i);
    var a := Find(items, x);
    var b := Find(rest, x);
    assert forall k :: 0 <= k < |rest| ==> rest[k] == items[if k < i then k else k + 1];
    if a < |items| { assert rest[if a < i then a else a - 1] == items[a]; }
    if b < |rest| { assert items[if b < i then b else b + 1].id == x; }
  }

  /** What a caller sees of two other workspaces: the same items, found as
      before, in the same order. */
  predicate Untouched(v: State, r: State, x: string, y: string) {
    && (Has(r, x) <==> Has(v, x)) && (Has(r, y) <==> Has(v, y))
    && (Has(v, x) ==> r.items[Find(r.items, x)] == v.items[Find(v.items, x)])
    && (Has(v, x) && Has(v, y) ==> (Find(r.items, x) < Find(r.items, y) <==> Find(v.items, x) < Find(v.items, y)))
  }

  /** Deleting takes one workspace and leaves every other one, in order: with
      unique IDs the deleted one cannot be found any more, and the selection
      only moves if it was on it. */
  lemma {:induction false} RemovesOnlyThat(s: State, id: string)
    requires Has(Normal(s), id)
    ensures var v := Normal(s);
            var r := Deleted(s, id);
      && |r.items| == |v.items| - 1
      && (Distinct(v.items) ==> !Has(r, id))
      && (forall x, y :: x != id && y != id ==> Untouched(v, r, x, y))
      && (v.active != id ==> r.active == v.active && r.layout == v.layout)
  {
    forall x, y | x != id && y != id ensures Untouched(Normal(s), Deleted(s, id), x, y) {
      CutLeavesOthers(Normal(s), id, x, y);
    }
    CutTakesOne(Normal(s), id);
  }

  lemma {:induction false} CutLeavesOthers(v: State, id: string, x: string, y: string)
    requires Has(v, id) && x != id && y != id
    ensures Untouched(v, Cut(v, id), x, y)
  {
    var i := Find(v.items, id);
    assert Cut(v, id).items == Dropped(v.items, i);
    OthersStay(v.items, i, x);
    OthersStay(v.items, i, y);
  }

  lemma {:induction false} CutTakesOne(v: State, id: string)
    requires Has(v, id)
    ensures var r := Cut(v, id);
      && |r.items| == |v.items| - 1
      && (Distinct(v.items) ==> !Has(r, id))
      && (v.active != id ==> r.active == v.active && r.layout == v.layout)
  {
    var i := Find(v.items, id);
    var rest := Dropped(v.items, i);
    if Distinct(v.items) {
      forall k | 0 <= k < |rest| ensures rest[k].id != id { assert rest[k] == v.items[if k < i then k else k + 1]; }
    }
  }

  // ---------------------------------------------------------------- the data

  /** An opaque undo token: copies of its own. */
  class Snapshot {
    const layout: Layout
    const active: string
    const tabPosition: string
    const width: int
    const items: array<Item>

    constructor (s: State, items: array<Item>)
      ensures this.items == items && layout == s.layout && active == s.active
      ensures tabPosition == s.tabPosition && width == s.width
    {
      layout, active, tabPosition, width := s.layout, s.active, s.tabPosition, s.width;
      this.items := items;
    }

    ghost function View(): State
      reads items
    {
      State(layout, active, tabPosition, width, items[..])
    }
  }

  method CloneItems(src: array<Item>, count: nat) returns (out: array<Item>)
    requires count <= src.Length
    ensures fresh(out) && out[..] == src[..count]
  {
    out := new Item[count](i requires 0 <= i < count reads src => src[i]);
  }

  /** `items[..count]` is the slice of workspaces; removing shifts it down in
      its own storage. */
  class Data {
    var layout: Layout
    var active: string
    var tabPosition: string
    var width: int
    var items: array<Item>
    var count: nat

    ghost predicate Valid()
      reads this
    {
      count <= items.Length
    }

    ghost function View(): State
      requires Valid()
      reads this, items
    {
      State(layout, active, tabPosition, width, items[..count])
    }

    method TakeSnapshot() returns (snapshot: Snapshot)
      requires Valid()
      ensures fresh(snapshot) && fresh(snapshot.items) && snapshot.View() == View()
    {
      var copied := CloneItems(items, count);
      snapshot := new Snapshot(State(layout, active, tabPosition, width, []), copied);
    }

    /** Copies out of the snapshot, which can be restored again. */
    method Restore(snapshot: Snapshot)
      modifies this
      ensures Valid() && fresh(items) && View() == snapshot.View()
    {
      layout, active, tabPosition, width := snapshot.layout, snapshot.active, snapshot.tabPosition, snapshot.width;
      items := CloneItems(snapshot.items, snapshot.items.Length);
      count := items.Length;
    }

    method FindItem(id: string) returns (i: nat)
      requires Valid()
      ensures i == Find(View().items, id)
    {
      i := 0;
      while i < count && items[i].id != id
        invariant i <= count && forall j :: 0 <= j < i ==> items[j].id != id
      {
        i := i + 1;
      }
    }

    method MirrorActive()
      requires Valid()
      modifies this`layout
      ensures View() == Mirrored(old(View()))
    {
      var i := FindItem(active);
      if i < count { layout := items[i].layout; }
    }

    /** Works on a copy of the items, so nobody else's slice changes. */
    method Normalize()
      requires Valid()
      modifies this
      ensures Valid() && fresh(items) && View() == Normal(old(View()))
    {
      ghost var s := View();
      if count == 0 {
        active, tabPosition, width := DEFAULT_ID, DEFAULT_TAB_POSITION, DEFAULT_WIDTH;
        var only := Item(DEFAULT_ID, DEFAULT_TITLE, layout);
        items := new Item[1](i => only);
        count := 1;
      }
      if tabPosition == "" { tabPosition := DEFAULT_TAB_POSITION; }
      if width == 0 { width := DEFAULT_WIDTH; }
      if active == "" { active := items[0].id; }
      items := NormalizedItems();
      count := items.Length;
      assert View() == NormalView(s);
      MirrorActive();
    }

    method NormalizedItems() returns (out: array<Item>)
      requires Valid()
      ensures fresh(out) && out[..] == NormalItems(items[..count])
    {
      out := CloneItems(items, count);
      ghost var was := out[..];
      for i := 0 to out.Length
        invariant fresh(out) && out.Length == |was|
        invariant forall k :: 0 <= k < i ==> out[k] == NormalItems(was)[k]
        invariant forall k :: i <= k < out.Length ==> out[k] == was[k]
      {
        out[i] := out[i].(layout := NormalLayout(out[i].layout));
      }
    }

    method SetActiveWorkspace(id: string) returns (ok: bool)
      requires Valid()
      modifies this
      ensures Valid() && items == old(items) && View() == SetActive(old(View()), id)
      ensures ok == Has(old(View()), id)
    {
      var i := FindItem(id);
      if i == count { return false; }
      active, layout := id, items[i].layout;
      ok := true;
    }

    method UpdateWorkspaceLayout(id: string, l: Layout) returns (ok: bool)
      requires Valid()
      modifies this, items
      ensures Valid() && items == old(items) && View() == UpdateLayout(old(View()), id, l)
      ensures ok == Has(old(View()), id)
    {
      var i := FindItem(id);
      if i == count { return false; }
      items[i] := items[i].(layout := l);
      if active == id { layout := l; }
      ok := true;
    }

    /** The active workspace's layout, or the top-level one if there is none. */
    method UpdateActiveLayout(l: Layout)
      requires Valid()
      modifies this
      ensures Valid() && fresh(items)
      ensures var n := Normal(old(View()));
        View() == if Has(n, n.active) then UpdateLayout(n, n.active, l) else n.(layout := l)
    {
      Normalize();
      var ok := UpdateWorkspaceLayout(active, l);
      if !ok { layout := l; }
    }

    method SeenIDs() returns (seen: set<string>)
      requires Valid()
      ensures forall x :: x in seen <==> Has(View(), x)
    {
      seen := {};
      for i := 0 to count
        invariant forall x :: x in seen <==> exists j :: 0 <= j < i && items[j].id == x
      {
        seen := seen + {items[i].id};
      }
      SeenIsHas(View(), seen);
    }

    method SeenPanes() returns (seen: set<string>)
      requires Valid()
      ensures seen == set p | p in AllPanes(View().items)
    {
      seen := {};
      for i := 0 to count
        invariant seen == set p | p in AllPanes(items[..i])
      {
        assert items[..i + 1][..i] == items[..i];
        seen := seen + set p | p in Panes(items[i].layout.children);
      }
    }

    method NextWorkspaceID(start: nat) returns (id: string)
      requires Valid()
      ensures IsNextID(View(), start, id)
    {
      var seen := SeenIDs();
      var n := FirstFree("workspace-", start, seen);
      id := "workspace-" + Itoa(n);
      assert forall m: nat :: start <= m < n ==> Has(View(), "workspace-" + Itoa(m));
    }

    method NextPaneID(base: string) returns (id: string)
      requires Valid()
      ensures IsNextPane(View(), base, id)
    {
      var seen := SeenPanes();
      if base !in seen { return base; }
      var n := FirstFree(base + "-", 2, seen);
      id := base + "-" + Itoa(n);
    }

    method AddDefaultWorkspace() returns (item: Item, ghost pane: string)
      requires Valid()
      modifies this
      ensures Valid() && fresh(items)
      ensures IsNextID(Normal(old(View())), |Normal(old(View())).items| + 1, item.id)
      ensures IsNextPane(Normal(old(View())), item.id + "-main", pane) && item.layout == SinglePane(pane)
      ensures View() == Added(old(View()), item.id, pane)
    {
      Normalize();
      var n := count + 1;
      var id := NextWorkspaceID(n);
      var paneID := NextPaneID(id + "-main");
      pane := paneID;
      item := Item(id, "Workspace " + Itoa(n), SinglePane(paneID));
      AppendActive(item);
    }

    method AppendActive(item: Item)
      requires Valid()
      modifies this
      ensures Valid() && fresh(items)
      ensures View() == old(View()).(items := old(View()).items + [item], active := item.id, layout := item.layout)
    {
      ghost var was := items[..count];
      var n := count + 1;
      var grown := new Item[n](i requires 0 <= i < n reads this, items =>
        if i < count && i < items.Length then items[i] else item);
      items := grown;
      count := n;
      active, layout := item.id, item.layout;
      assert items[..count] == was + [item];
    }

    method RemoveWorkspace(id: string) returns (removed: Option<Item>)
      requires Valid()
      modifies this
      ensures Valid() && fresh(items) && View() == Deleted(old(View()), id)
      ensures removed == if Has(Normal(old(View())), id)
                         then Some(Normal(old(View())).items[Find(Normal(old(View())).items, id)]) else None
    {
      Normalize();
      var i := FindItem(id);
      if i == count { return None; }
      removed := Some(items[i]);
      CutItem(id, i);
    }

    method CutItem(id: string, i: nat)
      requires Valid() && i < count && i == Find(View().items, id)
      modifies this`count, this`active, this`layout, items
      ensures Valid() && View() == Cut(old(View()), id)
    {
      ShiftDown(i);
      if active == id && count > 0 {
        var next := if i >= count then count - 1 else i;
        active := items[next].id;
        layout := items[next].layout;
      }
    }

    /** Drops item i in place. */
    method ShiftDown(i: nat)
      requires Valid() && i < count
      modifies this`count, items
      ensures Valid() && items[..count] == Dropped(old(items[..count]), i)
    {
      ghost var was := items[..count];
      for j := i to count - 1
        invariant count == old(count)
        invariant forall k :: 0 <= k < i ==> items[k] == was[k]
        invariant forall k :: i <= k < j ==> items[k] == was[k + 1]
        invariant forall k :: j <= k < count ==> items[k] == was[k]
      {
        items[j] := items[j + 1];
      }
      count := count - 1;
    }

    method RenameWorkspace(id: string, title: string) returns (ok: bool)
      requires Valid()
      modifies this
      ensures Valid() && fresh(items) && View() == Renamed(old(View()), id, title)
      ensures ok == Has(Normal(old(View())), id)
    {
      Normalize();
      var i := FindItem(id);
      if i == count { return false; }
      items[i] := items[i].(title := title);
      ok := true;
    }

    method SetTabPosition(position: string)
      requires Valid()
      modifies this
      ensures Valid() && fresh(items) && View() == Normal(old(View())).(tabPosition := position)
    {
      Normalize();
      tabPosition := position;
    }

    method SetVerticalBarWidth(width: int)
      requires Valid()
      modifies this
      ensures Valid() && fresh(items) && View() == Normal(old(View())).(width := width)
    {
      Normalize();
      this.width := width;
    }

    method RemovePaneFromLayout(pane: string)
      requires Valid()
      modifies this
      ensures Valid() && fresh(items) && View() == WithoutPane(old(View()), pane)
    {
      Normalize();
      CutPanes(pane);
      MirrorActive();
    }

    method CutPanes(pane: string)
      requires Valid()
      modifies items
      ensures items[..count] == PanesRemoved(old(items[..count]), pane)
    {
      ghost var was := items[..count];
      for i := 0 to count
        invariant forall k :: 0 <= k < i ==> items[k] == PanesRemoved(was, pane)[k]
        invariant forall k :: i <= k < count ==> items[k] == was[k]
      {
        var children := RemovePaneChildren(items[i].layout.children, pane);
        items[i] := items[i].(layout := items[i].layout.(children := children));
      }
    }
  }

  /** The search for a free number ends: each one tried in vain names another of
      the names taken. */
  method FirstFree(prefix: string, start: nat, taken: set<string>) returns (n: nat)
    ensures start <= n && prefix + Itoa(n) !in taken
    ensures forall m: nat :: start <= m < n ==> prefix + Itoa(m) in taken
  {
    n := start;
    ghost var untried := taken;
    while prefix + Itoa(n) in taken
      invariant start <= n && forall m: nat :: start <= m < n ==> prefix + Itoa(m) in taken
      invariant forall m: nat :: n <= m && prefix + Itoa(m) in taken ==> prefix + Itoa(m) in untried
      decreases |untried|
    {
      forall m: nat | n < m ensures prefix + Itoa(m) != prefix + Itoa(n) { NumberedDiffer(prefix, m, n); }
      untried := untried - {prefix + Itoa(n)};
      n := n + 1;
    }
  }

  lemma {:induction false} SeenIsHas(s: State, seen: set<string>)
    requires forall x :: x in seen <==> exists j :: 0 <= j < |s.items| && s.items[j].id == x
    ensures forall x :: x in seen <==> Has(s, x)
  {
    forall x ensures x in seen <==> Has(s, x) {
      if Has(s, x) { assert s.items[Find(s.items, x)].id == x; }
    }
  }

  lemma {:induction false} NumberedDiffer(prefix: string, m: nat, n: nat)
    requires m != n
    ensures prefix + Itoa(m) != prefix + Itoa(n)
  {
    assert (prefix + Itoa(m))[|prefix|..] == Itoa(m);
    assert (prefix + Itoa(n))[|prefix|..] == Itoa(n);
    if Itoa(m) == Itoa(n) { ItoaInjective(m, n); }
  }

  // ---------------------------------------------------------------- requests

  /** Adding a workspace: `created` says whether its session could be made and
      `saved` whether the configuration could be written. A failure puts back
      exactly the state before, and the session made for it is gone. */
  method PostWorkspace(data: Data, sessions: set<string>, created: bool, saved: bool)
    returns (ok: bool, sessions': set<string>, ghost id: string, ghost pane: string)
    requires data.Valid()
    modifies data
    ensures data.Valid() && (ok <==> created && saved) && Possible(old(data.View()), Post(id, pane))
    ensures data.View() == Answered(old(data.View()), Post(id, pane), ok)
    ensures sessions' == if ok then sessions + {pane} else if created then sessions - {pane} else sessions
    ensures !ok ==> data.View() == old(data.View())
  {
    var snapshot := data.TakeSnapshot();
    var item;
    item, pane := data.AddDefaultWorkspace();
    id := item.id;
    sessions' := sessions;
    if !created {
      data.Restore(snapshot);
      ok := false;
      return;
    }
    var paneID := item.layout.children[0].pane.value;
    sessions' := sessions' + {paneID};
    data.Normalize();
    if !saved {
      sessions' := sessions' - {paneID};
      data.Restore(snapshot);
      ok := false;
      return;
    }
    ok := true;
  }

  /** Saves the workspaces, or puts back what the snapshot holds. */
  method SaveWorkspacesOrRollback(data: Data, snapshot: Snapshot, saved: bool)
    requires data.Valid()
    modifies data
    ensures data.Valid() && data.View() == if saved then Normal(old(data.View())) else old(snapshot.View())
  {
    data.Normalize();
    if !saved { data.Restore(snapshot); }
  }

  /** Saves a layout as the active workspace's, or puts back what the snapshot
      holds. */
  method SaveLayoutOrRollback(data: Data, l: Layout, snapshot: Snapshot, saved: bool)
    requires data.Valid()
    modifies data
    ensures data.Valid() && data.View() == if saved then WithActiveLayout(old(data.View()), l) else old(snapshot.View())
  {
    data.Normalize();
    data.UpdateActiveLayout(l);
    if !saved { data.Restore(snapshot); }
  }

  /** The panes of the workspace of that ID. */
  function PanesAt(s: State, id: string): seq<string> {
    if Has(s, id) then Panes(LayoutOf(s, id).children) else []
  }

  /** Deleting a workspace: the last one is refused, a failed save puts back
      exactly the state before, and its sessions go only once it is saved. */
  method DeleteWorkspace(data: Data, sessions: set<string>, id: string, saved: bool)
    returns (ok: bool, sessions': set<string>)
    requires data.Valid()
    modifies data
    ensures data.Valid()
    ensures sessions' == if ok then sessions - (set p | p in PanesAt(Normal(old(data.View())), id)) else sessions
    ensures ok <==> Possible(old(data.View()), Delete(id)) && Has(Normal(old(data.View())), id) && saved
    ensures data.View() == if Possible(old(data.View()), Delete(id)) then Answered(old(data.View()), Delete(id), saved)
                           else old(data.View())
    ensures !saved && Has(Normal(old(data.View())), id) ==> data.View() == old(data.View())
  {
    var view := if data.count == 0 then 1 else data.count;
    if view <= 1 { return false, sessions; }
    var snapshot := data.TakeSnapshot();
    var removed := data.RemoveWorkspace(id);
    if removed.None? { return false, sessions; }
    SaveWorkspacesOrRollback(data, snapshot, saved);
    if !saved { return false, sessions; }
    sessions' := sessions - set p | p in Panes(removed.value.layout.children);
    ok := true;
  }

  /** Selecting a workspace. */
  method PutActiveWorkspace(data: Data, id: string, saved: bool) returns (ok: bool)
    requires data.Valid()
    modifies data
    ensures data.Valid() && data.View() == Answered(old(data.View()), Activate(id), saved)
    ensures ok <==> Has(old(data.View()), id) && saved
    ensures !ok ==> data.View() == old(data.View())
  {
    var snapshot := data.TakeSnapshot();
    ok := data.SetActiveWorkspace(id);
    if !ok { return false; }
    SaveWorkspacesOrRollback(data, snapshot, saved);
    ok := saved;
  }

  /** Changing a workspace's layout writes into the items in place: the undo
      rests on the snapshot's storage being its own. */
  method PutWorkspaceLayout(data: Data, id: string, l: Layout, saved: bool) returns (ok: bool)
    requires data.Valid()
    modifies data, data.items
    ensures data.Valid() && data.View() == Answered(old(data.View()), PutLayout(id, l), saved)
    ensures ok <==> Has(old(data.View()), id) && saved
    ensures !ok ==> data.View() == old(data.View())
  {
    var snapshot := data.TakeSnapshot();
    ok := data.UpdateWorkspaceLayout(id, NormalLayout(l));
    if !ok { return false; }
    SaveWorkspacesOrRollback(data, snapshot, saved);
    ok := saved;
  }

  /** Changing the active workspace's layout. */
  method PutLayoutOfActive(data: Data, l: Layout, saved: bool)
    requires data.Valid()
    modifies data
    ensures data.Valid() && data.View() == Answered(old(data.View()), PutActiveLayout(l), saved)
    ensures !saved ==> data.View() == old(data.View())
  {
    var snapshot := data.TakeSnapshot();
    SaveLayoutOrRollback(data, NormalLayout(l), snapshot, saved);
  }

  lemma {:induction false} RenameAnswer(s: State, id: string, title: string, saved: bool)
    ensures Answered(s, Rename(id, title), saved) ==
      if !Has(Normal(s), id) then Normal(s) else if saved then Normal(Renamed(s, id, title)) else s
  {
  }

  /** Renaming a workspace. */
  method PutWorkspace(data: Data, id: string, title: string, saved: bool) returns (ok: bool)
    requires data.Valid()
    modifies data
    ensures data.Valid() && data.View() == Answered(old(data.View()), Rename(id, title), saved)
    ensures ok <==> Has(Normal(old(data.View())), id) && saved
    ensures !saved && Has(Normal(old(data.View())), id) ==> data.View() == old(data.View())
  {
    RenameAnswer(data.View(), id, title, saved);
    var snapshot := data.TakeSnapshot();
    ok := data.RenameWorkspace(id, title);
    if !ok { return false; }
    SaveWorkspacesOrRollback(data, snapshot, saved);
    ok := saved;
  }

  lemma {:induction false} PaneAnswer(s: State, pane: string, saved: bool)
    ensures var s' := WithoutPane(s, pane);
      Answered(s, DeletePane(pane), saved) == if saved then WithActiveLayout(s', s'.layout) else s
  {
  }

  /** Closing a pane: its session goes only once the layout without it is
      saved. */
  method DeleteSession(data: Data, sessions: set<string>, pane: string, saved: bool) returns (sessions': set<string>)
    requires data.Valid()
    modifies data
    ensures data.Valid()
    ensures pane in sessions ==> data.View() == Answered(old(data.View()), DeletePane(pane), saved)
    ensures pane !in sessions ==> data.View() == old(data.View())
    ensures sessions' == if pane in sessions && saved then sessions - {pane} else sessions
    ensures !saved ==> data.View() == old(data.View())
  {
    if pane !in sessions { return sessions; }
    var snapshot := data.TakeSnapshot();
    PaneAnswer(data.View(), pane, saved);
    data.RemovePaneFromLayout(pane);
    SaveLayoutOrRollback(data, data.layout, snapshot, saved);
    if !saved { return sessions; }
    sessions' := sessions - {pane};
  }

  /** Placing the tabs. */
  method PutWorkspaceTabPosition(data: Data, position: string, saved: bool)
    requires data.Valid()
    modifies data
    ensures data.Valid() && data.View() == Answered(old(data.View()), Place(position), saved)
    ensures !saved ==> data.View() == old(data.View())
  {
    var snapshot := data.TakeSnapshot();
    data.SetTabPosition(position);
    SaveWorkspacesOrRollback(data, snapshot, saved);
  }

  /** Setting the width of a vertical tab bar. */
  method PutWorkspaceVerticalBarWidth(data: Data, width: int, saved: bool)
    requires data.Valid()
    modifies data
    ensures data.Valid() && data.View() == Answered(old(data.View()), Widen(width), saved)
    ensures !saved ==> data.View() == old(data.View())
  {
    var snapshot := data.TakeSnapshot();
    data.SetVerticalBarWidth(width);
    SaveWorkspacesOrRollback(data, snapshot, saved);
  }
}
