/** What every run of the relay keeps. */
module RelayProofs {
  // A run is any interleaving of authored rows, polls and broadcasts.

  import opened Text
  import opened Relay
  import L = Ledger

  // ------------------------------------------------------------ the cursor

  predicate SameID(items: seq<Item>, i: int, j: int) {
    0 <= i < |items| && 0 <= j < |items| && items[i].row.id == items[j].row.id
  }

  ghost predicate UniqueIDs(items: seq<Item>) {
    && (forall i :: 0 <= i < |items| ==> items[i].row.id != "")
    && (forall i, j :: SameID(items, i, j) ==> i == j)
  }

  /** Where an ID occurs, if it does. */
  lemma {:induction false} AfterIs(items: seq<Item>, i: int)
    requires UniqueIDs(items) && 0 <= i < |items|
    ensures After(Rows(items), items[i].row.id) == i + 1
  {
    var n := After(Rows(items), items[i].row.id);
    AfterIsLast(Rows(items), items[i].row.id);
    assert Rows(items)[i].id == items[i].row.id;
    assert n > i;
    assert Rows(items)[n - 1].id == items[n - 1].row.id;
    assert SameID(items, i, n - 1);
  }

  /** How far into the host's store its cursor reaches. */
  function Position(b: Board, host: string): nat {
    if Cursor(b, host) == "" then 0 else After(Rows(Items(b, host)), Cursor(b, host))
  }

  ghost predicate StoresOK(b: Board) {
    && (forall h :: UniqueIDs(Items(b, h)))
    && (forall h :: Cursor(b, h) != "" ==> Position(b, h) > 0)
  }

  /** A bounded read after a cursor gives everything after it, except what
      already left the window: nothing is lost exactly when the window
      reaches back to the cursor, and nothing is ever read twice. */
  lemma {:induction false} SinceReads(b: Board, host: string, limit: nat)
    requires StoresOK(b)
    ensures var rows := Rows(Items(b, host));
            var first := if |rows| - Position(b, host) <= limit then Position(b, host) else |rows| - limit;
      Since(b, host, limit) == rows[first..]
  {
    var items := Items(b, host);
    var rows := Rows(items);
    var cursor := Cursor(b, host);
    var window := Window(rows, limit);
    var start := |rows| - |window|;
    assert UniqueIDs(items);
    if cursor != "" {
      var p := Position(b, host);
      var n := After(window, cursor);
      AfterIsLast(rows, cursor);
      AfterIsLast(window, cursor);
      if n > 0 {
        assert rows[start + n - 1].id == cursor && rows[p - 1].id == cursor;
        assert SameID(items, start + n - 1, p - 1);
        assert start + n == p;
      } else if start < p {
        assert false;
      }
    }
  }

  ghost predicate Extends(b: Board, b': Board) {
    forall h :: Items(b, h) <= Items(b', h)
  }

  /** Appending rows moves no cursor. */
  lemma {:induction false} PositionKept(b: Board, b': Board)
    requires StoresOK(b) && Extends(b, b') && b'.cursors == b.cursors
    requires forall h :: UniqueIDs(Items(b', h))
    ensures StoresOK(b') && forall h :: Position(b', h) == Position(b, h)
  {
    forall h ensures Position(b', h) == Position(b, h) { PositionKeptAt(b, b', h); }
  }

  lemma {:induction false} PositionKeptAt(b: Board, b': Board, h: string)
    requires Items(b, h) <= Items(b', h) && UniqueIDs(Items(b', h)) && Cursor(b', h) == Cursor(b, h)
    requires Cursor(b, h) != "" ==> Position(b, h) > 0
    ensures Position(b', h) == Position(b, h)
  {
    if Cursor(b, h) != "" {
      var p := Position(b, h);
      AfterIsLast(Rows(Items(b, h)), Cursor(b, h));
      assert Items(b, h)[p - 1] == Items(b', h)[p - 1];
      AfterIs(Items(b', h), p - 1);
    }
  }

  lemma {:induction false} AppendUnique(items: seq<Item>, item: Item)
    requires UniqueIDs(items) && item.row.id != "" && forall i :: 0 <= i < |items| ==> items[i].row.id != item.row.id
    ensures UniqueIDs(items + [item])
  {
    forall i, j | SameID(items + [item], i, j) ensures i == j {
      if i < |items| && j < |items| { assert SameID(items, i, j); }
    }
  }

  lemma {:induction false} DeliverExtends(b: Board, dest: string, from: string, to: string, body: string, out: Outcome,
      origin: Origin)
    requires StoresOK(b) && FreshOutcome(b, dest, out)
    ensures var b' := Deliver(b, dest, from, to, body, out, origin);
      Extends(b, b') && StoresOK(b') && forall h :: Position(b', h) == Position(b, h)
  {
    var b' := Deliver(b, dest, from, to, body, out, origin);
    if !out.Lost? { AppendUnique(Items(b, dest), Item(Row(out.id, from, to, body), origin)); }
    assert forall h :: h != dest ==> Items(b', h) == Items(b, h);
    PositionKept(b, b');
  }

  // ----------------------------------------------------------- the invariant

  /** How far the host's store has been processed: the cursor, or the row the
      poll in progress has reached. */
  function Done(s: System, host: string): nat {
    if s.poll.Some? && s.poll.value.host == host && s.poll.value.next > 0
    then s.poll.value.first + s.poll.value.next
    else Position(s.b, host)
  }

  ghost predicate PollOK(s: System) {
    s.poll.Some? ==>
      var p := s.poll.value;
      var items := Items(s.b, p.host);
      && Position(s.b, p.host) <= p.first
      && p.next <= |p.rows| && p.first + |p.rows| <= |items|
      && forall i :: 0 <= i < |p.rows| ==> p.rows[i] == items[p.first + i].row
  }

  /** A row that a poll of this host may record: its sender is a pane of the
      host, and its recipient is panemux or a known pane. */
  predicate FromPane(c: Config, host: string, row: Row) {
    && row.from != SYSTEM_ID && row.from in c.paneHosts && c.paneHosts[row.from] == host
    && (row.to == SYSTEM_ID || row.to in c.paneHosts)
  }

  /** One that panemux itself sent to a pane of the host. */
  predicate FromSystem(c: Config, host: string, row: Row) {
    row.from == SYSTEM_ID && row.to in c.paneHosts && c.paneHosts[row.to] == host
  }

  ghost predicate EntryOK(c: Config, s: System, e: Entry) {
    && e.pos < Done(s, e.host) && e.pos < |Items(s.b, e.host)|
    && Items(s.b, e.host)[e.pos].row == e.row
    && (FromPane(c, e.host, e.row) || FromSystem(c, e.host, e.row))
  }

  ghost predicate HistoryOK(c: Config, s: System) {
    && (forall i :: 0 <= i < |s.b.history| ==> EntryOK(c, s, s.b.history[i]))
    && (forall i, j :: 0 <= i < j < |s.b.history| && s.b.history[i].host == s.b.history[j].host ==>
          s.b.history[i].pos < s.b.history[j].pos)
  }

  ghost predicate ForwardOK(c: Config, s: System, f: Forward) {
    && f.pos < Done(s, f.host) && f.pos < |Items(s.b, f.host)|
    && FromPane(c, f.host, Items(s.b, f.host)[f.pos].row)
    && Crosses(c, f.host, Items(s.b, f.host)[f.pos].row)
    && f.dest == c.paneHosts[Items(s.b, f.host)[f.pos].row.to]
  }

  ghost predicate ForwardsOK(c: Config, s: System) {
    && (forall i :: 0 <= i < |s.b.forwards| ==> ForwardOK(c, s, s.b.forwards[i]))
    && (forall i, j :: 0 <= i < j < |s.b.forwards| && s.b.forwards[i].host == s.b.forwards[j].host ==>
          s.b.forwards[i].pos < s.b.forwards[j].pos)
  }

  predicate IsCopy(b: Board, host: string, p: nat) {
    p < |Items(b, host)| && Items(b, host)[p].origin.Copy?
  }

  /** A copy lies on another host than its original and says the same. */
  ghost predicate CopyOK(c: Config, s: System, host: string, p: nat)
    requires IsCopy(s.b, host, p)
  {
    var o := Items(s.b, host)[p].origin;
    var row := Items(s.b, host)[p].row;
    && o.host != host && o.pos < Done(s, o.host) && o.pos < |Items(s.b, o.host)|
    && FromPane(c, o.host, row)
    && Items(s.b, o.host)[o.pos].row == row.(id := Items(s.b, o.host)[o.pos].row.id)
  }

  predicate SameCopy(b: Board, h: string, p: nat, h': string, p': nat) {
    IsCopy(b, h, p) && IsCopy(b, h', p') && Items(b, h)[p].origin == Items(b, h')[p'].origin
  }

  ghost predicate CopiesOK(c: Config, s: System) {
    && (forall h, p: nat :: IsCopy(s.b, h, p) ==> CopyOK(c, s, h, p))
    && (forall h, p: nat, h', p': nat :: SameCopy(s.b, h, p, h', p') ==> h == h' && p == p')
  }

  /** Rows from panemux itself in the history, by what they said to whom. */
  function Accepted(c: Config, history: seq<Entry>): multiset<L.Key> {
    if history == [] then multiset{}
    else
      var e := history[|history| - 1];
      Accepted(c, history[..|history| - 1])
        + (if e.row.from == SYSTEM_ID then multiset{KeyOf(c, e.host, e.row.to, e.row.body)} else multiset{})
  }

  ghost predicate LedgerOK(c: Config, b: Board) {
    && (forall k :: k in b.entries ==> k.to in c.paneHosts && c.paneHosts[k.to] == k.destHost)
    && (forall k :: Accepted(c, b.history)[k] + |L.Occurrences(b.entries, k)| <= b.recorded[k])
  }

  ghost predicate Inv(c: Config, s: System) {
    && SYSTEM_ID !in c.paneHosts
    && StoresOK(s.b) && PollOK(s) && HistoryOK(c, s) && ForwardsOK(c, s) && CopiesOK(c, s) && LedgerOK(c, s.b)
  }

  /** Nothing processed so far was skipped: every row a pane of the host sent
      is in the history and, when it crosses hosts, was forwarded. */
  ghost predicate Complete(c: Config, s: System) {
    forall h, p: nat :: p < Done(s, h) && p < |Items(s.b, h)| ==> Handled(c, s.b, h, p)
  }

  ghost predicate Recorded(b: Board, h: string, p: nat) {
    exists i :: 0 <= i < |b.history| && b.history[i].host == h && b.history[i].pos == p
  }

  ghost predicate Forwarded(b: Board, h: string, p: nat) {
    exists i :: 0 <= i < |b.forwards| && b.forwards[i].host == h && b.forwards[i].pos == p
  }

  // ------------------------------------------ what growing stores preserve

  /** Stores only grew, and no host is less far processed. */
  ghost predicate Grown(s: System, s': System) {
    Extends(s.b, s'.b) && forall h :: Done(s, h) <= Done(s', h)
  }

  lemma {:induction false} ItemKept(b: Board, b': Board, h: string, p: nat)
    requires Extends(b, b') && p < |Items(b, h)|
    ensures p < |Items(b', h)| && Items(b', h)[p] == Items(b, h)[p]
  {
    assert Items(b, h) <= Items(b', h);
  }

  lemma {:induction false} HistoryKept(c: Config, s: System, s': System, extra: seq<Entry>)
    requires HistoryOK(c, s) && Grown(s, s') && s'.b.history == s.b.history + extra && |extra| <= 1
    requires forall e :: e in extra ==> EntryOK(c, s', e) && Done(s, e.host) <= e.pos
    ensures HistoryOK(c, s')
  {
    forall i | 0 <= i < |s'.b.history| ensures EntryOK(c, s', s'.b.history[i]) {
      if i < |s.b.history| {
        assert EntryOK(c, s, s.b.history[i]);
        ItemKept(s.b, s'.b, s.b.history[i].host, s.b.history[i].pos);
      } else {
        assert s'.b.history[i] in extra;
      }
    }
    forall i, j | 0 <= i < j < |s'.b.history| && s'.b.history[i].host == s'.b.history[j].host
      ensures s'.b.history[i].pos < s'.b.history[j].pos
    {
      assert EntryOK(c, s, s.b.history[i]);
      if j >= |s.b.history| { assert s'.b.history[j] in extra; }
    }
  }

  lemma {:induction false} ForwardsKept(c: Config, s: System, s': System, extra: seq<Forward>)
    requires ForwardsOK(c, s) && Grown(s, s') && s'.b.forwards == s.b.forwards + extra && |extra| <= 1
    requires forall f :: f in extra ==> ForwardOK(c, s', f) && Done(s, f.host) <= f.pos
    ensures ForwardsOK(c, s')
  {
    forall i | 0 <= i < |s'.b.forwards| ensures ForwardOK(c, s', s'.b.forwards[i]) {
      if i < |s.b.forwards| {
        assert ForwardOK(c, s, s.b.forwards[i]);
        ItemKept(s.b, s'.b, s.b.forwards[i].host, s.b.forwards[i].pos);
      } else {
        assert s'.b.forwards[i] in extra;
      }
    }
    forall i, j | 0 <= i < j < |s'.b.forwards| && s'.b.forwards[i].host == s'.b.forwards[j].host
      ensures s'.b.forwards[i].pos < s'.b.forwards[j].pos
    {
      assert ForwardOK(c, s, s.b.forwards[i]);
      if j >= |s.b.forwards| { assert s'.b.forwards[j] in extra; }
    }
  }

  lemma {:induction false} CopyKept(c: Config, s: System, s': System, h: string, p: nat)
    requires Grown(s, s') && IsCopy(s.b, h, p) && CopyOK(c, s, h, p)
    ensures IsCopy(s'.b, h, p) && CopyOK(c, s', h, p) && Items(s'.b, h)[p] == Items(s.b, h)[p]
  {
    ItemKept(s.b, s'.b, h, p);
    ItemKept(s.b, s'.b, Items(s.b, h)[p].origin.host, Items(s.b, h)[p].origin.pos);
  }

  lemma {:induction false} CopiesKept(c: Config, s: System, s': System)
    requires CopiesOK(c, s) && Grown(s, s')
    requires forall h, p: nat :: IsCopy(s'.b, h, p) ==> IsCopy(s.b, h, p)
    ensures CopiesOK(c, s')
  {
    forall h, p: nat | IsCopy(s'.b, h, p) ensures CopyOK(c, s', h, p) {
      CopyKept(c, s, s', h, p);
    }
    forall h, p: nat, h', p': nat | SameCopy(s'.b, h, p, h', p') ensures h == h' && p == p' {
      CopyKept(c, s, s', h, p);
      CopyKept(c, s, s', h', p');
      assert SameCopy(s.b, h, p, h', p');
    }
  }

  /** One more copy, of a row nothing was processed of before. */
  lemma {:induction false} CopyAdded(c: Config, s: System, s': System, dest: string, q: nat)
    requires CopiesOK(c, s) && Grown(s, s')
    requires IsCopy(s'.b, dest, q) && CopyOK(c, s', dest, q)
    requires Done(s, Items(s'.b, dest)[q].origin.host) <= Items(s'.b, dest)[q].origin.pos
    requires forall h, p: nat :: IsCopy(s'.b, h, p) ==> IsCopy(s.b, h, p) || (h == dest && p == q)
    ensures CopiesOK(c, s')
  {
    forall h, p: nat | IsCopy(s'.b, h, p) ensures CopyOK(c, s', h, p) {
      if IsCopy(s.b, h, p) { CopyKept(c, s, s', h, p); }
    }
    forall h, p: nat, h', p': nat | SameCopy(s'.b, h, p, h', p') ensures h == h' && p == p' {
      if IsCopy(s.b, h, p) { CopyKept(c, s, s', h, p); }
      if IsCopy(s.b, h', p') { CopyKept(c, s, s', h', p'); }
      if IsCopy(s.b, h, p) && IsCopy(s.b, h', p') { assert SameCopy(s.b, h, p, h', p'); }
    }
  }

  lemma {:induction false} RecordedKept(b: Board, b': Board, h: string, p: nat)
    requires b.history <= b'.history && b.forwards <= b'.forwards
    ensures (Recorded(b, h, p) ==> Recorded(b', h, p)) && (Forwarded(b, h, p) ==> Forwarded(b', h, p))
  {
    if Recorded(b, h, p) {
      var i :| 0 <= i < |b.history| && b.history[i].host == h && b.history[i].pos == p;
      assert b'.history[i] == b.history[i];
    }
    if Forwarded(b, h, p) {
      var i :| 0 <= i < |b.forwards| && b.forwards[i].host == h && b.forwards[i].pos == p;
      assert b'.forwards[i] == b.forwards[i];
    }
  }

  /** What completeness asks of one position. */
  ghost predicate Handled(c: Config, b: Board, h: string, p: nat)
    requires p < |Items(b, h)|
  {
    FromPane(c, h, Items(b, h)[p].row) ==>
      Recorded(b, h, p) && (Crosses(c, h, Items(b, h)[p].row) ==> Forwarded(b, h, p))
  }

  lemma {:induction false} CompleteKept(c: Config, s: System, s': System)
    requires Complete(c, s) && PollOK(s) && Extends(s.b, s'.b)
    requires s.b.history <= s'.b.history && s.b.forwards <= s'.b.forwards
    requires forall h, p: nat :: Done(s, h) <= p < Done(s', h) && p < |Items(s'.b, h)| ==> Handled(c, s'.b, h, p)
    ensures Complete(c, s')
  {
    forall h, p: nat | p < Done(s', h) && p < |Items(s'.b, h)| ensures Handled(c, s'.b, h, p) {
      if p < Done(s, h) {
        DoneWithinStore(s, h);
        ItemKept(s.b, s'.b, h, p);
        RecordedKept(s.b, s'.b, h, p);
        assert Handled(c, s.b, h, p);
      }
    }
  }

  // -------------------------------------------- steps that only append rows

  /** The stores grew by rows that are no copies; poll, history and forwards
      are as they were. */
  ghost predicate OnlyGrew(s: System, s': System) {
    && Extends(s.b, s'.b) && StoresOK(s'.b) && s'.poll == s.poll
    && (forall h :: Position(s'.b, h) == Position(s.b, h))
    && s'.b.history == s.b.history && s'.b.forwards == s.b.forwards
    && (forall h, p: nat :: IsCopy(s'.b, h, p) ==> IsCopy(s.b, h, p))
  }

  lemma {:induction false} GrewKeeps(c: Config, s: System, s': System)
    requires Inv(c, s) && OnlyGrew(s, s') && LedgerOK(c, s'.b)
    ensures Inv(c, s')
    ensures Complete(c, s) ==> Complete(c, s')
  {
    assert Grown(s, s');
    HistoryKept(c, s, s', []);
    ForwardsKept(c, s, s', []);
    CopiesKept(c, s, s');
    if s.poll.Some? { assert Items(s.b, s.poll.value.host) <= Items(s'.b, s.poll.value.host); }
    if Complete(c, s) { CompleteKept(c, s, s'); }
  }

  lemma {:induction false} PositionWithinDone(s: System, h: string)
    requires PollOK(s)
    ensures Position(s.b, h) <= Done(s, h)
  {
  }

  lemma {:induction false} DoneWithinStore(s: System, h: string)
    requires PollOK(s)
    ensures Done(s, h) <= |Items(s.b, h)|
  {
  }

  lemma {:induction false} LedgerForget(c: Config, b: Board, b': Board, key: L.Key)
    requires LedgerOK(c, b) && b'.history == b.history && b'.recorded == b.recorded
    requires b'.entries == L.Forgotten(b.entries, key)
    ensures LedgerOK(c, b')
  {
  }

  lemma {:induction false} LedgerRecord(c: Config, b: Board, b': Board, key: L.Key)
    requires LedgerOK(c, b) && b'.history == b.history && b'.recorded == b.recorded + multiset{key}
    requires key.to in c.paneHosts && c.paneHosts[key.to] == key.destHost
    requires b'.entries == L.Recorded(b.entries, key, b.now, c.ttl)
    ensures LedgerOK(c, b')
  {
  }

  lemma {:induction false} AuthorGrew(c: Config, s: System, step: Step)
    requires Inv(c, s) && Enabled(c, s, step) && step.Author?
    ensures OnlyGrew(s, Next(c, s, step)) && LedgerOK(c, Next(c, s, step).b)
  {
    var s' := Next(c, s, step);
    assert UniqueIDs(Items(s.b, step.host));
    AppendUnique(Items(s.b, step.host), Item(step.row, Written));
    assert forall h :: h != step.host ==> Items(s'.b, h) == Items(s.b, h);
    assert forall h :: UniqueIDs(Items(s.b, h));
    PositionKept(s.b, s'.b);
  }

  /** A board whose ledger alone changed. */
  lemma {:induction false} LedgerAlone(b: Board, b': Board)
    requires StoresOK(b) && b'.stores == b.stores && b'.cursors == b.cursors
    ensures StoresOK(b') && forall h :: Items(b', h) == Items(b, h) && Position(b', h) == Position(b, h)
  {
    assert forall h :: UniqueIDs(Items(b, h));
    assert forall h :: Items(b', h) == Items(b, h) && Cursor(b', h) == Cursor(b, h);
  }

  lemma {:induction false} WrittenIsNoCopy(b: Board, dest: string, from: string, to: string, body: string, out: Outcome)
    ensures var b' := Deliver(b, dest, from, to, body, out, Written);
            forall h, p: nat :: IsCopy(b', h, p) ==> IsCopy(b, h, p)
  {
    var b' := Deliver(b, dest, from, to, body, out, Written);
    assert forall h :: h != dest ==> Items(b', h) == Items(b, h);
  }

  lemma {:induction false} IssuedGrew(c: Config, b: Board, send: Send, out: Outcome)
    requires StoresOK(b) && LedgerOK(c, b) && send.pane in c.paneHosts && FreshOutcome(b, c.paneHosts[send.pane], out)
    ensures var b' := IssueSend(c, b, send, out);
      && Extends(b, b') && StoresOK(b') && LedgerOK(c, b') && (forall h :: Position(b', h) == Position(b, h))
      && b'.history == b.history && b'.forwards == b.forwards
      && (forall h, p: nat :: IsCopy(b', h, p) ==> IsCopy(b, h, p))
  {
    var host := c.paneHosts[send.pane];
    var b1 := Deliver(b, host, send.from, send.pane, send.body, out, Written);
    DeliverExtends(b, host, send.from, send.pane, send.body, out, Written);
    WrittenIsNoCopy(b, host, send.from, send.pane, send.body, out);
    var b' := IssueSend(c, b, send, out);
    LedgerAlone(b1, b');
    if !(out.Delivered? || send.from != SYSTEM_ID) { LedgerForget(c, b1, b', KeyOf(c, host, send.pane, send.body)); }
  }

  lemma {:induction false} SendGrew(c: Config, s: System, step: Step)
    requires Inv(c, s) && Enabled(c, s, step) && step.BroadcastSend?
    ensures OnlyGrew(s, Next(c, s, step)) && LedgerOK(c, Next(c, s, step).b)
  {
    IssuedGrew(c, s.b, step.send, step.out);
  }

  lemma {:induction false} AppendStep(c: Config, s: System, step: Step)
    requires Inv(c, s) && Enabled(c, s, step)
    requires step.Author? || step.BroadcastRecord? || step.BroadcastSend? || step.Advance?
    ensures OnlyGrew(s, Next(c, s, step))
    ensures Inv(c, Next(c, s, step)) && (Complete(c, s) ==> Complete(c, Next(c, s, step)))
  {
    var s' := Next(c, s, step);
    match step {
      case Author(_, _) => AuthorGrew(c, s, step);
      case BroadcastSend(_, _) => SendGrew(c, s, step);
      case BroadcastRecord(send) =>
        assert forall h :: Items(s'.b, h) == Items(s.b, h);
        PositionKept(s.b, s'.b);
        if send.from == SYSTEM_ID {
          LedgerRecord(c, s.b, s'.b, KeyOf(c, c.paneHosts[send.pane], send.pane, send.body));
        }
      case Advance(_) =>
        assert forall h :: Items(s'.b, h) == Items(s.b, h);
        PositionKept(s.b, s'.b);
    }
    GrewKeeps(c, s, s');
  }

  // ------------------------------------------------------ beginning and end

  /** The windows of this poll reaches back to the cursor. */
  predicate Reaches(s: System, step: Step) {
    step.PollStart? ==> |Items(s.b, step.host)| - Position(s.b, step.host) <= step.limit
  }

  lemma {:induction false} SameDoneKeeps(c: Config, s: System, s': System)
    requires Inv(c, s) && s'.b.stores == s.b.stores && s'.b.history == s.b.history && s'.b.forwards == s.b.forwards
    requires StoresOK(s'.b) && PollOK(s') && LedgerOK(c, s'.b)
    requires forall h :: Done(s', h) == Done(s, h)
    ensures Inv(c, s') && (Complete(c, s) ==> Complete(c, s'))
  {
    assert forall h :: Items(s'.b, h) == Items(s.b, h);
    assert Grown(s, s');
    HistoryKept(c, s, s', []);
    ForwardsKept(c, s, s', []);
    CopiesKept(c, s, s');
    if Complete(c, s) { CompleteKept(c, s, s'); }
  }

  lemma {:induction false} StartPollAt(b: Board, host: string, limit: nat, first: nat)
    requires first <= |Items(b, host)| && Since(b, host, limit) == Rows(Items(b, host))[first..]
    ensures StartPoll(b, host, limit) == Poll(host, first, Rows(Items(b, host))[first..], 0)
  {
  }

  predicate PollAt(b: Board, p: Poll) {
    var items := Items(b, p.host);
    && p.next == 0 && Position(b, p.host) <= p.first && p.first + |p.rows| == |items|
    && forall i :: 0 <= i < |p.rows| ==> p.rows[i] == items[p.first + i].row
  }

  lemma {:induction false} RowsFrom(items: seq<Item>, first: nat)
    requires first <= |items|
    ensures var rows := Rows(items)[first..];
      && |rows| == |items| - first
      && forall i :: 0 <= i < |rows| ==> rows[i] == items[first + i].row
  {
  }

  lemma {:induction false} StartPollIs(b: Board, host: string, limit: nat, first: nat)
    requires Position(b, host) <= first <= |Items(b, host)| && Since(b, host, limit) == Rows(Items(b, host))[first..]
    ensures var p := StartPoll(b, host, limit); p.host == host && PollAt(b, p) && p.first == first
  {
    StartPollAt(b, host, limit, first);
    RowsFrom(Items(b, host), first);
  }

  /** A new poll holds the rows from some position on, at or behind the cursor. */
  lemma {:induction false} StartPollReads(b: Board, host: string, limit: nat)
    requires StoresOK(b)
    ensures var p := StartPoll(b, host, limit);
      && p.host == host && PollAt(b, p)
      && (|Items(b, host)| - Position(b, host) <= limit ==> p.first == Position(b, host))
  {
    SinceReads(b, host, limit);
    var n := |Rows(Items(b, host))|;
    StartPollIs(b, host, limit, if n - Position(b, host) <= limit then Position(b, host) else n - limit);
  }

  lemma {:induction false} StartPollOK(s: System, s': System, p: Poll)
    requires s'.b == s.b && s.poll.None? && s'.poll == Some(p) && PollAt(s.b, p)
    ensures PollOK(s') && forall h :: Done(s', h) == Done(s, h)
  {
  }

  lemma {:induction false} PollStarted(c: Config, s: System, s': System, p: Poll)
    requires Inv(c, s) && s.poll.None? && s' == s.(poll := Some(p)) && PollAt(s.b, p)
    ensures Inv(c, s') && (Complete(c, s) ==> Complete(c, s'))
  {
    StartPollOK(s, s', p);
    SameDoneKeeps(c, s, s');
  }

  lemma {:induction false} PollStartStep(c: Config, s: System, step: Step)
    requires Inv(c, s) && Enabled(c, s, step) && step.PollStart?
    ensures Inv(c, Next(c, s, step)) && (Complete(c, s) ==> Complete(c, Next(c, s, step)))
    ensures Reaches(s, step) ==> Next(c, s, step).poll.value.first == Position(s.b, step.host)
  {
    StartPollReads(s.b, step.host, step.limit);
    PollStarted(c, s, Next(c, s, step), StartPoll(s.b, step.host, step.limit));
  }

  lemma {:induction false} EndPollMoves(b: Board, host: string, first: nat, rows: seq<Row>)
    requires StoresOK(b) && Position(b, host) <= first && first + |rows| <= |Items(b, host)|
    requires forall i :: 0 <= i < |rows| ==> rows[i] == Items(b, host)[first + i].row
    ensures var b' := EndPoll(b, host, rows);
      && Position(b', host) == (if rows == [] then Position(b, host) else first + |rows|)
      && (Cursor(b', host) != "" ==> Position(b', host) > 0)
  {
    var items := Items(b, host);
    assert UniqueIDs(items);
    if rows != [] {
      var last := first + |rows| - 1;
      AfterIs(items, last);
      if Cursor(b, host) != "" {
        AfterIsLast(Rows(items), Cursor(b, host));
        assert SameID(items, Position(b, host) - 1, last) ==> Position(b, host) - 1 == last;
      }
      assert items[last].row.id != Cursor(b, host);
      assert Cursor(EndPoll(b, host, rows), host) == items[last].row.id;
    }
  }

  lemma {:induction false} EndPollOK(s: System, s': System)
    requires StoresOK(s.b) && PollOK(s) && s.poll.Some? && s.poll.value.next == |s.poll.value.rows|
    requires s'.poll.None? && s'.b == EndPoll(s.b, s.poll.value.host, s.poll.value.rows)
    ensures StoresOK(s'.b) && forall h :: Done(s', h) == Done(s, h)
  {
    var p := s.poll.value;
    EndPollMoves(s.b, p.host, p.first, p.rows);
    forall h
      ensures UniqueIDs(Items(s'.b, h)) && (Cursor(s'.b, h) != "" ==> Position(s'.b, h) > 0)
      ensures Done(s', h) == Done(s, h)
    {
      assert Items(s'.b, h) == Items(s.b, h) && UniqueIDs(Items(s.b, h));
      if h != p.host { assert Cursor(s'.b, h) == Cursor(s.b, h); }
    }
  }

  lemma {:induction false} PollEndStep(c: Config, s: System, step: Step)
    requires Inv(c, s) && Enabled(c, s, step) && step.PollEnd?
    ensures Inv(c, Next(c, s, step)) && (Complete(c, s) ==> Complete(c, Next(c, s, step)))
  {
    EndPollOK(s, Next(c, s, step));
    SameDoneKeeps(c, s, Next(c, s, step));
  }

  // ------------------------------------------------------------ one row

  lemma {:induction false} LedgerConsume(c: Config, b: Board, b1: Board, key: L.Key)
    requires LedgerOK(c, b) && b1 == b.(entries := L.Consumed(b.entries, key, b.now))
    ensures LedgerOK(c, b1)
    ensures L.Matches(b.entries, key, b.now) ==>
      && key.to in c.paneHosts && c.paneHosts[key.to] == key.destHost
      && Accepted(c, b.history)[key] + 1 + |L.Occurrences(b1.entries, key)| <= b.recorded[key]
  {
    L.LiveBounded(L.Occurrences(b.entries, key), b.now);
  }

  lemma {:induction false} CheckedOK(c: Config, b: Board, host: string, row: Row)
    requires LedgerOK(c, b) && SYSTEM_ID !in c.paneHosts
    ensures var b1 := Checked(c, b, host, row);
      && LedgerOK(c, b1)
      && (ValidFrom(c, b, host, row) && (row.to == SYSTEM_ID || row.to in c.paneHosts) ==>
            && (FromPane(c, host, row) || FromSystem(c, host, row))
            && forall pos :: LedgerOK(c, Append(b1, host, pos, row)))
  {
    var b1 := Checked(c, b, host, row);
    var key := KeyOf(c, host, row.to, row.body);
    if row.from == SYSTEM_ID { LedgerConsume(c, b, b1, key); }
    if ValidFrom(c, b, host, row) && (row.to == SYSTEM_ID || row.to in c.paneHosts) {
      forall pos ensures LedgerOK(c, Append(b1, host, pos, row)) {
        var b2 := Append(b1, host, pos, row);
        assert b2.history[..|b2.history| - 1] == b1.history;
      }
    }
  }

  /** Whether a poll records the row, and whether it passes it on. */
  predicate Records(c: Config, b: Board, host: string, row: Row) {
    FromPane(c, host, row) || (FromSystem(c, host, row) && ValidFrom(c, b, host, row))
  }

  predicate PassesOn(c: Config, host: string, row: Row) {
    FromPane(c, host, row) && Crosses(c, host, row)
  }

  /** What processing a row leaves of the board before any delivery. */
  function Noted(c: Config, b: Board, host: string, pos: nat, row: Row): Board {
    var b1 := Checked(c, b, host, row);
    b1.(history := b.history + (if Records(c, b, host, row) then [Entry(host, pos, row)] else []),
        forwards := b.forwards + (if PassesOn(c, host, row) then [Forward(host, pos, c.paneHosts[row.to])] else []))
  }

  lemma {:induction false} ProcessRowNotes(c: Config, b: Board, host: string, pos: nat, row: Row, out: Outcome)
    requires LedgerOK(c, b) && SYSTEM_ID !in c.paneHosts
    ensures var b2 := Noted(c, b, host, pos, row);
      && LedgerOK(c, b2)
      && ProcessRow(c, b, host, pos, row, out) ==
           if PassesOn(c, host, row)
           then Deliver(b2, c.paneHosts[row.to], row.from, row.to, row.body, out, Copy(host, pos))
           else b2
  {
    CheckedOK(c, b, host, row);
    var b1 := Checked(c, b, host, row);
    if Records(c, b, host, row) {
      assert LedgerOK(c, Append(b1, host, pos, row));
    }
    assert b.history + [] == b.history && b.forwards + [] == b.forwards;
  }

  /** How one processed row changes the board, whatever it is. */
  ghost predicate RowEffect(c: Config, b: Board, b': Board, host: string, pos: nat, row: Row) {
    && Extends(b, b') && StoresOK(b') && LedgerOK(c, b')
    && (forall h :: Position(b', h) == Position(b, h))
    && b'.history == Noted(c, b, host, pos, row).history && b'.forwards == Noted(c, b, host, pos, row).forwards
  }

  lemma {:induction false} NotedKeeps(c: Config, b: Board, host: string, pos: nat, row: Row)
    requires StoresOK(b)
    ensures var b2 := Noted(c, b, host, pos, row);
      StoresOK(b2) && (forall h :: Items(b2, h) == Items(b, h)) && forall h :: Position(b2, h) == Position(b, h)
  {
    LedgerAlone(b, Noted(c, b, host, pos, row));
  }

  lemma {:induction false} ProcessRowEffect(c: Config, b: Board, host: string, pos: nat, row: Row, out: Outcome,
      b': Board)
    requires StoresOK(b) && LedgerOK(c, b) && SYSTEM_ID !in c.paneHosts
    requires forall dest :: dest in c.clients ==> FreshOutcome(b, dest, out)
    requires b' == ProcessRow(c, b, host, pos, row, out)
    ensures RowEffect(c, b, b', host, pos, row)
  {
    ProcessRowNotes(c, b, host, pos, row, out);
    var b2 := Noted(c, b, host, pos, row);
    NotedKeeps(c, b, host, pos, row);
    if PassesOn(c, host, row) {
      var dest := c.paneHosts[row.to];
      assert FreshOutcome(b2, dest, out);
      DeliverExtends(b2, dest, row.from, row.to, row.body, out, Copy(host, pos));
    }
  }

  /** The state after the poll's next row: one more row processed, and that
      row noted. */
  ghost predicate AfterRow(c: Config, s: System, s': System) {
    && s.poll.Some? && s.poll.value.next < |s.poll.value.rows|
    && s'.poll == Some(s.poll.value.(next := s.poll.value.next + 1))
    && Extends(s.b, s'.b) && StoresOK(s'.b) && LedgerOK(c, s'.b)
    && (forall h :: Position(s'.b, h) == Position(s.b, h))
    && var p := s.poll.value;
       var row := p.rows[p.next];
    && s'.b.history == s.b.history
         + (if Records(c, s.b, p.host, row) then [Entry(p.host, p.first + p.next, row)] else [])
    && s'.b.forwards == s.b.forwards
         + (if PassesOn(c, p.host, row) then [Forward(p.host, p.first + p.next, c.paneHosts[row.to])] else [])
  }

  lemma {:induction false} EffectIsAfterRow(c: Config, s: System, s': System)
    requires s.poll.Some? && s.poll.value.next < |s.poll.value.rows|
    requires s'.poll == Some(s.poll.value.(next := s.poll.value.next + 1))
    requires var p := s.poll.value; RowEffect(c, s.b, s'.b, p.host, p.first + p.next, p.rows[p.next])
    ensures AfterRow(c, s, s')
  {
  }

  lemma {:induction false} RowStepIs(c: Config, s: System, step: Step)
    requires Enabled(c, s, step) && step.PollRow?
    ensures var p := s.poll.value;
            var s' := Next(c, s, step);
      && s'.poll == Some(p.(next := p.next + 1))
      && s'.b == ProcessRow(c, s.b, p.host, p.first + p.next, p.rows[p.next], step.out)
  {
  }

  lemma {:induction false} RowAfterOf(c: Config, s: System, out: Outcome, s': System)
    requires s.poll.Some? && s.poll.value.next < |s.poll.value.rows|
    requires StoresOK(s.b) && LedgerOK(c, s.b) && SYSTEM_ID !in c.paneHosts
    requires forall dest :: dest in c.clients ==> FreshOutcome(s.b, dest, out)
    requires s'.poll == Some(s.poll.value.(next := s.poll.value.next + 1))
    requires var p := s.poll.value; s'.b == ProcessRow(c, s.b, p.host, p.first + p.next, p.rows[p.next], out)
    ensures AfterRow(c, s, s')
  {
    var p := s.poll.value;
    ProcessRowEffect(c, s.b, p.host, p.first + p.next, p.rows[p.next], out, s'.b);
    EffectIsAfterRow(c, s, s');
  }

  lemma {:induction false} RowAfter(c: Config, s: System, step: Step)
    requires Inv(c, s) && Enabled(c, s, step) && step.PollRow?
    ensures AfterRow(c, s, Next(c, s, step))
  {
    RowStepIs(c, s, step);
    RowAfterOf(c, s, step.out, Next(c, s, step));
  }

  lemma {:induction false} RowGrown(c: Config, s: System, s': System)
    requires Inv(c, s) && AfterRow(c, s, s')
    ensures var p := s.poll.value;
      && Grown(s, s') && PollOK(s')
      && Done(s', p.host) == p.first + p.next + 1 && Done(s, p.host) <= p.first + p.next
      && (p.next > 0 || p.first == Position(s.b, p.host) ==> Done(s, p.host) == p.first + p.next)
      && (forall h :: h != p.host ==> Done(s', h) == Done(s, h))
      && p.first + p.next < |Items(s'.b, p.host)| && Items(s'.b, p.host)[p.first + p.next].row == p.rows[p.next]
  {
    assert Items(s.b, s.poll.value.host) <= Items(s'.b, s.poll.value.host);
  }

  lemma {:induction false} OneMoreCopy(b: Board, b': Board, dest: string, item: Item)
    requires b'.stores == b.stores[dest := Items(b, dest) + [item]] && item.origin.Copy?
    ensures var q := |Items(b, dest)|;
      && IsCopy(b', dest, q) && Items(b', dest)[q] == item
      && forall h, i: nat :: IsCopy(b', h, i) ==> IsCopy(b, h, i) || (h == dest && i == q)
  {
    assert forall h :: h != dest ==> Items(b', h) == Items(b, h);
  }

  lemma {:induction false} RowCopied(c: Config, s: System, s': System, id: string)
    requires Inv(c, s) && AfterRow(c, s, s')
    requires var p := s.poll.value;
             var row := p.rows[p.next];
      && PassesOn(c, p.host, row)
      && s'.b.stores == s.b.stores[c.paneHosts[row.to] :=
           Items(s.b, c.paneHosts[row.to]) + [Item(row.(id := id), Copy(p.host, p.first + p.next))]]
    ensures CopiesOK(c, s')
  {
    var p := s.poll.value;
    var row := p.rows[p.next];
    var dest := c.paneHosts[row.to];
    RowGrown(c, s, s');
    OneMoreCopy(s.b, s'.b, dest, Item(row.(id := id), Copy(p.host, p.first + p.next)));
    assert CopyOK(c, s', dest, |Items(s.b, dest)|);
    CopyAdded(c, s, s', dest, |Items(s.b, dest)|);
  }

  /** The only row processing can put into a store is one copy. */
  lemma {:induction false} ProcessRowStores(c: Config, b: Board, host: string, pos: nat, row: Row, out: Outcome)
    requires LedgerOK(c, b) && SYSTEM_ID !in c.paneHosts
    ensures ProcessRow(c, b, host, pos, row, out).stores ==
      if PassesOn(c, host, row) && !out.Lost?
      then b.stores[c.paneHosts[row.to] := Items(b, c.paneHosts[row.to]) + [Item(row.(id := out.id), Copy(host, pos))]]
      else b.stores
  {
    ProcessRowNotes(c, b, host, pos, row, out);
  }

  lemma {:induction false} RowCopies(c: Config, s: System, s': System, out: Outcome)
    requires Inv(c, s) && AfterRow(c, s, s')
    requires var p := s.poll.value;
      s'.b.stores == ProcessRow(c, s.b, p.host, p.first + p.next, p.rows[p.next], out).stores
    ensures CopiesOK(c, s')
  {
    var p := s.poll.value;
    var row := p.rows[p.next];
    ProcessRowStores(c, s.b, p.host, p.first + p.next, row, out);
    if PassesOn(c, p.host, row) && !out.Lost? {
      RowCopied(c, s, s', out.id);
    } else {
      assert forall h :: Items(s'.b, h) == Items(s.b, h);
      RowGrown(c, s, s');
      CopiesKept(c, s, s');
    }
  }

  lemma {:induction false} RowHistory(c: Config, s: System, s': System)
    requires Inv(c, s) && AfterRow(c, s, s')
    ensures HistoryOK(c, s')
  {
    var p := s.poll.value;
    var row := p.rows[p.next];
    RowGrown(c, s, s');
    HistoryKept(c, s, s', if Records(c, s.b, p.host, row) then [Entry(p.host, p.first + p.next, row)] else []);
  }

  lemma {:induction false} RowForwards(c: Config, s: System, s': System)
    requires Inv(c, s) && AfterRow(c, s, s')
    ensures ForwardsOK(c, s')
  {
    var p := s.poll.value;
    var row := p.rows[p.next];
    RowGrown(c, s, s');
    ForwardsKept(c, s, s',
                 if PassesOn(c, p.host, row) then [Forward(p.host, p.first + p.next, c.paneHosts[row.to])] else []);
  }

  lemma {:induction false} RowInv(c: Config, s: System, s': System, out: Outcome)
    requires Inv(c, s) && AfterRow(c, s, s')
    requires var p := s.poll.value;
      s'.b.stores == ProcessRow(c, s.b, p.host, p.first + p.next, p.rows[p.next], out).stores
    ensures Inv(c, s')
  {
    RowGrown(c, s, s');
    RowHistory(c, s, s');
    RowForwards(c, s, s');
    RowCopies(c, s, s', out);
  }

  lemma {:induction false} PollRowStep(c: Config, s: System, step: Step)
    requires Inv(c, s) && Enabled(c, s, step) && step.PollRow?
    ensures Inv(c, Next(c, s, step))
  {
    RowAfter(c, s, step);
    RowInv(c, s, Next(c, s, step), step.out);
  }

  lemma {:induction false} RowComplete(c: Config, s: System, s': System)
    requires Inv(c, s) && AfterRow(c, s, s') && Complete(c, s) && FromCursor(s)
    ensures Complete(c, s')
  {
    var p := s.poll.value;
    var pos := p.first + p.next;
    var row := p.rows[p.next];
    RowGrown(c, s, s');
    if FromPane(c, p.host, row) {
      assert s'.b.history[|s.b.history|] == Entry(p.host, pos, row);
      if Crosses(c, p.host, row) { assert s'.b.forwards[|s.b.forwards|] == Forward(p.host, pos, c.paneHosts[row.to]); }
    }
    assert Handled(c, s'.b, p.host, pos);
    CompleteKept(c, s, s');
  }

  /** A poll that started where the cursor was. */
  ghost predicate FromCursor(s: System) {
    s.poll.Some? && s.poll.value.next == 0 ==> s.poll.value.first == Position(s.b, s.poll.value.host)
  }

  // ------------------------------------------------------------------ runs

  lemma {:induction false} StepInv(c: Config, s: System, step: Step)
    requires Inv(c, s) && Enabled(c, s, step)
    ensures Inv(c, Next(c, s, step))
  {
    if step.PollStart? { PollStartStep(c, s, step); }
    else if step.PollEnd? { PollEndStep(c, s, step); }
    else if step.PollRow? { PollRowStep(c, s, step); }
    else { AppendStep(c, s, step); }
  }

  lemma {:induction false} RunInv(c: Config, s: System, steps: seq<Step>)
    requires Inv(c, s) && Allowed(c, s, steps)
    ensures Inv(c, Run(c, s, steps))
    decreases steps
  {
    if steps != [] {
      StepInv(c, s, steps[0]);
      RunInv(c, Next(c, s, steps[0]), steps[1..]);
    }
  }

  lemma {:induction false} InitialInv(c: Config, now: int)
    requires SYSTEM_ID !in c.paneHosts
    ensures Inv(c, Initial(now)) && Complete(c, Initial(now))
  {
  }

  ghost predicate AllReach(c: Config, s: System, steps: seq<Step>)
    requires Allowed(c, s, steps)
    decreases steps
  {
    steps == [] || (Reaches(s, steps[0]) && AllReach(c, Next(c, s, steps[0]), steps[1..]))
  }

  lemma {:induction false} StepFromCursor(c: Config, s: System, step: Step)
    requires Inv(c, s) && Enabled(c, s, step) && FromCursor(s) && Reaches(s, step)
    ensures FromCursor(Next(c, s, step))
  {
    match step {
      case PollStart(_, _) => PollStartStep(c, s, step);
      case PollRow(_) =>
      case PollEnd =>
      case _ => AppendStep(c, s, step);
    }
  }

  lemma {:induction false} RunComplete(c: Config, s: System, steps: seq<Step>)
    requires Inv(c, s) && Complete(c, s) && FromCursor(s) && Allowed(c, s, steps) && AllReach(c, s, steps)
    ensures Complete(c, Run(c, s, steps))
    decreases steps
  {
    if steps != [] {
      var step := steps[0];
      StepInv(c, s, step);
      StepFromCursor(c, s, step);
      if step.PollStart? { PollStartStep(c, s, step); }
      else if step.PollEnd? { PollEndStep(c, s, step); }
      else if step.PollRow? { RowAfter(c, s, step); RowComplete(c, s, Next(c, s, step)); }
      else { AppendStep(c, s, step); }
      RunComplete(c, Next(c, s, step), steps[1..]);
    }
  }

  // ----------------------------------------------------------- main results

  /** Over every interleaving, whatever the window: no row enters the history
      twice, none is forwarded twice or has two copies, and what entered is
      the row itself, from a pane of its host or from panemux. */
  lemma {:induction false} AtMostOnce(c: Config, now: int, steps: seq<Step>)
    requires SYSTEM_ID !in c.paneHosts && Allowed(c, Initial(now), steps)
    ensures var s := Run(c, Initial(now), steps);
      && (forall i, j :: 0 <= i < j < |s.b.history| ==>
            (s.b.history[i].host, s.b.history[i].pos) != (s.b.history[j].host, s.b.history[j].pos))
      && (forall i, j :: 0 <= i < j < |s.b.forwards| ==>
            (s.b.forwards[i].host, s.b.forwards[i].pos) != (s.b.forwards[j].host, s.b.forwards[j].pos))
      && (forall i :: 0 <= i < |s.b.history| ==> EntryOK(c, s, s.b.history[i]))
      && CopiesOK(c, s)
  {
    InitialInv(c, now);
    RunInv(c, Initial(now), steps);
  }

  /** A forwarded copy is never recorded and never forwarded again. */
  lemma {:induction false} CopiesStayOut(c: Config, now: int, steps: seq<Step>, host: string, p: nat)
    requires SYSTEM_ID !in c.paneHosts && Allowed(c, Initial(now), steps)
    requires IsCopy(Run(c, Initial(now), steps).b, host, p)
    ensures var s := Run(c, Initial(now), steps);
      !Recorded(s.b, host, p) && !Forwarded(s.b, host, p)
  {
    InitialInv(c, now);
    RunInv(c, Initial(now), steps);
    var s := Run(c, Initial(now), steps);
    assert CopyOK(c, s, host, p);
    assert forall i :: 0 <= i < |s.b.history| ==> EntryOK(c, s, s.b.history[i]);
    assert forall i :: 0 <= i < |s.b.forwards| ==> ForwardOK(c, s, s.b.forwards[i]);
  }

  /** Conservation: when every poll's window reaches back to the cursor, every
      row a pane of its host sent and a finished poll passed is in the
      history, and was forwarded when it crosses hosts. */
  lemma {:induction false} ExactlyOnce(c: Config, now: int, steps: seq<Step>, host: string, p: nat)
    requires SYSTEM_ID !in c.paneHosts && Allowed(c, Initial(now), steps) && AllReach(c, Initial(now), steps)
    requires var s := Run(c, Initial(now), steps);
      p < Position(s.b, host) && p < |Items(s.b, host)| && FromPane(c, host, Items(s.b, host)[p].row)
    ensures var s := Run(c, Initial(now), steps);
      && Recorded(s.b, host, p)
      && (Crosses(c, host, Items(s.b, host)[p].row) ==> Forwarded(s.b, host, p))
  {
    InitialInv(c, now);
    RunInv(c, Initial(now), steps);
    RunComplete(c, Initial(now), steps);
    var s := Run(c, Initial(now), steps);
    PositionWithinDone(s, host);
    assert Handled(c, s.b, host, p);
  }

  /** A row in panemux's own name is believed at most as often as panemux
      recorded a send of it, however many were forged. */
  lemma {:induction false} BelievedAtMostSent(c: Config, now: int, steps: seq<Step>, key: L.Key)
    requires SYSTEM_ID !in c.paneHosts && Allowed(c, Initial(now), steps)
    ensures var s := Run(c, Initial(now), steps);
      Accepted(c, s.b.history)[key] <= s.b.recorded[key]
  {
    InitialInv(c, now);
    RunInv(c, Initial(now), steps);
  }
}
