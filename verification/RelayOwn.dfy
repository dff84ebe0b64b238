/** The relay's own sends come back to it. */
module RelayOwn {
  // The ledger must vouch for every row panemux sent itself, or the poll that
  // reads it back would take it for a forgery and drop it. It does as long as
  // no occurrence expires before its row is read, no send reports an error
  // after delivering, and nobody else writes in panemux's name.

  import opened Text
  import opened Relay
  import opened RelayProofs
  import L = Ledger

  // --------------------------------------------------------------- counting

  /** One of panemux's own rows with this recipient and text. */
  predicate IsOwn(item: Item, k: L.Key) {
    item.row.from == SYSTEM_ID && item.row.to == k.to && item.row.body == k.body
  }

  function One(item: Item, k: L.Key): nat {
    if IsOwn(item, k) then 1 else 0
  }

  function Own(items: seq<Item>, k: L.Key): nat {
    if items == [] then 0 else One(items[0], k) + Own(items[1..], k)
  }

  lemma {:induction false} OwnSnoc(items: seq<Item>, item: Item, k: L.Key)
    ensures Own(items + [item], k) == Own(items, k) + One(item, k)
  {
    var all := items + [item];
    if items == [] {
      assert all[1..] == [];
    } else {
      assert all[1..] == items[1..] + [item];
      OwnSnoc(items[1..], item, k);
    }
  }

  /** The own rows of this key that no poll has processed yet. */
  function Unread(s: System, k: L.Key): nat {
    OwnFrom(Items(s.b, k.destHost), Done(s, k.destHost), k)
  }

  function OwnFrom(items: seq<Item>, d: nat, k: L.Key): nat {
    if d <= |items| then Own(items[d..], k) else 0
  }

  lemma {:induction false} OwnFromSnoc(items: seq<Item>, item: Item, d: nat, k: L.Key)
    requires d <= |items|
    ensures OwnFrom(items + [item], d, k) == OwnFrom(items, d, k) + One(item, k)
  {
    assert (items + [item])[d..] == items[d..] + [item];
    OwnSnoc(items[d..], item, k);
  }

  lemma {:induction false} OwnFromNext(items: seq<Item>, d: nat, k: L.Key)
    requires d < |items|
    ensures OwnFrom(items, d, k) == One(items[d], k) + OwnFrom(items, d + 1, k)
  {
    assert items[d..][1..] == items[d + 1..] && items[d..][0] == items[d];
  }

  /** The broadcasts of this key that are recorded and not yet issued. */
  function InFlight(c: Config, s: System, k: L.Key): nat {
    if k.to in c.paneHosts && c.paneHosts[k.to] == k.destHost then s.sends[Send(SYSTEM_ID, k.to, k.body)] else 0
  }

  function Held(s: System, k: L.Key): nat {
    |L.Occurrences(s.b.entries, k)|
  }

  // -------------------------------------------------------------- invariant

  ghost predicate OwnRowOK(c: Config, s: System, h: string, p: nat)
    requires p < |Items(s.b, h)|
  {
    Items(s.b, h)[p].row.from == SYSTEM_ID ==>
      FromSystem(c, h, Items(s.b, h)[p].row) && (p < Done(s, h) ==> Recorded(s.b, h, p))
  }

  /** An occurrence is held for every own row still to be read and every send
      still to be issued, and every own row read so far was believed. */
  ghost predicate Vouched(c: Config, s: System) {
    && (forall k: L.Key :: k.team == c.team ==> Unread(s, k) + InFlight(c, s, k) <= Held(s, k))
    && (forall h, p: nat :: p < |Items(s.b, h)| ==> OwnRowOK(c, s, h, p))
  }

  /** No held occurrence has expired. */
  ghost predicate Unexpired(b: Board) {
    forall k: L.Key :: |L.Live(L.Occurrences(b.entries, k), b.now)| == |L.Occurrences(b.entries, k)|
  }

  /** Nobody but panemux writes in its name, and its sends fail only before
      they are delivered. */
  predicate Honest(step: Step) {
    && (step.Author? ==> step.row.from != SYSTEM_ID)
    && (step.BroadcastSend? && step.send.from == SYSTEM_ID ==> !step.out.Unsure?)
  }

  ghost predicate Undisturbed(c: Config, s: System, steps: seq<Step>)
    requires Allowed(c, s, steps)
    decreases steps
  {
    steps == [] ||
      (Unexpired(s.b) && Honest(steps[0]) && Reaches(s, steps[0]) && Undisturbed(c, Next(c, s, steps[0]), steps[1..]))
  }

  // ------------------------------------------------------------------ steps

  /** Stores, progress, sends and occurrences as they were. */
  lemma {:induction false} SameVouched(c: Config, s: System, s': System)
    requires Vouched(c, s) && s'.b.stores == s.b.stores && s'.b.entries == s.b.entries && s'.sends == s.sends
    requires s'.b.history == s.b.history && forall h :: Done(s', h) == Done(s, h)
    ensures Vouched(c, s')
  {
    assert forall h :: Items(s'.b, h) == Items(s.b, h);
    forall k: L.Key | k.team == c.team ensures Unread(s', k) + InFlight(c, s', k) <= Held(s', k) {
      assert Unread(s', k) == Unread(s, k);
    }
    forall h, p: nat | p < |Items(s'.b, h)| ensures OwnRowOK(c, s', h, p) { assert OwnRowOK(c, s, h, p); }
  }

  lemma {:induction false} UnreadAppended(s: System, s': System, host: string, item: Item, k: L.Key)
    requires s'.b.stores == s.b.stores[host := Items(s.b, host) + [item]]
    requires Done(s', k.destHost) == Done(s, k.destHost) <= |Items(s.b, k.destHost)|
    ensures Unread(s', k) == Unread(s, k) + (if k.destHost == host then One(item, k) else 0)
  {
    if k.destHost == host {
      assert Items(s'.b, host) == Items(s.b, host) + [item];
      OwnFromSnoc(Items(s.b, host), item, Done(s, host), k);
    } else {
      assert Items(s'.b, k.destHost) == Items(s.b, k.destHost);
    }
  }

  /** One more row on a host, which if panemux's own was sent there. */
  lemma {:induction false} RowsAppended(c: Config, s: System, s': System, host: string, item: Item)
    requires Vouched(c, s) && PollOK(s) && s'.b.stores == s.b.stores[host := Items(s.b, host) + [item]]
    requires s'.b.history == s.b.history && forall h :: Done(s', h) == Done(s, h)
    requires item.row.from == SYSTEM_ID ==> FromSystem(c, host, item.row)
    ensures forall h, p: nat :: p < |Items(s'.b, h)| ==> OwnRowOK(c, s', h, p)
    ensures forall k: L.Key :: Unread(s', k) == Unread(s, k) + (if k.destHost == host then One(item, k) else 0)
  {
    forall h, p: nat | p < |Items(s'.b, h)| ensures OwnRowOK(c, s', h, p) {
      DoneWithinStore(s, h);
      if p < |Items(s.b, h)| { assert OwnRowOK(c, s, h, p) && Items(s'.b, h)[p] == Items(s.b, h)[p]; }
    }
    forall k: L.Key ensures Unread(s', k) == Unread(s, k) + (if k.destHost == host then One(item, k) else 0) {
      DoneWithinStore(s, k.destHost);
      UnreadAppended(s, s', host, item, k);
    }
  }

  lemma {:induction false} AuthorVouched(c: Config, s: System, step: Step)
    requires Inv(c, s) && Enabled(c, s, step) && step.Author? && Honest(step) && Vouched(c, s)
    ensures Vouched(c, Next(c, s, step))
  {
    AuthorGrew(c, s, step);
    var s' := Next(c, s, step);
    RowsAppended(c, s, s', step.host, Item(step.row, Written));
    assert forall k: L.Key :: One(Item(step.row, Written), k) == 0;
  }

  /** A recorded send is in flight and held. */
  lemma {:induction false} RecordAccount(c: Config, s: System, s': System, send: Send, k: L.Key)
    requires send.pane in c.paneHosts && k.team == c.team
    requires s'.b == RecordSend(c, s.b, send) && s'.sends == s.sends + multiset{send} && s'.poll == s.poll
    ensures Unread(s', k) == Unread(s, k)
    ensures InFlight(c, s', k) - InFlight(c, s, k) == Held(s', k) - Held(s, k)
  {
    assert Items(s'.b, k.destHost) == Items(s.b, k.destHost) && Done(s', k.destHost) == Done(s, k.destHost);
    var key := KeyOf(c, c.paneHosts[send.pane], send.pane, send.body);
    if send.from == SYSTEM_ID { RecordHolds(s.b, s'.b, key, c.ttl, k); }
  }

  lemma {:induction false} RecordHolds(b: Board, b': Board, key: L.Key, ttl: nat, k: L.Key)
    requires b'.entries == L.Recorded(b.entries, key, b.now, ttl)
    ensures |L.Occurrences(b'.entries, k)| == |L.Occurrences(b.entries, k)| + (if k == key then 1 else 0)
  {
  }

  lemma {:induction false} RecordVouched(c: Config, s: System, s': System, send: Send)
    requires Vouched(c, s) && send.pane in c.paneHosts
    requires s'.b == RecordSend(c, s.b, send) && s'.sends == s.sends + multiset{send} && s'.poll == s.poll
    ensures Vouched(c, s')
  {
    forall k: L.Key | k.team == c.team ensures Unread(s', k) + InFlight(c, s', k) <= Held(s', k) {
      RecordAccount(c, s, s', send, k);
    }
    RecordKeepsRows(s, s', send, c);
    forall h, p: nat | p < |Items(s'.b, h)| ensures OwnRowOK(c, s', h, p) { assert OwnRowOK(c, s, h, p); }
  }

  lemma {:induction false} RecordKeepsRows(s: System, s': System, send: Send, c: Config)
    requires send.pane in c.paneHosts && s'.b == RecordSend(c, s.b, send) && s'.poll == s.poll
    ensures s'.b.history == s.b.history && forall h :: Items(s'.b, h) == Items(s.b, h) && Done(s', h) == Done(s, h)
  {
  }

  /** What issuing a send does to the occurrences held. */
  lemma {:induction false} IssueHeld(c: Config, s: System, step: Step, k: L.Key)
    requires Enabled(c, s, step) && step.BroadcastSend? && Honest(step)
    ensures var key := KeyOf(c, c.paneHosts[step.send.pane], step.send.pane, step.send.body);
      Held(Next(c, s, step), k) >= Held(s, k)
        - (if step.send.from == SYSTEM_ID && step.out.Lost? && k == key && Held(s, k) > 0 then 1 else 0)
  {
  }

  lemma {:induction false} SendVouched(c: Config, s: System, step: Step)
    requires Inv(c, s) && Enabled(c, s, step) && step.BroadcastSend? && Honest(step) && Vouched(c, s)
    ensures Vouched(c, Next(c, s, step))
  {
    SendGrew(c, s, step);
    var s' := Next(c, s, step);
    var send := step.send;
    var host := c.paneHosts[send.pane];
    assert forall h :: Done(s', h) == Done(s, h);
    if step.out.Lost? {
      assert forall h :: Items(s'.b, h) == Items(s.b, h);
      forall h, p: nat | p < |Items(s'.b, h)| ensures OwnRowOK(c, s', h, p) { assert OwnRowOK(c, s, h, p); }
    } else {
      RowsAppended(c, s, s', host, Item(Row(step.out.id, send.from, send.pane, send.body), Written));
    }
    forall k: L.Key | k.team == c.team ensures Unread(s', k) + InFlight(c, s', k) <= Held(s', k) {
      IssueHeld(c, s, step, k);
      DoneWithinStore(s, k.destHost);
      IssuedAccount(c, s, s', send, step.out, k);
    }
  }

  /** A send leaves flight for the store, or altogether. */
  lemma {:induction false} IssuedAccount(c: Config, s: System, s': System, send: Send, out: Outcome, k: L.Key)
    requires send.pane in c.paneHosts && send in s.sends && s'.sends == s.sends - multiset{send} && k.team == c.team
    requires send.from == SYSTEM_ID ==> !out.Unsure?
    requires Done(s', k.destHost) == Done(s, k.destHost) <= |Items(s.b, k.destHost)|
    requires s'.b.stores == Deliver(s.b, c.paneHosts[send.pane], send.from, send.pane, send.body, out, Written).stores
    ensures var key := KeyOf(c, c.paneHosts[send.pane], send.pane, send.body);
      Unread(s', k) + InFlight(c, s', k) ==
        Unread(s, k) + InFlight(c, s, k) - (if send.from == SYSTEM_ID && out.Lost? && k == key then 1 else 0)
  {
    var key := KeyOf(c, c.paneHosts[send.pane], send.pane, send.body);
    LandsUnread(c, s, s', send, out, k);
    LeavesFlight(c, s, s', send, k);
  }

  lemma {:induction false} LeavesFlight(c: Config, s: System, s': System, send: Send, k: L.Key)
    requires send.pane in c.paneHosts && send in s.sends && s'.sends == s.sends - multiset{send} && k.team == c.team
    ensures InFlight(c, s', k) == InFlight(c, s, k)
      - (if send.from == SYSTEM_ID && k == KeyOf(c, c.paneHosts[send.pane], send.pane, send.body) then 1 else 0)
  {
  }

  lemma {:induction false} LandsUnread(c: Config, s: System, s': System, send: Send, out: Outcome, k: L.Key)
    requires send.pane in c.paneHosts && k.team == c.team
    requires Done(s', k.destHost) == Done(s, k.destHost) <= |Items(s.b, k.destHost)|
    requires s'.b.stores == Deliver(s.b, c.paneHosts[send.pane], send.from, send.pane, send.body, out, Written).stores
    ensures var key := KeyOf(c, c.paneHosts[send.pane], send.pane, send.body);
      Unread(s', k) == Unread(s, k) + (if send.from == SYSTEM_ID && !out.Lost? && k == key then 1 else 0)
  {
    if out.Lost? {
      assert Items(s'.b, k.destHost) == Items(s.b, k.destHost);
    } else {
      var item := Item(Row(out.id, send.from, send.pane, send.body), Written);
      UnreadAppended(s, s', c.paneHosts[send.pane], item, k);
    }
  }

  // ------------------------------------------------------------ one row read

  /** The row being processed, read from the store. */
  lemma {:induction false} NextRow(s: System)
    requires PollOK(s) && FromCursor(s) && s.poll.Some? && s.poll.value.next < |s.poll.value.rows|
    ensures var p := s.poll.value;
      && Done(s, p.host) == p.first + p.next < |Items(s.b, p.host)|
      && Items(s.b, p.host)[p.first + p.next].row == p.rows[p.next]
  {
  }

  /** An own row that is next to be read finds an occurrence, which it uses up. */
  lemma {:induction false} OwnRowBelieved(c: Config, s: System)
    requires Vouched(c, s) && PollOK(s) && FromCursor(s) && Unexpired(s.b)
    requires s.poll.Some? && s.poll.value.next < |s.poll.value.rows|
    requires s.poll.value.rows[s.poll.value.next].from == SYSTEM_ID
    ensures var p := s.poll.value;
            var row := p.rows[p.next];
            var key := KeyOf(c, p.host, row.to, row.body);
      && Records(c, s.b, p.host, row) && L.Matches(s.b.entries, key, s.b.now)
      && |L.Occurrences(L.Consumed(s.b.entries, key, s.b.now), key)| == Held(s, key) - 1
  {
    NextRow(s);
    var p := s.poll.value;
    var items := Items(s.b, p.host);
    var d := p.first + p.next;
    var row := p.rows[p.next];
    var key := KeyOf(c, p.host, row.to, row.body);
    assert OwnRowOK(c, s, p.host, d);
    OwnFromNext(items, d, key);
    assert IsOwn(items[d], key);
  }

  /** The stores after a row was read: perhaps with a pane's row elsewhere. */
  ghost predicate ReadStores(s: System, s': System, host: string) {
    && Done(s, host) < |Items(s.b, host)|
    && (forall h :: Done(s', h) == Done(s, h) + (if h == host then 1 else 0))
    && (s'.b.stores == s.b.stores || exists dest, item: Item ::
          dest != host && item.row.from != SYSTEM_ID && s'.b.stores == s.b.stores[dest := Items(s.b, dest) + [item]])
  }

  lemma {:induction false} RowReads(c: Config, s: System, s': System, out: Outcome)
    requires Inv(c, s) && FromCursor(s) && AfterRow(c, s, s') && IsRowRead(c, s, s', out)
    ensures ReadStores(s, s', s.poll.value.host)
  {
    NextRow(s);
    RowGrown(c, s, s');
    var p := s.poll.value;
    var row := p.rows[p.next];
    ProcessRowStores(c, s.b, p.host, p.first + p.next, row, out);
  }

  /** The next state processed the poll's next row. */
  ghost predicate IsRowRead(c: Config, s: System, s': System, out: Outcome) {
    && s.poll.Some? && s.poll.value.next < |s.poll.value.rows|
    && var p := s.poll.value;
       s'.b == ProcessRow(c, s.b, p.host, p.first + p.next, p.rows[p.next], out)
  }

  /** Reading moves one row out of the unread ones. */
  lemma {:induction false} ReadAccount(s: System, s': System, host: string, k: L.Key)
    requires ReadStores(s, s', host) && Done(s, k.destHost) <= |Items(s.b, k.destHost)|
    ensures Unread(s', k) == Unread(s, k) - (if k.destHost == host then One(Items(s.b, host)[Done(s, host)], k) else 0)
  {
    var h := k.destHost;
    var d := Done(s, h);
    if h == host {
      assert Items(s'.b, host) == Items(s.b, host);
      OwnFromNext(Items(s.b, host), d, k);
    } else if s'.b.stores != s.b.stores {
      var dest, item: Item :| dest != host && item.row.from != SYSTEM_ID
        && s'.b.stores == s.b.stores[dest := Items(s.b, dest) + [item]];
      UnreadAppended(s, s', dest, item, k);
    }
  }

  /** Only the key of an own row loses an occurrence. */
  lemma {:induction false} ReadHeld(c: Config, s: System, s': System, k: L.Key, out: Outcome)
    requires Vouched(c, s) && PollOK(s) && LedgerOK(c, s.b) && SYSTEM_ID !in c.paneHosts
    requires FromCursor(s) && Unexpired(s.b)
    requires IsRowRead(c, s, s', out) && k.team == c.team
    ensures var host := s.poll.value.host;
      && Done(s, host) < |Items(s.b, host)|
      && Held(s', k) >= Held(s, k) - (if k.destHost == host then One(Items(s.b, host)[Done(s, host)], k) else 0)
  {
    NextRow(s);
    var p := s.poll.value;
    var row := p.rows[p.next];
    ReadEntries(c, s.b, p.host, p.first + p.next, row, out);
    if row.from == SYSTEM_ID {
      OwnRowBelieved(c, s);
      ConsumesOne(s.b.entries, KeyOf(c, p.host, row.to, row.body), s.b.now, k);
    }
  }

  lemma {:induction false} ReadEntries(c: Config, b: Board, host: string, pos: nat, row: Row, out: Outcome)
    requires LedgerOK(c, b) && SYSTEM_ID !in c.paneHosts
    ensures ProcessRow(c, b, host, pos, row, out).entries ==
      if row.from == SYSTEM_ID then L.Consumed(b.entries, KeyOf(c, host, row.to, row.body), b.now) else b.entries
  {
    ProcessRowNotes(c, b, host, pos, row, out);
  }

  lemma {:induction false} ConsumesOne(entries: L.Entries, key: L.Key, now: int, k: L.Key)
    ensures k != key ==> L.Occurrences(L.Consumed(entries, key, now), k) == L.Occurrences(entries, k)
  {
  }

  lemma {:induction false} RowVouched(c: Config, s: System, step: Step)
    requires Inv(c, s) && Enabled(c, s, step) && step.PollRow? && FromCursor(s) && Unexpired(s.b) && Vouched(c, s)
    ensures Vouched(c, Next(c, s, step))
  {
    var s' := Next(c, s, step);
    RowAfter(c, s, step);
    RowStepIs(c, s, step);
    RowReads(c, s, s', step.out);
    forall k: L.Key | k.team == c.team ensures Unread(s', k) + InFlight(c, s', k) <= Held(s', k) {
      DoneWithinStore(s, k.destHost);
      ReadAccount(s, s', s.poll.value.host, k);
      ReadHeld(c, s, s', k, step.out);
    }
    forall h, p: nat | p < |Items(s'.b, h)| ensures OwnRowOK(c, s', h, p) { OwnRowRead(c, s, s', h, p); }
  }

  lemma {:induction false} OwnRowRead(c: Config, s: System, s': System, h: string, p: nat)
    requires Vouched(c, s) && PollOK(s) && FromCursor(s) && Unexpired(s.b) && AfterRow(c, s, s')
    requires ReadStores(s, s', s.poll.value.host) && p < |Items(s'.b, h)|
    ensures OwnRowOK(c, s', h, p)
  {
    if p < |Items(s.b, h)| {
      ItemKept(s.b, s'.b, h, p);
      RecordedKept(s.b, s'.b, h, p);
      assert OwnRowOK(c, s, h, p);
      if p == Done(s, h) && h == s.poll.value.host { RowRecorded(c, s, s'); }
    } else {
      NewRowIsAPanes(s, s', s.poll.value.host, h, p);
    }
  }

  lemma {:induction false} NewRowIsAPanes(s: System, s': System, host: string, h: string, p: nat)
    requires ReadStores(s, s', host) && |Items(s.b, h)| <= p < |Items(s'.b, h)|
    ensures Items(s'.b, h)[p].row.from != SYSTEM_ID
  {
  }

  /** An own row that was just read is in the history. */
  lemma {:induction false} RowRecorded(c: Config, s: System, s': System)
    requires Vouched(c, s) && PollOK(s) && FromCursor(s) && Unexpired(s.b) && AfterRow(c, s, s')
    ensures var host := s.poll.value.host;
      && Done(s, host) < |Items(s.b, host)|
      && (Items(s.b, host)[Done(s, host)].row.from == SYSTEM_ID ==> Recorded(s'.b, host, Done(s, host)))
  {
    NextRow(s);
    var poll := s.poll.value;
    var d := poll.first + poll.next;
    if poll.rows[poll.next].from == SYSTEM_ID {
      OwnRowBelieved(c, s);
      assert s'.b.history[|s.b.history|] == Entry(poll.host, d, poll.rows[poll.next]);
    }
  }

  // ------------------------------------------------------------------- runs

  lemma {:induction false} StepVouched(c: Config, s: System, step: Step)
    requires Inv(c, s) && Enabled(c, s, step) && FromCursor(s) && Vouched(c, s)
    requires Unexpired(s.b) && Honest(step) && Reaches(s, step)
    ensures Vouched(c, Next(c, s, step))
  {
    match step
    case Author(_, _) => AuthorVouched(c, s, step);
    case PollStart(host, limit) =>
      StartPollReads(s.b, host, limit);
      StartPollOK(s, Next(c, s, step), StartPoll(s.b, host, limit));
      SameVouched(c, s, Next(c, s, step));
    case PollRow(_) => RowVouched(c, s, step);
    case PollEnd =>
      EndPollOK(s, Next(c, s, step));
      SameVouched(c, s, Next(c, s, step));
    case BroadcastRecord(send) => RecordVouched(c, s, Next(c, s, step), send);
    case BroadcastSend(_, _) => SendVouched(c, s, step);
    case Advance(_) =>
      AppendStep(c, s, step);
      SameVouched(c, s, Next(c, s, step));
  }

  lemma {:induction false} RunVouched(c: Config, s: System, steps: seq<Step>)
    requires Inv(c, s) && FromCursor(s) && Vouched(c, s) && Allowed(c, s, steps) && Undisturbed(c, s, steps)
    ensures Inv(c, Run(c, s, steps)) && Vouched(c, Run(c, s, steps))
    decreases steps
  {
    if steps != [] {
      StepVouched(c, s, steps[0]);
      StepInv(c, s, steps[0]);
      StepFromCursor(c, s, steps[0]);
      RunVouched(c, Next(c, s, steps[0]), steps[1..]);
    }
  }

  /** Over every interleaving in which nobody else writes in panemux's name, its
      sends fail only undelivered, no held occurrence expires and every window
      reaches back to its cursor: each row panemux sent, and a finished poll
      passed, is in the history, however many alike there are. */
  lemma {:induction false} OwnSendsArrive(c: Config, now: int, steps: seq<Step>, host: string, p: nat)
    requires SYSTEM_ID !in c.paneHosts && Allowed(c, Initial(now), steps) && Undisturbed(c, Initial(now), steps)
    requires var s := Run(c, Initial(now), steps);
      p < Position(s.b, host) && p < |Items(s.b, host)| && Items(s.b, host)[p].row.from == SYSTEM_ID
    ensures Recorded(Run(c, Initial(now), steps).b, host, p)
  {
    InitialInv(c, now);
    assert forall k: L.Key :: Unread(Initial(now), k) == 0;
    RunVouched(c, Initial(now), steps);
    var s := Run(c, Initial(now), steps);
    PositionWithinDone(s, host);
    assert OwnRowOK(c, s, host, p);
  }
}
