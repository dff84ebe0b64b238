/** The Agent Board relay: hosts with append-only message stores, one poller
    that reads a bounded window after an opaque cursor, validates senders,
    records history and forwards across hosts, and broadcasts of panemux's
    own that a ledger vouches for.

    A board is what the relay and the stores hold; `pos` in history entries,
    in forwards and in a copy's origin, and `recorded`, only observe. */
module Relay {
  import opened Text
  import L = Ledger

  const SYSTEM_ID := "_system"

  /** One message; its ID is opaque and unique in its host's store only. */
  datatype Row = Row(id: string, from: string, to: string, body: string)

  /** How a row came into a store: written on the host (or sent there by a
      broadcast), or forwarded from position `pos` of another host's store. */
  datatype Origin = Written | Copy(host: string, pos: nat)

  datatype Item = Item(row: Row, origin: Origin)

  /** Fixed routing, team and ledger lifetime. */
  datatype Config = Config(paneHosts: map<string, string>, clients: set<string>, team: string, ttl: nat)

  datatype Entry = Entry(host: string, pos: nat, row: Row)

  datatype Forward = Forward(host: string, pos: nat, dest: string)

  datatype Board = Board(
    stores: map<string, seq<Item>>, cursors: map<string, string>, history: seq<Entry>,
    forwards: seq<Forward>, entries: L.Entries, now: int, recorded: multiset<L.Key>)

  /** What became of a Send: delivered under a new ID, delivered although an
      error was reported (a timeout after the fact), or not delivered. */
  datatype Outcome = Delivered(id: string) | Unsure(id: string) | Lost

  // ------------------------------------------------------------ the window

  function Items(b: Board, host: string): seq<Item> {
    if host in b.stores then b.stores[host] else []
  }

  function Rows(items: seq<Item>): (rows: seq<Row>)
    ensures |rows| == |items|
  {
    seq(|items|, i requires 0 <= i < |items| => items[i].row)
  }

  /** The newest `limit` rows, oldest first. */
  function Window(rows: seq<Row>, limit: nat): seq<Row> {
    if |rows| <= limit then rows else rows[|rows| - limit..]
  }

  /** One past the last occurrence of the ID, 0 when it does not occur. */
  function After(rows: seq<Row>, id: string): (n: nat)
    ensures n <= |rows|
  {
    if rows == [] then 0
    else
      var n := |rows| - 1;
      if rows[n].id == id then n + 1 else After(rows[..n], id)
  }

  lemma {:induction false} AfterIsLast(rows: seq<Row>, id: string)
    ensures After(rows, id) > 0 ==> rows[After(rows, id) - 1].id == id
    ensures forall i :: After(rows, id) <= i < |rows| ==> rows[i].id != id
  {
    if rows != [] && rows[|rows| - 1].id != id { AfterIsLast(rows[..|rows| - 1], id); }
  }

  /** The rows following the cursor; every row when there is no cursor yet or
      the window does not hold it. */
  function FilterAfter(rows: seq<Row>, cursor: string): seq<Row> {
    if cursor == "" then rows else rows[After(rows, cursor)..]
  }

  method FilterRowsAfter(rows: seq<Row>, afterID: string) returns (r: seq<Row>)
    ensures r == FilterAfter(rows, afterID)
  {
    if afterID == "" { return rows; }
    var anchor: int := -1;
    for i := 0 to |rows|
      invariant anchor == After(rows[..i], afterID) - 1
    {
      assert rows[..i + 1][..i] == rows[..i];
      if rows[i].id == afterID { anchor := i; }
    }
    assert rows[..|rows|] == rows;
    if anchor < 0 { return rows; }
    return rows[anchor + 1..];
  }

  function Since(b: Board, host: string, limit: nat): seq<Row> {
    FilterAfter(Window(Rows(Items(b, host)), limit), Cursor(b, host))
  }

  function Cursor(b: Board, host: string): string {
    if host in b.cursors then b.cursors[host] else ""
  }

  // ------------------------------------------------------------- one row

  function KeyOf(c: Config, host: string, to: string, body: string): L.Key {
    L.Key(host, c.team, to, body)
  }

  /** Whether the sender is who the row says: a pane of that host, or panemux
      itself when the ledger vouches for it. */
  predicate ValidFrom(c: Config, b: Board, host: string, row: Row) {
    if row.from == SYSTEM_ID then L.Matches(b.entries, KeyOf(c, host, row.to, row.body), b.now)
    else row.from in c.paneHosts && c.paneHosts[row.from] == host
  }

  function Checked(c: Config, b: Board, host: string, row: Row): Board {
    if row.from == SYSTEM_ID then b.(entries := L.Consumed(b.entries, KeyOf(c, host, row.to, row.body), b.now)) else b
  }

  function Append(b: Board, host: string, pos: nat, row: Row): Board {
    b.(history := b.history + [Entry(host, pos, row)])
  }

  function Deliver(b: Board, dest: string, from: string, to: string, body: string, out: Outcome,
      origin: Origin): Board {
    if out.Lost? then b
    else b.(stores := b.stores[dest := Items(b, dest) + [Item(Row(out.id, from, to, body), origin)]])
  }

  /** Whether a recorded row goes on to another host. */
  predicate Crosses(c: Config, host: string, row: Row) {
    row.to != SYSTEM_ID && row.to in c.paneHosts && c.paneHosts[row.to] != host && c.paneHosts[row.to] in c.clients
  }

  function ProcessRow(c: Config, b: Board, host: string, pos: nat, row: Row, out: Outcome): Board {
    var b1 := Checked(c, b, host, row);
    if !ValidFrom(c, b, host, row) then b1
    else if row.to != SYSTEM_ID && row.to !in c.paneHosts then b1
    else
      var b2 := Append(b1, host, pos, row);
      if !Crosses(c, host, row) then b2
      else
        var dest := c.paneHosts[row.to];
        var b3 := b2.(forwards := b2.forwards + [Forward(host, pos, dest)]);
        Deliver(b3, dest, row.from, row.to, row.body, out, Copy(host, pos))
  }

  // ---------------------------------------------------------------- steps

  /** A poll in progress: it read `rows`, which begin at position `first` of
      the host's store, and has processed `next` of them. */
  datatype Poll = Poll(host: string, first: nat, rows: seq<Row>, next: nat)

  /** A broadcast's send that is recorded and not yet issued. */
  datatype Send = Send(from: string, pane: string, body: string)

  datatype System = System(b: Board, poll: Option<Poll>, sends: multiset<Send>)

  datatype Step =
    | Author(host: string, row: Row)
    | PollStart(host: string, limit: nat)
    | PollRow(out: Outcome)
    | PollEnd
    | BroadcastRecord(send: Send)
    | BroadcastSend(send: Send, out: Outcome)
    | Advance(d: nat)

  /** A transport gives every row an ID of its own in that store. */
  predicate FreshID(b: Board, host: string, id: string) {
    id != "" && forall i :: 0 <= i < |Items(b, host)| ==> Items(b, host)[i].row.id != id
  }

  predicate FreshOutcome(b: Board, host: string, out: Outcome) {
    !out.Lost? ==> FreshID(b, host, out.id)
  }

  predicate Enabled(c: Config, s: System, step: Step) {
    match step
    case Author(host, row) => FreshID(s.b, host, row.id)
    case PollStart(host, _) => s.poll.None? && host in c.clients
    case PollRow(out) =>
      && s.poll.Some? && s.poll.value.next < |s.poll.value.rows|
      && forall dest :: dest in c.clients ==> FreshOutcome(s.b, dest, out)
    case PollEnd => s.poll.Some? && s.poll.value.next == |s.poll.value.rows|
    case BroadcastRecord(send) => send.pane in c.paneHosts && c.paneHosts[send.pane] in c.clients
    case BroadcastSend(send, out) =>
      send in s.sends && send.pane in c.paneHosts && FreshOutcome(s.b, c.paneHosts[send.pane], out)
    case Advance(_) => true
  }

  function StartPoll(b: Board, host: string, limit: nat): Poll {
    var rows := Since(b, host, limit);
    var n := |Items(b, host)|;
    Poll(host, if n >= |rows| then n - |rows| else 0, rows, 0)
  }

  function EndPoll(b: Board, host: string, rows: seq<Row>): Board {
    if rows == [] || rows[|rows| - 1].id == Cursor(b, host) then b
    else b.(cursors := b.cursors[host := rows[|rows| - 1].id])
  }

  function RecordSend(c: Config, b: Board, send: Send): Board
    requires send.pane in c.paneHosts
  {
    if send.from != SYSTEM_ID then b
    else
      var key := KeyOf(c, c.paneHosts[send.pane], send.pane, send.body);
      b.(entries := L.Recorded(b.entries, key, b.now, c.ttl), recorded := b.recorded + multiset{key})
  }

  function IssueSend(c: Config, b: Board, send: Send, out: Outcome): Board
    requires send.pane in c.paneHosts
  {
    var host := c.paneHosts[send.pane];
    var b1 := Deliver(b, host, send.from, send.pane, send.body, out, Written);
    if out.Delivered? || send.from != SYSTEM_ID then b1
    else b1.(entries := L.Forgotten(b1.entries, KeyOf(c, host, send.pane, send.body)))
  }

  function Next(c: Config, s: System, step: Step): System
    requires Enabled(c, s, step)
  {
    match step
    case Author(host, row) => s.(b := s.b.(stores := s.b.stores[host := Items(s.b, host) + [Item(row, Written)]]))
    case PollStart(host, limit) => s.(poll := Some(StartPoll(s.b, host, limit)))
    case PollRow(out) =>
      var p := s.poll.value;
      s.(b := ProcessRow(c, s.b, p.host, p.first + p.next, p.rows[p.next], out), poll := Some(p.(next := p.next + 1)))
    case PollEnd => s.(b := EndPoll(s.b, s.poll.value.host, s.poll.value.rows), poll := None)
    case BroadcastRecord(send) => s.(b := RecordSend(c, s.b, send), sends := s.sends + multiset{send})
    case BroadcastSend(send, out) => s.(b := IssueSend(c, s.b, send, out), sends := s.sends - multiset{send})
    case Advance(d) => s.(b := s.b.(now := s.b.now + d))
  }

  predicate Allowed(c: Config, s: System, steps: seq<Step>)
    decreases steps
  {
    steps == [] || (Enabled(c, s, steps[0]) && Allowed(c, Next(c, s, steps[0]), steps[1..]))
  }

  function Run(c: Config, s: System, steps: seq<Step>): System
    requires Allowed(c, s, steps)
    decreases steps
  {
    if steps == [] then s else Run(c, Next(c, s, steps[0]), steps[1..])
  }

  function Initial(now: int): System {
    System(Board(map[], map[], [], [], map[], now, multiset{}), None, multiset{})
  }
}
