/** The relay in the code's own form: one call polls one host, another
    broadcasts, each proved against the steps of `Relay`. What the transport
    and the tool manager answer is a parameter. */
module RelayService {
  import opened Text
  import opened Relay
  import L = Ledger

  function OutcomeAt(outs: seq<Outcome>, i: nat): Outcome {
    if i < |outs| then outs[i] else Lost
  }

  // ------------------------------------------------------------ polling

  /** The board after processing rows `i` onwards. */
  function ProcessFrom(c: Config, b: Board, p: Poll, outs: seq<Outcome>, i: nat): Board
    requires i <= |p.rows|
    decreases |p.rows| - i
  {
    if i == |p.rows| then b
    else ProcessFrom(c, ProcessRow(c, b, p.host, p.first + i, p.rows[i], OutcomeAt(outs, i)), p, outs, i + 1)
  }

  lemma {:induction false} ProcessFromRound(c: Config, b: Board, p: Poll, outs: seq<Outcome>, i: nat)
    requires i < |p.rows|
    ensures ProcessFrom(c, b, p, outs, i)
         == ProcessFrom(c, ProcessRow(c, b, p.host, p.first + i, p.rows[i], OutcomeAt(outs, i)), p, outs, i + 1)
  {
  }

  /** The board after one undisturbed poll of the host. */
  function Polled(c: Config, b: Board, host: string, limit: nat, outs: seq<Outcome>): Board {
    var p := StartPoll(b, host, limit);
    EndPoll(ProcessFrom(c, b, p, outs, 0), host, p.rows)
  }

  function PollRows(outs: seq<Outcome>, i: nat, n: nat): seq<Step>
    decreases n - i
  {
    if i >= n then [PollEnd] else [PollRow(OutcomeAt(outs, i))] + PollRows(outs, i + 1, n)
  }

  lemma {:induction false} ProcessFromIsSteps(c: Config, s: System, outs: seq<Outcome>)
    requires s.poll.Some? && s.poll.value.next <= |s.poll.value.rows|
    requires Allowed(c, s, PollRows(outs, s.poll.value.next, |s.poll.value.rows|))
    ensures Run(c, s, PollRows(outs, s.poll.value.next, |s.poll.value.rows|))
         == System(EndPoll(ProcessFrom(c, s.b, s.poll.value, outs, s.poll.value.next),
                           s.poll.value.host, s.poll.value.rows),
                   None, s.sends)
    decreases |s.poll.value.rows| - s.poll.value.next
  {
    var p := s.poll.value;
    var steps := PollRows(outs, p.next, |p.rows|);
    if p.next < |p.rows| {
      var s' := Next(c, s, steps[0]);
      assert steps[1..] == PollRows(outs, p.next + 1, |p.rows|);
      ProcessFromIsSteps(c, s', outs);
      ProcessFromFields(c, s'.b, p, s'.poll.value, outs, p.next + 1);
    } else {
      assert Run(c, s, steps) == Run(c, Next(c, s, PollEnd), []);
    }
  }

  lemma {:induction false} ProcessFromFields(c: Config, b: Board, p: Poll, p': Poll, outs: seq<Outcome>, i: nat)
    requires i <= |p.rows| && p'.host == p.host && p'.first == p.first && p'.rows == p.rows
    ensures ProcessFrom(c, b, p, outs, i) == ProcessFrom(c, b, p', outs, i)
    decreases |p.rows| - i
  {
    if i < |p.rows| {
      ProcessFromFields(c, ProcessRow(c, b, p.host, p.first + i, p.rows[i], OutcomeAt(outs, i)), p, p', outs, i + 1);
    }
  }

  /** A poll nothing interferes with is its steps, one after the other. */
  lemma {:induction false} PolledIsSteps(c: Config, b: Board, host: string, limit: nat, outs: seq<Outcome>)
    requires host in c.clients
    requires Allowed(c, System(b, None, multiset{}),
               [PollStart(host, limit)] + PollRows(outs, 0, |StartPoll(b, host, limit).rows|))
    ensures Run(c, System(b, None, multiset{}),
               [PollStart(host, limit)] + PollRows(outs, 0, |StartPoll(b, host, limit).rows|)).b
         == Polled(c, b, host, limit, outs)
  {
    var s := System(b, None, multiset{});
    var steps := [PollStart(host, limit)] + PollRows(outs, 0, |StartPoll(b, host, limit).rows|);
    assert steps[1..] == PollRows(outs, 0, |StartPoll(b, host, limit).rows|);
    ProcessFromIsSteps(c, Next(c, s, steps[0]), outs);
  }

  // -------------------------------------------------------- broadcasting

  datatype Broadcast = Broadcast(b: Board, delivered: seq<string>, failed: bool)

  predicate Reachable(c: Config, refused: set<string>, pane: string) {
    pane in c.paneHosts && c.paneHosts[pane] in c.clients && c.paneHosts[pane] !in refused
  }

  /** Sends to the targets from number `i` on, stopping at the first failure. */
  function SendFrom(c: Config, b: Board, from: string, to: seq<string>, body: string, refused: set<string>,
                    outs: seq<Outcome>, i: nat): Broadcast
    requires i <= |to|
    decreases |to| - i
  {
    if i == |to| then Broadcast(b, to, false)
    else if !Reachable(c, refused, to[i]) then Broadcast(b, to[..i], true)
    else
      var send := Send(from, to[i], body);
      var b1 := IssueSend(c, RecordSend(c, b, send), send, OutcomeAt(outs, i));
      if OutcomeAt(outs, i).Delivered? then SendFrom(c, b1, from, to, body, refused, outs, i + 1)
      else Broadcast(b1, to[..i], true)
  }

  function Broadcasting(c: Config, b: Board, from: string, to: seq<string>, body: string, refused: set<string>,
                        outs: seq<Outcome>): Broadcast
  {
    if exists pane :: pane in to && pane !in c.paneHosts then Broadcast(b, [], true)
    else SendFrom(c, b, from, to, body, refused, outs, 0)
  }

  /** The ledger keys of the sends to these panes. */
  function Keys(c: Config, panes: seq<string>, body: string): multiset<L.Key>
    requires forall pane :: pane in panes ==> pane in c.paneHosts
  {
    if panes == [] then multiset{}
    else
      var n := |panes| - 1;
      Keys(c, panes[..n], body) + multiset{KeyOf(c, c.paneHosts[panes[n]], panes[n], body)}
  }

  /** Each key holds the occurrences it held before, and one more for every
      time it was delivered to. */
  ghost predicate OneMorePer(before: L.Entries, after: L.Entries, sent: multiset<L.Key>) {
    forall k :: |L.Occurrences(after, k)| == |L.Occurrences(before, k)| + sent[k]
  }

  /** What one send of panemux's own does to the ledger. */
  lemma {:induction false} SendEntries(c: Config, b: Board, pane: string, body: string, out: Outcome)
    requires pane in c.paneHosts && L.Inv(b.entries, b.now, c.ttl)
    ensures var send := Send(SYSTEM_ID, pane, body);
            var key := KeyOf(c, c.paneHosts[pane], pane, body);
            var b1 := IssueSend(c, RecordSend(c, b, send), send, out);
      && b1.now == b.now
      && (out.Delivered? ==> b1.entries == L.Recorded(b.entries, key, b.now, c.ttl))
      && (!out.Delivered? ==> b1.entries == L.Forgotten(L.Recorded(b.entries, key, b.now, c.ttl), key))
  {
  }

  lemma {:induction false} KeysSnoc(c: Config, to: seq<string>, body: string, i: nat)
    requires i < |to| && forall pane :: pane in to ==> pane in c.paneHosts
    ensures Keys(c, to[..i + 1], body) == Keys(c, to[..i], body) + multiset{KeyOf(c, c.paneHosts[to[i]], to[i], body)}
  {
    assert to[..i + 1][..i] == to[..i];
  }

  lemma {:induction false} OneMoreRecorded(before: L.Entries, entries: L.Entries, sent: multiset<L.Key>, key: L.Key,
      now: int, ttl: nat)
    requires L.Inv(entries, now, ttl) && OneMorePer(before, entries, sent)
    ensures OneMorePer(before, L.Recorded(entries, key, now, ttl), sent + multiset{key})
    ensures L.Inv(L.Recorded(entries, key, now, ttl), now, ttl)
  {
    L.RecordRefines(entries, key, now, ttl);
  }

  lemma {:induction false} SendFromLedger(c: Config, b0: Board, b: Board, to: seq<string>, body: string,
                                          refused: set<string>, outs: seq<Outcome>, i: nat)
    requires i <= |to| && L.Inv(b.entries, b.now, c.ttl)
    requires forall pane :: pane in to ==> pane in c.paneHosts
    requires OneMorePer(b0.entries, b.entries, Keys(c, to[..i], body))
    ensures var r := SendFrom(c, b, SYSTEM_ID, to, body, refused, outs, i);
      && r.delivered <= to && (r.failed <==> |r.delivered| < |to|)
      && OneMorePer(b0.entries, r.b.entries, Keys(c, r.delivered, body))
    decreases |to| - i
  {
    if i == |to| {
      assert to[..i] == to;
    } else if Reachable(c, refused, to[i]) {
      var out := OutcomeAt(outs, i);
      SendEntries(c, b, to[i], body, out);
      if out.Delivered? {
        var send := Send(SYSTEM_ID, to[i], body);
        KeysSnoc(c, to, body, i);
        OneMoreRecorded(b0.entries, b.entries, Keys(c, to[..i], body),
                        KeyOf(c, c.paneHosts[to[i]], to[i], body), b.now, c.ttl);
        SendFromLedger(c, b0, IssueSend(c, RecordSend(c, b, send), send, out), to, body, refused, outs, i + 1);
      } else {
        L.ForgetUndoesRecord(b.entries, KeyOf(c, c.paneHosts[to[i]], to[i], body), b.now, c.ttl);
      }
    }
  }

  /** An undisturbed broadcast in panemux's name delivers to a prefix of its
      targets, all of them exactly when it reports no failure, and leaves one
      extra ledger occurrence per delivered target, repeated targets
      included; a target nobody knows leaves everything as it was. */
  lemma {:induction false} BroadcastLeavesOnePerDelivery(c: Config, b: Board, to: seq<string>, body: string,
                                                         refused: set<string>, outs: seq<Outcome>)
    requires L.Inv(b.entries, b.now, c.ttl)
    ensures var r := Broadcasting(c, b, SYSTEM_ID, to, body, refused, outs);
      && r.delivered <= to
      && (forall pane :: pane in r.delivered ==> pane in c.paneHosts)
      && OneMorePer(b.entries, r.b.entries, Keys(c, r.delivered, body))
      && (r.failed <==> |r.delivered| < |to|)
      && ((exists pane :: pane in to && pane !in c.paneHosts) ==> r == Broadcast(b, [], true))
  {
    if !exists pane :: pane in to && pane !in c.paneHosts {
      assert to[..0] == [];
      SendFromLedger(c, b, b, to, body, refused, outs, 0);
    }
  }

  /** The host of target i is known to a transport that may be used now, and
      its send goes through. */
  predicate Delivers(c: Config, to: seq<string>, refused: set<string>, outs: seq<Outcome>, i: nat)
    requires i < |to| && to[i] in c.paneHosts
  {
    c.paneHosts[to[i]] in c.clients && c.paneHosts[to[i]] !in refused && OutcomeAt(outs, i).Delivered?
  }

  /** The rows that the sends to the first n targets left on the host: one for
      each target there whose send was not lost, in order. */
  function Landed(c: Config, from: string, to: seq<string>, body: string, outs: seq<Outcome>, n: nat, host: string):
    seq<Item>
    requires n <= |to| && forall pane :: pane in to ==> pane in c.paneHosts
  {
    if n == 0 then []
    else
      var i := n - 1;
      Landed(c, from, to, body, outs, i, host)
      + (if c.paneHosts[to[i]] == host && i < |outs| && !outs[i].Lost?
         then [Item(Row(outs[i].id, from, to[i], body), Written)] else [])
  }

  /** How many sends were issued: those that delivered, and one more if the next
      target's host could be reached. */
  function Issued(c: Config, to: seq<string>, refused: set<string>, delivered: nat): nat {
    if delivered < |to| && to[delivered] in c.paneHosts && c.paneHosts[to[delivered]] in c.clients
       && c.paneHosts[to[delivered]] !in refused
    then delivered + 1 else delivered
  }

  /** What a broadcast to known targets leaves: on each host the rows of its
      sends behind what was there, in panemux's own name a record of each, and
      nothing else changed but the ledger. */
  ghost predicate Leaves(c: Config, b: Board, from: string, to: seq<string>, body: string, refused: set<string>,
                         outs: seq<Outcome>, r: Broadcast)
    requires forall pane :: pane in to ==> pane in c.paneHosts
  {
    var n := Issued(c, to, refused, |r.delivered|);
    && |r.delivered| <= |to|
    && (forall host :: Items(r.b, host) == Items(b, host) + Landed(c, from, to, body, outs, n, host))
    && r.b.recorded == b.recorded + (if from == SYSTEM_ID then Keys(c, to[..n], body) else multiset{})
    && r.b == b.(stores := r.b.stores, entries := r.b.entries, recorded := r.b.recorded)
  }

  /** A broadcast in anybody's name puts its rows exactly where they belong; one
      to a target nobody knows puts none anywhere. */
  lemma {:induction false} BroadcastLands(c: Config, b: Board, from: string, to: seq<string>, body: string,
                                          refused: set<string>, outs: seq<Outcome>)
    ensures var r := Broadcasting(c, b, from, to, body, refused, outs);
      if forall pane :: pane in to ==> pane in c.paneHosts then Leaves(c, b, from, to, body, refused, outs, r)
      else r.b == b && r.delivered == [] && r.failed
  {
    if forall pane :: pane in to ==> pane in c.paneHosts {
      assert to[..0] == [];
      SendFromLands(c, b, b, from, to, body, refused, outs, 0);
    }
  }

  /** After the sends to the first n targets, all delivered. */
  ghost predicate SentSoFar(c: Config, b0: Board, b: Board, from: string, to: seq<string>, body: string,
                            outs: seq<Outcome>, n: nat)
    requires n <= |to| && forall pane :: pane in to ==> pane in c.paneHosts
  {
    && (forall host :: Items(b, host) == Items(b0, host) + Landed(c, from, to, body, outs, n, host))
    && b.recorded == b0.recorded + (if from == SYSTEM_ID then Keys(c, to[..n], body) else multiset{})
    && b == b0.(stores := b.stores, entries := b.entries, recorded := b.recorded)
  }

  lemma {:induction false} OneMoreSent(c: Config, b0: Board, b: Board, from: string, to: seq<string>, body: string,
                                       outs: seq<Outcome>, n: nat)
    requires n < |to| && forall pane :: pane in to ==> pane in c.paneHosts
    requires SentSoFar(c, b0, b, from, to, body, outs, n)
    ensures var send := Send(from, to[n], body);
      SentSoFar(c, b0, IssueSend(c, RecordSend(c, b, send), send, OutcomeAt(outs, n)), from, to, body, outs, n + 1)
  {
    var send := Send(from, to[n], body);
    var b1 := IssueSend(c, RecordSend(c, b, send), send, OutcomeAt(outs, n));
    OneMoreOnly(c, b, send, OutcomeAt(outs, n));
    forall host ensures Items(b1, host) == Items(b0, host) + Landed(c, from, to, body, outs, n + 1, host) {
      OneMoreItem(c, b, from, to[n], body, OutcomeAt(outs, n), host);
      OneMoreLanded(c, Items(b0, host), Items(b, host), Items(b1, host), from, to, body, outs, n, host);
    }
    OneMoreKey(c, b0, b, b1, from, to, body, n);
  }

  lemma {:induction false} OneMoreLanded(c: Config, items0: seq<Item>, items: seq<Item>, items1: seq<Item>,
                                         from: string, to: seq<string>, body: string, outs: seq<Outcome>, n: nat,
                                         host: string)
    requires n < |to| && forall pane :: pane in to ==> pane in c.paneHosts
    requires items == items0 + Landed(c, from, to, body, outs, n, host)
    requires var out := OutcomeAt(outs, n);
      items1 == items
        + (if c.paneHosts[to[n]] == host && !out.Lost? then [Item(Row(out.id, from, to[n], body), Written)] else [])
    ensures items1 == items0 + Landed(c, from, to, body, outs, n + 1, host)
  {
  }

  lemma {:induction false} OneMoreKey(c: Config, b0: Board, b: Board, b1: Board, from: string, to: seq<string>,
                                      body: string, n: nat)
    requires n < |to| && forall pane :: pane in to ==> pane in c.paneHosts
    requires b.recorded == b0.recorded + (if from == SYSTEM_ID then Keys(c, to[..n], body) else multiset{})
    requires b1.recorded == b.recorded + (if from == SYSTEM_ID then multiset{KeyOf(c, c.paneHosts[to[n]], to[n], body)}
                                          else multiset{})
    ensures b1.recorded == b0.recorded + (if from == SYSTEM_ID then Keys(c, to[..n + 1], body) else multiset{})
  {
    KeysSnoc(c, to, body, n);
  }

  lemma {:induction false} OneMoreOnly(c: Config, b: Board, send: Send, out: Outcome)
    requires send.pane in c.paneHosts
    ensures var b1 := IssueSend(c, RecordSend(c, b, send), send, out);
      && b1 == b.(stores := b1.stores, entries := b1.entries, recorded := b1.recorded)
      && b1.recorded == b.recorded
           + (if send.from == SYSTEM_ID then multiset{KeyOf(c, c.paneHosts[send.pane], send.pane, send.body)}
              else multiset{})
  {
  }

  lemma {:induction false} OneMoreItem(c: Config, b: Board, from: string, pane: string, body: string, out: Outcome,
                                       host: string)
    requires pane in c.paneHosts
    ensures var send := Send(from, pane, body);
      Items(IssueSend(c, RecordSend(c, b, send), send, out), host) ==
        Items(b, host)
        + (if c.paneHosts[pane] == host && !out.Lost? then [Item(Row(out.id, from, pane, body), Written)] else [])
  {
  }

  lemma {:induction false} SendFromLands(c: Config, b0: Board, b: Board, from: string, to: seq<string>, body: string,
                                         refused: set<string>, outs: seq<Outcome>, n: nat)
    requires n <= |to| && forall pane :: pane in to ==> pane in c.paneHosts
    requires SentSoFar(c, b0, b, from, to, body, outs, n)
    ensures Leaves(c, b0, from, to, body, refused, outs, SendFrom(c, b, from, to, body, refused, outs, n))
    decreases |to| - n
  {
    if n < |to| && Reachable(c, refused, to[n]) {
      var send := Send(from, to[n], body);
      OneMoreSent(c, b0, b, from, to, body, outs, n);
      if OutcomeAt(outs, n).Delivered? {
        var b1 := IssueSend(c, RecordSend(c, b, send), send, OutcomeAt(outs, n));
        SendFromLands(c, b0, b1, from, to, body, refused, outs, n + 1);
      }
    }
  }

  /** All before the end were delivered to, and the next could not be. */
  ghost predicate StopsRightly(c: Config, to: seq<string>, refused: set<string>, outs: seq<Outcome>,
      delivered: seq<string>)
    requires forall pane :: pane in to ==> pane in c.paneHosts
  {
    && delivered <= to
    && (forall i: nat :: i < |delivered| ==> Delivers(c, to, refused, outs, i))
    && (|delivered| < |to| ==> !Delivers(c, to, refused, outs, |delivered|))
  }

  /** With every target known, exactly the targets before the first that cannot
      be delivered to are delivered to. */
  lemma {:induction false} DeliversUntilItCannot(c: Config, b: Board, from: string, to: seq<string>, body: string,
                                                 refused: set<string>, outs: seq<Outcome>)
    requires forall pane :: pane in to ==> pane in c.paneHosts
    ensures StopsRightly(c, to, refused, outs, Broadcasting(c, b, from, to, body, refused, outs).delivered)
  {
    SendFromDelivers(c, b, from, to, body, refused, outs, 0);
  }

  lemma {:induction false} SendFromDelivers(c: Config, b: Board, from: string, to: seq<string>, body: string,
                                            refused: set<string>, outs: seq<Outcome>, n: nat)
    requires forall pane :: pane in to ==> pane in c.paneHosts
    requires n <= |to| && forall i: nat :: i < n ==> Delivers(c, to, refused, outs, i)
    ensures StopsRightly(c, to, refused, outs, SendFrom(c, b, from, to, body, refused, outs, n).delivered)
    decreases |to| - n
  {
    assert to[..n] <= to;
    if n < |to| && Delivers(c, to, refused, outs, n) {
      var send := Send(from, to[n], body);
      var b1 := IssueSend(c, RecordSend(c, b, send), send, OutcomeAt(outs, n));
      SendFromDelivers(c, b1, from, to, body, refused, outs, n + 1);
    }
  }

  /** A broadcast in anyone else's name leaves the ledger alone, and reaches
      the same panes. */
  lemma {:induction false} OthersLeaveLedger(c: Config, b: Board, from: string, to: seq<string>, body: string,
                                             refused: set<string>, outs: seq<Outcome>)
    requires from != SYSTEM_ID
    ensures var r := Broadcasting(c, b, from, to, body, refused, outs);
            var own := Broadcasting(c, b, SYSTEM_ID, to, body, refused, outs);
      r.b.entries == b.entries && r.b.recorded == b.recorded && r.delivered == own.delivered && r.failed == own.failed
  {
    if !exists pane :: pane in to && pane !in c.paneHosts { OthersSendFrom(c, b, b, from, to, body, refused, outs, 0); }
  }

  lemma {:induction false} OthersSendFrom(c: Config, b: Board, b': Board, from: string, to: seq<string>, body: string,
                                          refused: set<string>, outs: seq<Outcome>, i: nat)
    requires i <= |to| && from != SYSTEM_ID
    ensures var r := SendFrom(c, b, from, to, body, refused, outs, i);
            var own := SendFrom(c, b', SYSTEM_ID, to, body, refused, outs, i);
      r.b.entries == b.entries && r.b.recorded == b.recorded && r.delivered == own.delivered && r.failed == own.failed
    decreases |to| - i
  {
    if i < |to| && Reachable(c, refused, to[i]) && OutcomeAt(outs, i).Delivered? {
      var send := Send(from, to[i], body);
      var send' := Send(SYSTEM_ID, to[i], body);
      OthersSendFrom(c, IssueSend(c, RecordSend(c, b, send), send, OutcomeAt(outs, i)),
                     IssueSend(c, RecordSend(c, b', send'), send', OutcomeAt(outs, i)),
                     from, to, body, refused, outs, i + 1);
    }
  }

  // --------------------------------------------------------------- service

  class RelayService {
    const c: Config
    const ledger: L.OwnSendLedger
    var stores: map<string, seq<Item>>
    var cursors: map<string, string>
    var history: seq<Entry>
    var now: int
    ghost var forwards: seq<Forward>
    ghost var recorded: multiset<L.Key>

    ghost function View(): Board
      reads this, ledger
    {
      Board(stores, cursors, history, forwards, ledger.entries, now, recorded)
    }

    constructor (c: Config, now: int)
      ensures View() == Initial(now).b && this.c == c && ledger.ttl == c.ttl && fresh(ledger)
    {
      this.c := c;
      this.ledger := new L.OwnSendLedger(c.ttl);
      stores, cursors, history, this.now := map[], map[], [], now;
      forwards, recorded := [], multiset{};
    }

    method Send(dest: string, from: string, to: string, body: string, out: Outcome, origin: Origin)
      returns (failed: bool)
      modifies this`stores
      ensures View() == Deliver(old(View()), dest, from, to, body, out, origin)
      ensures failed == !out.Delivered?
    {
      if !out.Lost? {
        var held := if dest in stores then stores[dest] else [];
        stores := stores[dest := held + [Item(Row(out.id, from, to, body), origin)]];
      }
      failed := !out.Delivered?;
    }

    method IsValidFrom(host: string, row: Row) returns (ok: bool)
      modifies ledger
      ensures ok == ValidFrom(c, old(View()), host, row)
      ensures View() == Checked(c, old(View()), host, row)
    {
      if row.from == SYSTEM_ID {
        ok := ledger.Consume(KeyOf(c, host, row.to, row.body), now);
      } else {
        ok := row.from in c.paneHosts && c.paneHosts[row.from] == host;
      }
    }

    method ProcessOne(host: string, pos: nat, row: Row, out: Outcome)
      modifies this`stores, this`history, this`forwards, ledger
      ensures View() == ProcessRow(c, old(View()), host, pos, row, out)
    {
      var ok := IsValidFrom(host, row);
      if !ok { return; }
      if row.to == SYSTEM_ID {
        history := history + [Entry(host, pos, row)];
        return;
      }
      if row.to !in c.paneHosts { return; }
      var dest := c.paneHosts[row.to];
      history := history + [Entry(host, pos, row)];
      if dest == host || dest !in c.clients { return; }
      forwards := forwards + [Forward(host, pos, dest)];
      var failed := Send(dest, row.from, row.to, row.body, out, Copy(host, pos));
    }

    /** A destination that must be admitted before the rows are processed: the
        lookup of an unknown recipient gives the panemux host, "". */
    predicate NeedsLease(host: string, row: Row) {
      row.to != SYSTEM_ID && DestOf(row) != host && DestOf(row) in c.clients
    }

    function DestOf(row: Row): string {
      if row.to in c.paneHosts then c.paneHosts[row.to] else ""
    }

    predicate LeaseRefused(host: string, row: Row, refused: set<string>) {
      NeedsLease(host, row) && DestOf(row) in refused
    }

    ghost predicate AnyRefused(host: string, rows: seq<Row>, refused: set<string>) {
      exists i :: 0 <= i < |rows| && LeaseRefused(host, rows[i], refused)
    }

    /** Some row goes to this other host. */
    ghost predicate Needed(host: string, rows: seq<Row>, dest: string) {
      exists i :: 0 <= i < |rows| && NeedsLease(host, rows[i]) && DestOf(rows[i]) == dest
    }

    /** Routing through the leased hosts only crosses where all routing does. */
    predicate CrossesLeased(host: string, row: Row, leased: seq<string>) {
      row.to != SYSTEM_ID && row.to in c.paneHosts && c.paneHosts[row.to] != host && c.paneHosts[row.to] in leased
    }

    /** Leases each destination once, before any row is processed. */
    method AdmitDestinations(host: string, rows: seq<Row>, refused: set<string>) returns (failed: bool,
        leased: seq<string>)
      ensures failed <==> AnyRefused(host, rows, refused)
      ensures !failed ==> forall dest :: dest in leased <==> dest == host || Needed(host, rows, dest)
      ensures !failed ==> forall i :: 0 <= i < |rows| ==>
        (Crosses(c, host, rows[i]) <==> CrossesLeased(host, rows[i], leased))
      ensures forall i, j :: 0 <= i < j < |leased| ==> leased[i] != leased[j]
    {
      failed, leased := false, [host];
      for i := 0 to |rows|
        invariant !failed && forall j :: 0 <= j < i ==> !LeaseRefused(host, rows[j], refused)
        invariant forall h :: h in leased && h != host ==> h !in refused
        invariant forall dest :: dest in leased <==> dest == host || Needed(host, rows[..i], dest)
        invariant forall j, k :: 0 <= j < k < |leased| ==> leased[j] != leased[k]
      {
        NeededNext(host, rows, i);
        var row := rows[i];
        var dest := DestOf(row);
        if row.to == SYSTEM_ID || dest == host || dest in leased || dest !in c.clients { continue; }
        if dest in refused {
          assert LeaseRefused(host, rows[i], refused);
          failed := true;
          return;
        }
        leased := leased + [dest];
      }
      assert rows[..|rows|] == rows;
      forall i | 0 <= i < |rows| ensures Crosses(c, host, rows[i]) <==> CrossesLeased(host, rows[i], leased) {
        if Crosses(c, host, rows[i]) { assert NeedsLease(host, rows[i]) && DestOf(rows[i]) == c.paneHosts[rows[i].to]; }
      }
    }

    lemma {:induction false} NeededNext(host: string, rows: seq<Row>, i: nat)
      requires i < |rows|
      ensures forall dest :: Needed(host, rows[..i + 1], dest) <==>
        Needed(host, rows[..i], dest) || (NeedsLease(host, rows[i]) && DestOf(rows[i]) == dest)
    {
      var before := rows[..i];
      var after := rows[..i + 1];
      assert forall j :: 0 <= j < i ==> after[j] == before[j];
      forall dest ensures Needed(host, after, dest) <==>
          Needed(host, before, dest) || (NeedsLease(host, rows[i]) && DestOf(rows[i]) == dest)
      {
        if Needed(host, before, dest) {
          var j :| 0 <= j < i && NeedsLease(host, before[j]) && DestOf(before[j]) == dest;
          assert NeedsLease(host, after[j]) && DestOf(after[j]) == dest;
        }
        if NeedsLease(host, rows[i]) && DestOf(rows[i]) == dest { assert after[i] == rows[i]; }
      }
    }

    /** Polls one host. `refused` are the hosts whose tool is being updated;
        an error is reported before anything is touched. */
    method PollHost(host: string, limit: nat, sinceFails: bool, refused: set<string>, outs: seq<Outcome>)
      returns (changed: bool, failed: bool)
      modifies this, ledger
      ensures failed == (host in c.clients
        && (host in refused || sinceFails || AnyRefused(host, Since(old(View()), host, limit), refused)))
      ensures failed || host !in c.clients ==> View() == old(View()) && !changed
      ensures !failed && host in c.clients ==> View() == Polled(c, old(View()), host, limit, outs)
      ensures changed <==> Cursor(View(), host) != Cursor(old(View()), host)
    {
      if host !in c.clients { return false, false; }
      if host in refused || sinceFails { return false, true; }
      ghost var b0 := View();
      var cursor := if host in cursors then cursors[host] else "";
      var items := if host in stores then stores[host] else [];
      var rows := FilterRowsAfter(Window(Rows(items), limit), cursor);
      var leased;
      failed, leased := AdmitDestinations(host, rows, refused);
      if failed { return false, true; }
      ghost var p := StartPoll(b0, host, limit);
      var first := if |items| >= |rows| then |items| - |rows| else 0;
      ProcessRows(host, first, rows, outs, p);
      changed := SetCursor(host, rows, cursor);
    }

    method ProcessRows(host: string, first: nat, rows: seq<Row>, outs: seq<Outcome>, ghost p: Poll)
      requires p == Poll(host, first, rows, 0)
      modifies this`stores, this`history, this`forwards, ledger
      ensures View() == ProcessFrom(c, old(View()), p, outs, 0)
      ensures cursors == old(cursors)
    {
      for i := 0 to |rows|
        invariant cursors == old(cursors)
        invariant ProcessFrom(c, View(), p, outs, i) == ProcessFrom(c, old(View()), p, outs, 0)
      {
        ProcessFromRound(c, View(), p, outs, i);
        ProcessOne(host, first + i, rows[i], if i < |outs| then outs[i] else Lost);
      }
    }

    method SetCursor(host: string, rows: seq<Row>, cursor: string) returns (changed: bool)
      requires cursor == Cursor(View(), host)
      modifies this`cursors
      ensures View() == EndPoll(old(View()), host, rows)
      ensures changed <==> Cursor(View(), host) != cursor
    {
      var newCursor := if |rows| == 0 then cursor else rows[|rows| - 1].id;
      if newCursor == cursor { return false; }
      cursors := cursors[host := newCursor];
      return true;
    }

    /** Sends `body` to every target, all known before any is sent to. */
    method BroadcastTo(from: string, to: seq<string>, body: string, refused: set<string>, outs: seq<Outcome>)
      returns (delivered: seq<string>, failed: bool)
      requires ledger.ttl == c.ttl
      modifies this, ledger
      ensures Broadcast(View(), delivered, failed) == Broadcasting(c, old(View()), from, to, body, refused, outs)
    {
      var unknown := [];
      for i := 0 to |to|
        invariant unknown == [] <==> forall j :: 0 <= j < i ==> to[j] in c.paneHosts
      {
        if to[i] !in c.paneHosts { unknown := unknown + [to[i]]; }
      }
      if |unknown| > 0 { return [], true; }
      delivered, failed := SendAll(from, to, body, refused, outs);
    }

    method SendAll(from: string, to: seq<string>, body: string, refused: set<string>, outs: seq<Outcome>)
      returns (delivered: seq<string>, failed: bool)
      requires ledger.ttl == c.ttl && forall pane :: pane in to ==> pane in c.paneHosts
      modifies this, ledger
      ensures Broadcast(View(), delivered, failed) == SendFrom(c, old(View()), from, to, body, refused, outs, 0)
    {
      delivered := [];
      for i := 0 to |to|
        invariant delivered == to[..i]
        invariant SendFrom(c, View(), from, to, body, refused, outs, i)
               == SendFrom(c, old(View()), from, to, body, refused, outs, 0)
      {
        var host := c.paneHosts[to[i]];
        if host !in c.clients || host in refused { return delivered, true; }
        var unsent := SendOne(from, to[i], body, if i < |outs| then outs[i] else Lost);
        if unsent { return delivered, true; }
        delivered := delivered + [to[i]];
      }
      failed := false;
    }

    method SendOne(from: string, pane: string, body: string, out: Outcome) returns (failed: bool)
      requires ledger.ttl == c.ttl && pane in c.paneHosts
      modifies this, ledger
      ensures var send := Relay.Send(from, pane, body);
        View() == IssueSend(c, RecordSend(c, old(View()), send), send, out)
      ensures failed == !out.Delivered?
    {
      var host := c.paneHosts[pane];
      var key := KeyOf(c, host, pane, body);
      if from == SYSTEM_ID {
        ledger.Record(key, now);
        recorded := recorded + multiset{key};
      }
      failed := Send(host, from, pane, body, out, Written);
      if failed && from == SYSTEM_ID { ledger.Forget(key); }
    }
  }
}
