/** The connection pool. */
module Pool {
  // One entry per host, dialed once at a time,
  // replaced by reconnects, dropped after failures, all while dials finish at
  // any moment.
  //
  // Entries, dials and connections are numbered as they are made, so an entry
  // that left the pool stays distinct from its host's next one. One step is one
  // lock scope, a dialer's return, or one Close of a connection.

  import opened Text

  datatype Entry = Entry(host: string, conn: Option<nat>, failed: bool, failedAt: int, dialing: Option<nat>)

  /** Dialed carries what the dialer returned: a connection, or its failure. */
  datatype DialPhase = Dialing | Dialed(conn: Option<nat>) | Finished

  datatype Dial = Dial(entry: nat, phase: DialPhase)

  /** `published` once an entry has handed it to callers. */
  datatype Conn = Conn(host: string, open: bool, published: bool)

  /** `closing` are the connections some caller is about to close. */
  datatype State = State(
    hosts: map<string, nat>, entries: seq<Entry>, dials: seq<Dial>, conns: seq<Conn>,
    closing: set<nat>, closed: bool, now: int, retryAfter: int)

  predicate WellFormed(s: State) {
    && (forall n :: n in s.hosts ==> s.hosts[n] < |s.entries|)
    && (forall d: nat :: d < |s.dials| ==> s.dials[d].entry < |s.entries|)
  }

  // ----------------------------------------------------------------- steps

  /** The host's entry, made on first use. */
  function EntryFor(s: State, name: string): (r: (State, nat)) {
    if name in s.hosts then (s, s.hosts[name])
    else
      var h := |s.entries|;
      (s.(hosts := s.hosts[name := h], entries := s.entries + [Entry(name, None, false, 0, None)]), h)
  }

  predicate CoolingDown(s: State, e: Entry) {
    e.failed && s.now - e.failedAt < s.retryAfter
  }

  predicate DialsNow(s: State, e: Entry) {
    e.conn.None? && e.dialing.None? && !CoolingDown(s, e)
  }

  function Connect(s: State, name: string): State
    requires WellFormed(s)
  {
    if s.closed then s
    else
      var (s1, h) := EntryFor(s, name);
      if !DialsNow(s1, s1.entries[h]) then s1
      else
        s1.(entries := s1.entries[h := s1.entries[h].(dialing := Some(|s1.dials|))],
            dials := s1.dials + [Dial(h, Dialing)])
  }

  /** The dialer returns, outside the lock. */
  function DialEnds(s: State, d: nat, ok: bool): State
    requires WellFormed(s) && d < |s.dials|
  {
    var e := s.dials[d].entry;
    if ok then
      s.(dials := s.dials[d := Dial(e, Dialed(Some(|s.conns|)))],
         conns := s.conns + [Conn(s.entries[e].host, true, false)])
    else s.(dials := s.dials[d := Dial(e, Dialed(None))])
  }

  predicate Wanted(s: State, h: nat)
    requires h < |s.entries|
  {
    !s.closed && s.entries[h].host in s.hosts && s.hosts[s.entries[h].host] == h
  }

  /** A result nobody wants any more is closed. */
  function FinishDial(s: State, d: nat): State
    requires WellFormed(s) && d < |s.dials| && s.dials[d].phase.Dialed?
    requires s.dials[d].phase.conn.Some? ==> s.dials[d].phase.conn.value < |s.conns|
  {
    var h := s.dials[d].entry;
    var conn := s.dials[d].phase.conn;
    var e := s.entries[h].(dialing := None);
    var s1 := s.(dials := s.dials[d := Dial(h, Finished)]);
    if !Wanted(s, h) then
      s1.(entries := s.entries[h := e], closing := if conn.Some? then s.closing + {conn.value} else s.closing)
    else if conn.None? then
      s1.(entries := s.entries[h := e.(failed := true, failedAt := s.now)])
    else
      s1.(entries := s.entries[h := e.(conn := conn, failed := false)],
          conns := s.conns[conn.value := s.conns[conn.value].(published := true)])
  }

  /** Forgets a failed connection, unless it was already replaced. */
  function Drop(s: State, c: nat): State
    requires WellFormed(s) && c < |s.conns|
  {
    var name := s.conns[c].host;
    var s1 := s.(closing := s.closing + {c});
    if name in s.hosts && s.entries[s.hosts[name]].conn == Some(c) then
      s1.(entries := s.entries[s.hosts[name] := s.entries[s.hosts[name]].(conn := None)])
    else s1
  }

  function ConnsOf(s: State, names: set<string>): set<nat>
    requires WellFormed(s)
  {
    set n | n in names && n in s.hosts && s.entries[s.hosts[n]].conn.Some? :: s.entries[s.hosts[n]].conn.value
  }

  /** The named hosts' entries leave the pool; their connections are closed. */
  function Detach(s: State, names: set<string>): State
    requires WellFormed(s)
  {
    s.(hosts := s.hosts - names, closing := s.closing + ConnsOf(s, names))
  }

  function CloseConn(s: State, c: nat): State
    requires c < |s.conns|
  {
    s.(conns := s.conns[c := s.conns[c].(open := false)], closing := s.closing - {c})
  }

  datatype Step =
    | DoConnect(name: string)
    | DoDialEnds(dial: nat, ok: bool)
    | DoFinishDial(dial: nat)
    | DoDrop(conn: nat)
    | DoReconnect(name: string)
    | DoRetain(names: set<string>)
    | DoClose
    | DoCloseConn(conn: nat)
    | Tick(now: int)

  predicate Enabled(s: State, step: Step) {
    WellFormed(s) && match step
      case DoDialEnds(d, _) => d < |s.dials| && s.dials[d].phase.Dialing?
      case DoFinishDial(d) =>
        d < |s.dials| && s.dials[d].phase.Dialed?
        && (s.dials[d].phase.conn.Some? ==> s.dials[d].phase.conn.value < |s.conns|)
      case DoDrop(c) => c < |s.conns| && s.conns[c].published
      case DoCloseConn(c) => c in s.closing && c < |s.conns|
      case _ => true
  }

  function Next(s: State, step: Step): State
    requires Enabled(s, step)
  {
    match step
    case DoConnect(name) => Connect(s, name)
    case DoDialEnds(d, ok) => DialEnds(s, d, ok)
    case DoFinishDial(d) => FinishDial(s, d)
    case DoDrop(c) => Drop(s, c)
    case DoReconnect(name) => Detach(s, {name})
    case DoRetain(names) => Detach(s, s.hosts.Keys - names)
    case DoClose => Detach(s, s.hosts.Keys).(closed := true)
    case DoCloseConn(c) => CloseConn(s, c)
    case Tick(now) => s.(now := now)
  }

  // ------------------------------------------------------------- invariant

  /** The connection the pool hands out for the host. */
  predicate Mapped(s: State, n: string, c: nat)
    requires WellFormed(s)
  {
    n in s.hosts && s.entries[s.hosts[n]].conn == Some(c)
  }

  predicate Arriving(s: State, d: nat, c: nat) {
    d < |s.dials| && s.dials[d].phase == Dialed(Some(c))
  }

  predicate InFlight(s: State, d: nat, h: nat) {
    d < |s.dials| && s.dials[d].entry == h && !s.dials[d].phase.Finished?
  }

  /** Entries know their hosts and their dial in flight. */
  ghost predicate EntriesOK(s: State)
    requires WellFormed(s)
  {
    && (forall n :: n in s.hosts ==> s.entries[s.hosts[n]].host == n)
    && (forall h: nat, d: nat :: h < |s.entries| ==> (s.entries[h].dialing == Some(d) <==> InFlight(s, d, h)))
    && (forall h: nat :: h < |s.entries| && s.entries[h].conn.Some? ==>
          !s.entries[h].failed && s.entries[h].dialing.None?)
    && (s.closed ==> s.hosts == map[])
  }

  /** A connection in an entry has been handed out, and is its host's. */
  predicate HeldOK(s: State, h: nat)
    requires h < |s.entries|
  {
    var e := s.entries[h];
    e.conn.Some? ==> e.conn.value < |s.conns| && s.conns[e.conn.value].published && s.conns[e.conn.value].host == e.host
  }

  predicate ArrivingOK(s: State, d: nat, c: nat)
    requires Arriving(s, d, c) && s.dials[d].entry < |s.entries|
  {
    && c < |s.conns| && s.conns[c].open && !s.conns[c].published && c !in s.closing
    && s.conns[c].host == s.entries[s.dials[d].entry].host
  }

  ghost predicate Owned(s: State, c: nat)
    requires WellFormed(s)
  {
    (exists n :: Mapped(s, n, c)) || (exists d: nat :: Arriving(s, d, c)) || c in s.closing
  }

  ghost predicate ConnsOK(s: State)
    requires WellFormed(s)
  {
    && (forall h: nat :: h < |s.entries| ==> HeldOK(s, h))
    && (forall n, c: nat :: Mapped(s, n, c) ==> c < |s.conns| && s.conns[c].open && c !in s.closing)
    && (forall d: nat, c: nat :: Arriving(s, d, c) ==> ArrivingOK(s, d, c))
    && (forall d: nat, d': nat, c: nat :: Arriving(s, d, c) && Arriving(s, d', c) ==> d == d')
    && (forall c: nat :: c < |s.conns| && s.conns[c].open ==> Owned(s, c))
    && (forall c :: c in s.closing ==> c < |s.conns|)
  }

  ghost predicate Inv(s: State) {
    WellFormed(s) && EntriesOK(s) && ConnsOK(s)
  }

  // --------------------------------------------------------------- preserved

  lemma {:induction false} EntryForInv(s: State, name: string)
    requires Inv(s) && !s.closed
    ensures var (s1, h) := EntryFor(s, name);
      && Inv(s1) && h < |s1.entries| && s1.entries[h].host == name && name in s1.hosts && s1.hosts[name] == h
      && s1 == s.(hosts := s1.hosts, entries := s1.entries) && |s.entries| <= |s1.entries|
  {
    var (s1, h) := EntryFor(s, name);
    if name !in s.hosts {
      assert forall g: nat :: g < |s.entries| ==> s1.entries[g] == s.entries[g];
      assert forall n :: n in s.hosts ==> s1.hosts[n] == s.hosts[n];
      assert forall n, c: nat :: Mapped(s1, n, c) <==> Mapped(s, n, c);
      assert forall d: nat, c: nat :: Arriving(s1, d, c) <==> Arriving(s, d, c);
      forall g: nat | g < |s1.entries| ensures HeldOK(s1, g) { if g < |s.entries| { assert HeldOK(s, g); } }
      forall d: nat, c: nat | Arriving(s1, d, c) ensures ArrivingOK(s1, d, c) { assert ArrivingOK(s, d, c); }
      forall c: nat | c < |s1.conns| && s1.conns[c].open ensures Owned(s1, c) { OwnedStays(s, s1, c); }
      assert forall g: nat, d: nat :: InFlight(s1, d, g) <==> InFlight(s, d, g);
    }
  }

  /** Ownership moves along when nothing an open connection hangs on is lost. */
  lemma {:induction false} OwnedStays(s: State, s': State, c: nat)
    requires WellFormed(s) && WellFormed(s') && Owned(s, c)
    requires forall n :: Mapped(s, n, c) ==> Mapped(s', n, c)
    requires forall d: nat :: Arriving(s, d, c) ==> Arriving(s', d, c)
    requires c in s.closing ==> c in s'.closing
    ensures Owned(s', c)
  {
    if n :| Mapped(s, n, c) {
      assert Mapped(s', n, c);
    } else if d: nat :| Arriving(s, d, c) {
      assert Arriving(s', d, c);
    }
  }

  lemma {:induction false} ConnectInv(s: State, name: string)
    requires Inv(s)
    ensures Inv(Connect(s, name))
  {
    if !s.closed {
      EntryForInv(s, name);
      var (s1, h) := EntryFor(s, name);
      if DialsNow(s1, s1.entries[h]) { StartDialInv(s1, h); }
    }
  }

  lemma {:induction false} StartDialInv(s: State, h: nat)
    requires Inv(s) && h < |s.entries| && s.entries[h].conn.None? && s.entries[h].dialing.None?
    ensures Inv(s.(entries := s.entries[h := s.entries[h].(dialing := Some(|s.dials|))],
                   dials := s.dials + [Dial(h, Dialing)]))
  {
    var s' := s.(entries := s.entries[h := s.entries[h].(dialing := Some(|s.dials|))],
                 dials := s.dials + [Dial(h, Dialing)]);
    assert forall d: nat, g: nat :: InFlight(s', d, g) <==> InFlight(s, d, g) || (d == |s.dials| && g == h);
    assert forall n, c: nat :: Mapped(s', n, c) <==> Mapped(s, n, c);
    assert forall d: nat, c: nat :: Arriving(s', d, c) <==> Arriving(s, d, c);
    forall g: nat | g < |s'.entries| ensures HeldOK(s', g) { assert HeldOK(s, g); }
    forall d: nat, c: nat | Arriving(s', d, c) ensures ArrivingOK(s', d, c) { assert ArrivingOK(s, d, c); }
    forall c: nat | c < |s'.conns| && s'.conns[c].open ensures Owned(s', c) { OwnedStays(s, s', c); }
  }

  lemma {:induction false} DialEndsInv(s: State, d: nat, ok: bool)
    requires Inv(s) && Enabled(s, DoDialEnds(d, ok))
    ensures Inv(DialEnds(s, d, ok))
  {
    var s' := DialEnds(s, d, ok);
    var c0 := |s.conns|;
    assert forall e: nat, g: nat :: InFlight(s', e, g) <==> InFlight(s, e, g);
    assert forall n, c: nat :: Mapped(s', n, c) <==> Mapped(s, n, c);
    assert forall e: nat, c: nat :: Arriving(s', e, c) <==> Arriving(s, e, c) || (ok && e == d && c == c0);
    forall g: nat | g < |s'.entries| ensures HeldOK(s', g) { assert HeldOK(s, g); }
    forall e: nat, c: nat | Arriving(s', e, c) ensures ArrivingOK(s', e, c) {
      if Arriving(s, e, c) { assert ArrivingOK(s, e, c); }
    }
    forall e: nat, e': nat, c: nat | Arriving(s', e, c) && Arriving(s', e', c) ensures e == e' {
      if Arriving(s, e, c) { assert ArrivingOK(s, e, c); }
      if Arriving(s, e', c) { assert ArrivingOK(s, e', c); }
    }
    forall c: nat | c < |s'.conns| && s'.conns[c].open ensures Owned(s', c) {
      if c == c0 { assert Arriving(s', d, c0); } else { OwnedStays(s, s', c); }
    }
  }

  /** The finished dial leaves its entry without one. */
  lemma {:induction false} FinishedFlies(s: State, d: nat, e: nat, g: nat)
    requires Inv(s) && Enabled(s, DoFinishDial(d))
    ensures InFlight(FinishDial(s, d), e, g) <==> InFlight(s, e, g) && e != d
    ensures s.entries[s.dials[d].entry].dialing == Some(d)
    ensures InFlight(s, e, s.dials[d].entry) ==> e == d
  {
    assert InFlight(s, d, s.dials[d].entry);
  }

  lemma {:induction false} FinishDialEntries(s: State, d: nat)
    requires Inv(s) && Enabled(s, DoFinishDial(d))
    ensures WellFormed(FinishDial(s, d)) && EntriesOK(FinishDial(s, d))
  {
    var s' := FinishDial(s, d);
    var h := s.dials[d].entry;
    forall g: nat, e: nat | g < |s'.entries| ensures s'.entries[g].dialing == Some(e) <==> InFlight(s', e, g) {
      FinishedFlies(s, d, e, g);
      if g == h { FinishedFlies(s, d, e, h); }
    }
    FinishedFlies(s, d, d, h);
  }

  /** The dial's own connection goes to the entry or to be closed; every other
      keeps its owner. */
  lemma {:induction false} FinishDialOwned(s: State, d: nat, c: nat)
    requires Inv(s) && Enabled(s, DoFinishDial(d)) && Owned(s, c)
    ensures WellFormed(FinishDial(s, d)) && Owned(FinishDial(s, d), c)
  {
    var s' := FinishDial(s, d);
    var h := s.dials[d].entry;
    assert InFlight(s, d, h) && s.entries[h].conn.None?;
    if s.dials[d].phase.conn == Some(c) {
      if Wanted(s, h) { assert Mapped(s', s.entries[h].host, c); }
    } else {
      OwnedStays(s, s', c);
    }
  }

  lemma {:induction false} FinishDialMapped(s: State, d: nat, n: string, c: nat)
    requires Inv(s) && Enabled(s, DoFinishDial(d)) && WellFormed(FinishDial(s, d)) && Mapped(FinishDial(s, d), n, c)
    ensures var s' := FinishDial(s, d); c < |s'.conns| && s'.conns[c].open && c !in s'.closing
  {
    var h := s.dials[d].entry;
    var conn := s.dials[d].phase.conn;
    if conn.Some? { assert Arriving(s, d, conn.value) && ArrivingOK(s, d, conn.value); }
    if s.hosts[n] != h || conn.None? || !Wanted(s, h) { assert Mapped(s, n, c) && HeldOK(s, s.hosts[n]); }
  }

  /** The finished dial holds no connection any more; the others hold theirs. */
  lemma {:induction false} FinishDialConns(s: State, d: nat)
    requires Inv(s) && Enabled(s, DoFinishDial(d))
    ensures var s' := FinishDial(s, d);
      && WellFormed(s')
      && (forall g: nat :: g < |s'.entries| ==> HeldOK(s', g))
      && (forall e: nat, c: nat :: Arriving(s', e, c) <==> Arriving(s, e, c) && e != d)
      && (forall e: nat, c: nat :: Arriving(s', e, c) ==> ArrivingOK(s', e, c))
  {
    var s' := FinishDial(s, d);
    assert forall e: nat, c: nat :: Arriving(s', e, c) <==> Arriving(s, e, c) && e != d;
    forall g: nat | g < |s'.entries| ensures HeldOK(s', g) { FinishDialHeld(s, d, g); }
    forall e: nat, c: nat | Arriving(s', e, c) ensures ArrivingOK(s', e, c) { FinishDialArriving(s, d, e, c); }
  }

  lemma {:induction false} FinishDialHeld(s: State, d: nat, g: nat)
    requires Inv(s) && Enabled(s, DoFinishDial(d)) && g < |s.entries|
    ensures |FinishDial(s, d).entries| == |s.entries| && HeldOK(FinishDial(s, d), g)
  {
    var conn := s.dials[d].phase.conn;
    if conn.Some? { assert Arriving(s, d, conn.value) && ArrivingOK(s, d, conn.value); }
    assert HeldOK(s, g);
  }

  lemma {:induction false} FinishDialArriving(s: State, d: nat, e: nat, c: nat)
    requires Inv(s) && Enabled(s, DoFinishDial(d)) && Arriving(s, e, c) && e != d
    ensures var s' := FinishDial(s, d);
      Arriving(s', e, c) && s'.dials[e].entry < |s'.entries| && ArrivingOK(s', e, c)
  {
    var conn := s.dials[d].phase.conn;
    if conn.Some? { assert Arriving(s, d, conn.value) && ArrivingOK(s, d, conn.value); }
    assert ArrivingOK(s, e, c);
  }

  lemma {:induction false} FinishDialInv(s: State, d: nat)
    requires Inv(s) && Enabled(s, DoFinishDial(d))
    ensures Inv(FinishDial(s, d))
  {
    var s' := FinishDial(s, d);
    FinishDialEntries(s, d);
    FinishDialConns(s, d);
    forall n, c: nat | Mapped(s', n, c) ensures c < |s'.conns| && s'.conns[c].open && c !in s'.closing {
      FinishDialMapped(s, d, n, c);
    }
    forall c: nat | c < |s'.conns| && s'.conns[c].open ensures Owned(s', c) { FinishDialOwned(s, d, c); }
  }

  /** A dropped connection is nobody's any more; the others are as they were. */
  lemma {:induction false} DropUnmaps(s: State, c: nat, n: string, b: nat)
    requires Inv(s) && Enabled(s, DoDrop(c))
    ensures WellFormed(Drop(s, c)) && (Mapped(Drop(s, c), n, b) <==> Mapped(s, n, b) && b != c)
  {
    var name := s.conns[c].host;
    if n in s.hosts {
      assert HeldOK(s, s.hosts[n]) && s.entries[s.hosts[n]].host == n;
      if name in s.hosts && s.hosts[name] == s.hosts[n] { assert s.entries[s.hosts[name]].host == name; }
    }
  }

  lemma {:induction false} DropEntries(s: State, c: nat)
    requires Inv(s) && Enabled(s, DoDrop(c))
    ensures WellFormed(Drop(s, c)) && EntriesOK(Drop(s, c))
  {
    assert forall e: nat, g: nat :: InFlight(Drop(s, c), e, g) <==> InFlight(s, e, g);
  }

  lemma {:induction false} DropInv(s: State, c: nat)
    requires Inv(s) && Enabled(s, DoDrop(c))
    ensures Inv(Drop(s, c))
  {
    var s' := Drop(s, c);
    DropEntries(s, c);
    assert forall e: nat, b: nat :: Arriving(s', e, b) <==> Arriving(s, e, b);
    forall n, b: nat ensures Mapped(s', n, b) <==> Mapped(s, n, b) && b != c { DropUnmaps(s, c, n, b); }
    forall g: nat | g < |s'.entries| ensures HeldOK(s', g) { assert HeldOK(s, g); }
    forall e: nat, b: nat | Arriving(s', e, b) ensures ArrivingOK(s', e, b) { assert ArrivingOK(s, e, b); }
    forall b: nat | b < |s'.conns| && s'.conns[b].open ensures Owned(s', b) {
      if b != c { OwnedStays(s, s', b); }
    }
  }

  lemma {:induction false} DetachInv(s: State, names: set<string>)
    requires Inv(s)
    ensures Inv(Detach(s, names))
  {
    var s' := Detach(s, names);
    assert forall e: nat, g: nat :: InFlight(s', e, g) <==> InFlight(s, e, g);
    assert forall e: nat, c: nat :: Arriving(s', e, c) <==> Arriving(s, e, c);
    assert forall n, c: nat :: Mapped(s', n, c) <==> Mapped(s, n, c) && n !in names;
    assert forall c: nat :: c in ConnsOf(s, names) <==> exists n :: n in names && Mapped(s, n, c);
    forall g: nat | g < |s'.entries| ensures HeldOK(s', g) { assert HeldOK(s, g); }
    assert forall n :: n in s.hosts ==> HeldOK(s, s.hosts[n]);
    forall e: nat, c: nat | Arriving(s', e, c) ensures ArrivingOK(s', e, c) {
      assert ArrivingOK(s, e, c);
    }
    forall c: nat | c < |s'.conns| && s'.conns[c].open ensures Owned(s', c) {
      assert Owned(s, c);
      if n :| Mapped(s, n, c) {
        if n !in names { assert Mapped(s', n, c); } else { assert c in ConnsOf(s, names); }
      } else if e: nat :| Arriving(s, e, c) {
        assert Arriving(s', e, c);
      }
    }
  }

  lemma {:induction false} CloseConnInv(s: State, c: nat)
    requires Inv(s) && Enabled(s, DoCloseConn(c))
    ensures Inv(CloseConn(s, c))
  {
    var s' := CloseConn(s, c);
    assert forall e: nat, g: nat :: InFlight(s', e, g) <==> InFlight(s, e, g);
    assert forall e: nat, b: nat :: Arriving(s', e, b) <==> Arriving(s, e, b);
    assert forall n, b: nat :: Mapped(s', n, b) <==> Mapped(s, n, b);
    forall g: nat | g < |s'.entries| ensures HeldOK(s', g) { assert HeldOK(s, g); }
    forall e: nat, b: nat | Arriving(s', e, b) ensures ArrivingOK(s', e, b) { assert ArrivingOK(s, e, b); }
    forall b: nat | b < |s'.conns| && s'.conns[b].open ensures Owned(s', b) { OwnedStays(s, s', b); }
  }

  lemma {:induction false} PlainInv(s: State, now: int, closed: bool)
    requires Inv(s) && (closed ==> s.hosts == map[])
    ensures Inv(s.(now := now, closed := closed))
  {
    var s' := s.(now := now, closed := closed);
    assert forall e: nat, g: nat :: InFlight(s', e, g) <==> InFlight(s, e, g);
    assert forall e: nat, b: nat :: Arriving(s', e, b) <==> Arriving(s, e, b);
    assert forall n, b: nat :: Mapped(s', n, b) <==> Mapped(s, n, b);
    forall g: nat | g < |s'.entries| ensures HeldOK(s', g) { assert HeldOK(s, g); }
    forall e: nat, b: nat | Arriving(s', e, b) ensures ArrivingOK(s', e, b) { assert ArrivingOK(s, e, b); }
    forall b: nat | b < |s'.conns| && s'.conns[b].open ensures Owned(s', b) { OwnedStays(s, s', b); }
  }

  lemma {:induction false} StepInv(s: State, step: Step)
    requires Inv(s) && Enabled(s, step)
    ensures Inv(Next(s, step))
  {
    match step
    case DoConnect(name) => ConnectInv(s, name);
    case DoDialEnds(d, ok) => DialEndsInv(s, d, ok);
    case DoFinishDial(d) => FinishDialInv(s, d);
    case DoDrop(c) => DropInv(s, c);
    case DoReconnect(name) => DetachInv(s, {name});
    case DoRetain(names) => DetachInv(s, s.hosts.Keys - names);
    case DoClose =>
      DetachInv(s, s.hosts.Keys);
      assert Detach(s, s.hosts.Keys).hosts == map[];
      PlainInv(Detach(s, s.hosts.Keys), s.now, true);
    case DoCloseConn(c) => CloseConnInv(s, c);
    case Tick(now) => PlainInv(s, now, s.closed);
  }

  // ------------------------------------------------------------------ runs

  predicate Allowed(s: State, steps: seq<Step>)
    decreases steps
  {
    steps == [] || (Enabled(s, steps[0]) && Allowed(Next(s, steps[0]), steps[1..]))
  }

  function Run(s: State, steps: seq<Step>): State
    requires Allowed(s, steps)
    decreases steps
  {
    if steps == [] then s else Run(Next(s, steps[0]), steps[1..])
  }

  function NewPool(retryAfter: int): State {
    State(map[], [], [], [], {}, false, 0, retryAfter)
  }

  lemma {:induction false} RunInv(s: State, steps: seq<Step>)
    requires Inv(s) && Allowed(s, steps)
    ensures Inv(Run(s, steps))
    decreases steps
  {
    if steps != [] {
      StepInv(s, steps[0]);
      RunInv(Next(s, steps[0]), steps[1..]);
    }
  }

  /** In every run, an open connection is the connection of one mapped entry,
      or a finishing dial holds it, or a pending step closes it; never two of
      these, and a mapped connection is always open. */
  lemma {:induction false} OwnedOnce(retryAfter: int, steps: seq<Step>, c: nat)
    requires Allowed(NewPool(retryAfter), steps) && c < |Run(NewPool(retryAfter), steps).conns|
    ensures var s := Run(NewPool(retryAfter), steps);
      && WellFormed(s)
      && (s.conns[c].open ==> Owned(s, c))
      && (forall n, n' :: Mapped(s, n, c) && Mapped(s, n', c) ==> n == n')
      && (forall d: nat, d': nat :: Arriving(s, d, c) && Arriving(s, d', c) ==> d == d')
      && (forall n :: Mapped(s, n, c) ==> s.conns[c].open && c !in s.closing && forall d: nat :: !Arriving(s, d, c))
      && (forall d: nat :: Arriving(s, d, c) ==> s.conns[c].open && c !in s.closing)
  {
    RunInv(NewPool(retryAfter), steps);
    var s := Run(NewPool(retryAfter), steps);
    assert forall n :: n in s.hosts ==> HeldOK(s, s.hosts[n]);
    forall d: nat | Arriving(s, d, c) ensures s.conns[c].open && c !in s.closing && forall n :: !Mapped(s, n, c) {
      assert ArrivingOK(s, d, c);
    }
  }

  /** No leak: once every dial has finished and every pending close has run, the
      open connections are the mapped ones; after Close there are none, and
      the map stays empty. */
  lemma {:induction false} NothingLeaks(retryAfter: int, steps: seq<Step>)
    requires Allowed(NewPool(retryAfter), steps)
    requires var s := Run(NewPool(retryAfter), steps);
             s.closing == {} && forall d: nat :: d < |s.dials| ==> s.dials[d].phase.Finished?
    ensures var s := Run(NewPool(retryAfter), steps);
      && WellFormed(s)
      && (forall c: nat :: c < |s.conns| ==> (s.conns[c].open <==> exists n :: Mapped(s, n, c)))
      && (s.closed ==> s.hosts == map[] && forall c: nat :: c < |s.conns| ==> !s.conns[c].open)
  {
    RunInv(NewPool(retryAfter), steps);
    var s := Run(NewPool(retryAfter), steps);
    forall c: nat | c < |s.conns| ensures s.conns[c].open <==> exists n :: Mapped(s, n, c) {
      if s.conns[c].open { assert Owned(s, c); }
    }
  }

  /** After Close the pool is closed for good, and no host is ever mapped. */
  lemma {:induction false} ClosedForGood(retryAfter: int, before: seq<Step>, after: seq<Step>)
    requires Allowed(NewPool(retryAfter), before) && Enabled(Run(NewPool(retryAfter), before), DoClose)
    requires Allowed(Next(Run(NewPool(retryAfter), before), DoClose), after)
    ensures var s := Run(Next(Run(NewPool(retryAfter), before), DoClose), after);
      s.closed && s.hosts == map[]
  {
    RunInv(NewPool(retryAfter), before);
    var s := Run(NewPool(retryAfter), before);
    StepInv(s, DoClose);
    StaysClosed(Next(s, DoClose), after);
    RunInv(Next(s, DoClose), after);
  }

  lemma {:induction false} StaysClosed(s: State, steps: seq<Step>)
    requires Allowed(s, steps) && s.closed
    ensures Run(s, steps).closed
    decreases steps
  {
    if steps != [] { StaysClosed(Next(s, steps[0]), steps[1..]); }
  }

  /** An entry has at most one dial in flight. */
  lemma {:induction false} OneDialPerEntry(retryAfter: int, steps: seq<Step>, h: nat, d: nat, d': nat)
    requires Allowed(NewPool(retryAfter), steps)
    requires InFlight(Run(NewPool(retryAfter), steps), d, h) && InFlight(Run(NewPool(retryAfter), steps), d', h)
    ensures d == d'
  {
    RunInv(NewPool(retryAfter), steps);
  }

  // ----------------------------------------------------------------- retries

  /** A step that starts a dial for entry h. */
  predicate Redials(s: State, step: Step, h: nat)
    requires Enabled(s, step)
  {
    |Next(s, step).dials| == |s.dials| + 1 && Next(s, step).dials[|s.dials|].entry == h
  }

  predicate NeverRedials(s: State, steps: seq<Step>, h: nat)
    requires Allowed(s, steps)
    decreases steps
  {
    steps == [] || (!Redials(s, steps[0], h) && NeverRedials(Next(s, steps[0]), steps[1..], h))
  }

  /** The entry's dial failed at time t, and none followed yet. */
  predicate FailedAt(s: State, h: nat, t: int) {
    h < |s.entries| && s.entries[h].failed && s.entries[h].failedAt == t && s.entries[h].dialing.None?
  }

  lemma {:induction false} FailureStays(s: State, step: Step, h: nat, t: int)
    requires Inv(s) && Enabled(s, step) && FailedAt(s, h, t) && !Redials(s, step, h)
    ensures FailedAt(Next(s, step), h, t) && Next(s, step).retryAfter == s.retryAfter
  {
    if step.DoFinishDial? { assert InFlight(s, step.dial, s.dials[step.dial].entry); }
  }

  lemma {:induction false} FailureStaysRun(s: State, steps: seq<Step>, h: nat, t: int)
    requires Inv(s) && Allowed(s, steps) && FailedAt(s, h, t) && NeverRedials(s, steps, h)
    ensures FailedAt(Run(s, steps), h, t) && Run(s, steps).retryAfter == s.retryAfter
    decreases steps
  {
    if steps != [] {
      FailureStays(s, steps[0], h, t);
      StepInv(s, steps[0]);
      FailureStaysRun(Next(s, steps[0]), steps[1..], h, t);
    }
  }

  /** A failed entry is not redialed before RetryAfter: whatever happens after
      the failure, the next dial of that entry starts at least that much later
      by the pool's clock. */
  lemma {:induction false} RetryWaits(s: State, d: nat, steps: seq<Step>, step: Step)
    requires Inv(s) && Enabled(s, DoFinishDial(d)) && Wanted(s, s.dials[d].entry) && s.dials[d].phase.conn.None?
    requires Allowed(FinishDial(s, d), steps) && NeverRedials(FinishDial(s, d), steps, s.dials[d].entry)
    requires Enabled(Run(FinishDial(s, d), steps), step)
    requires Redials(Run(FinishDial(s, d), steps), step, s.dials[d].entry)
    ensures Run(FinishDial(s, d), steps).now - s.now >= s.retryAfter
  {
    var s1 := FinishDial(s, d);
    StepInv(s, DoFinishDial(d));
    FailureStaysRun(s1, steps, s.dials[d].entry, s.now);
    RunInv(s1, steps);
  }

  /** A dropped connection is not a reason to wait: the host is redialed by the
      next connect at once, if the pool still has it and is not closed. */
  lemma {:induction false} DropRedialsAtOnce(s: State, n: string, c: nat)
    requires Inv(s) && !s.closed && Mapped(s, n, c) && Enabled(s, DoDrop(c))
    ensures WellFormed(Drop(s, c)) && Redials(Drop(s, c), DoConnect(n), s.hosts[n])
  {
    assert HeldOK(s, s.hosts[n]);
  }

  // -------------------------------------------------------------- the pool

  /** What a connect finds before it waits for any dial. */
  datatype Found = Refused | Ready(conn: nat) | Failing | Wait(entry: nat, dial: nat)

  function FoundIn(s: State, name: string): Found
    requires WellFormed(s)
  {
    if s.closed || name !in s.hosts then Refused
    else
      var e := s.entries[s.hosts[name]];
      if e.conn.Some? then Ready(e.conn.value)
      else if e.dialing.Some? then Wait(s.hosts[name], e.dialing.value)
      else Failing
  }

  // --------------------------------------------------- what a connect gives

  /** The host's entry failed, less than RetryAfter ago. */
  predicate JustFailed(s: State, name: string)
    requires WellFormed(s)
  {
    name in s.hosts && s.entries[s.hosts[name]].failed && s.now - s.entries[s.hosts[name]].failedAt < s.retryAfter
  }

  /** A dial for the host's entry is under way. */
  ghost predicate DialUnderWay(s: State, name: string)
    requires WellFormed(s)
  {
    name in s.hosts && exists d: nat :: InFlight(s, d, s.hosts[name])
  }

  ghost predicate Connected(s: State, name: string)
    requires WellFormed(s)
  {
    exists c: nat :: Mapped(s, name, c)
  }

  /** What a connect may find, and when it starts a dial. */
  ghost predicate ConnectAnswers(s: State, name: string, s': State, found: Found)
    requires WellFormed(s) && WellFormed(s')
  {
    && (found.Refused? <==> s.closed)
    && (forall c: nat :: found == Ready(c) <==> Mapped(s, name, c))
    && (found.Failing? <==> !s.closed && !Connected(s, name) && !DialUnderWay(s, name) && JustFailed(s, name))
    && (found.Wait? ==> name in s'.hosts && s'.hosts[name] == found.entry && InFlight(s', found.dial, found.entry))
    && (|s'.dials| == |s.dials| || |s'.dials| == |s.dials| + 1)
    && (|s'.dials| > |s.dials| <==>
          !s.closed && !Connected(s, name) && !DialUnderWay(s, name) && !JustFailed(s, name))
  }

  /** In every run a connect is refused exactly if the pool is closed, gets
      exactly the connection mapped for its host, and starts a dial exactly if
      there is neither a connection nor a dial and no failure less than
      RetryAfter ago: a failed host is dialed again as soon as that has passed. */
  lemma {:induction false} ConnectGives(retryAfter: int, steps: seq<Step>, name: string)
    requires Allowed(NewPool(retryAfter), steps) && WellFormed(Run(NewPool(retryAfter), steps))
    ensures var s := Run(NewPool(retryAfter), steps);
      WellFormed(Connect(s, name)) && ConnectAnswers(s, name, Connect(s, name), FoundIn(Connect(s, name), name))
  {
    RunInv(NewPool(retryAfter), steps);
    ConnectGivesAt(Run(NewPool(retryAfter), steps), name);
  }

  lemma {:induction false} ConnectGivesAt(s: State, name: string)
    requires Inv(s)
    ensures WellFormed(Connect(s, name)) && ConnectAnswers(s, name, Connect(s, name), FoundIn(Connect(s, name), name))
  {
    ConnectInv(s, name);
    var s' := Connect(s, name);
    if !s.closed {
      var h := s'.hosts[name];
      if name in s.hosts {
        if s.entries[h].conn.Some? { assert Mapped(s, name, s.entries[h].conn.value); }
        if s.entries[h].dialing.Some? { assert InFlight(s, s.entries[h].dialing.value, h); }
      }
      if s'.entries[h].dialing.Some? { assert InFlight(s', s'.entries[h].dialing.value, h); }
    }
  }

  /** A wanted dial that succeeded makes its connection the host's: open, handed
      out, in nobody's way to be closed, and what the next connect gets. */
  lemma {:induction false} DialedIsServed(s: State, d: nat)
    requires Inv(s) && Enabled(s, DoFinishDial(d)) && s.dials[d].phase.conn.Some?
    requires !s.closed && s.entries[s.dials[d].entry].host in s.hosts
    requires s.hosts[s.entries[s.dials[d].entry].host] == s.dials[d].entry
    ensures var s' := FinishDial(s, d);
            var n := s.entries[s.dials[d].entry].host;
            var c := s.dials[d].phase.conn.value;
      && WellFormed(s') && Mapped(s', n, c) && c < |s'.conns|
      && s'.conns[c].open && s'.conns[c].published && s'.conns[c].host == n && c !in s'.closing
      && FoundIn(Connect(s', n), n) == Ready(c) && Connect(s', n) == s'
  {
    var c := s.dials[d].phase.conn.value;
    assert Arriving(s, d, c) && ArrivingOK(s, d, c);
    StepInv(s, DoFinishDial(d));
  }

  /** What takes a connection from its host. */
  predicate Takes(step: Step, n: string, c: nat) {
    match step
    case DoDrop(b) => b == c
    case DoReconnect(name) => name == n
    case DoRetain(names) => n !in names
    case DoClose => true
    case _ => false
  }

  /** A host keeps its connection through every step but a drop of it, a
      reconnect, a retain without the host, and Close. */
  lemma {:induction false} KeepsConnection(s: State, step: Step, n: string, c: nat)
    requires Inv(s) && Enabled(s, step) && Mapped(s, n, c)
    ensures Inv(Next(s, step)) && (Mapped(Next(s, step), n, c) <==> !Takes(step, n, c))
  {
    StepInv(s, step);
    assert s.entries[s.hosts[n]].dialing.None?;
    match step
    case DoFinishDial(d) => assert InFlight(s, d, s.dials[d].entry);
    case DoDrop(b) => DropUnmaps(s, b, n, c);
    case _ =>
  }

  predicate NoneTakes(steps: seq<Step>, n: string, c: nat) {
    forall i :: 0 <= i < |steps| ==> !Takes(steps[i], n, c)
  }

  /** So it stays the one every connect gets, through any run without those. */
  lemma {:induction false} StaysConnected(s: State, steps: seq<Step>, n: string, c: nat)
    requires Inv(s) && Allowed(s, steps) && Mapped(s, n, c) && NoneTakes(steps, n, c)
    ensures var s' := Run(s, steps);
      && Inv(s') && Mapped(s', n, c) && c < |s'.conns| && s'.conns[c].open && c !in s'.closing
      && FoundIn(Connect(s', n), n) == Ready(c)
    decreases steps
  {
    if steps != [] {
      KeepsConnection(s, steps[0], n, c);
      var rest := steps[1..];
      assert forall i :: 0 <= i < |rest| ==> rest[i] == steps[i + 1];
      StaysConnected(Next(s, steps[0]), rest, n, c);
    }
  }

  /** The hosts a step takes out of the pool. */
  predicate Detaches(step: Step, n: string) {
    match step
    case DoReconnect(name) => name == n
    case DoRetain(names) => n !in names
    case DoClose => true
    case _ => false
  }

  /** Exactly a reconnect, a retain without the host, and Close take a host out
      of the pool, connected or not; every other host keeps its entry. */
  lemma {:induction false} KeepsEntry(s: State, step: Step, n: string)
    requires Inv(s) && Enabled(s, step) && n in s.hosts
    ensures var s' := Next(s, step);
      && (n in s'.hosts <==> !Detaches(step, n))
      && (n in s'.hosts ==> s'.hosts[n] == s.hosts[n])
  {
  }

  /** A host taken out starts anew: a dial still under way for it is not wanted
      any more, and the next connect dials at once on an entry of its own,
      whatever failed before. */
  lemma {:induction false} DetachedStartsAnew(s: State, step: Step, n: string)
    requires Inv(s) && Enabled(s, step) && n in s.hosts && Detaches(step, n) && !step.DoClose? && !s.closed
    ensures var s' := Next(s, step);
      && Inv(s') && s'.dials == s.dials && s'.entries == s.entries && !Wanted(s', s.hosts[n])
      && WellFormed(Connect(s', n))
      && Connect(s', n).dials == s.dials + [Dial(|s.entries|, Dialing)]
      && FoundIn(Connect(s', n), n) == Wait(|s.entries|, |s.dials|)
  {
    StepInv(s, step);
    KeepsEntry(s, step, n);
    assert s.entries[s.hosts[n]].host == n;
  }

  class ConnPool {
    var hosts: map<string, nat>
    var entries: seq<Entry>
    var dials: seq<Dial>
    var conns: seq<Conn>
    var closing: set<nat>
    var closed: bool
    var now: int
    const retryAfter: int

    ghost function View(): State
      reads this
    {
      State(hosts, entries, dials, conns, closing, closed, now, retryAfter)
    }

    constructor (retryAfter: int)
      ensures View() == NewPool(if retryAfter <= 0 then 60 else retryAfter)
    {
      hosts, entries, dials, conns := map[], [], [], [];
      closing, closed, now := {}, false, 0;
      this.retryAfter := if retryAfter <= 0 then 60 else retryAfter;
    }

    method BeginConnect(name: string) returns (found: Found)
      requires WellFormed(View())
      modifies this
      ensures View() == Connect(old(View()), name)
      ensures WellFormed(View()) && found == FoundIn(View(), name)
    {
      if closed { return Refused; }
      if name !in hosts {
        hosts := hosts[name := |entries|];
        entries := entries + [Entry(name, None, false, 0, None)];
      }
      var h := hosts[name];
      if entries[h].conn.Some? { return Ready(entries[h].conn.value); }
      if entries[h].dialing.None? {
        if entries[h].failed && now - entries[h].failedAt < retryAfter { return Failing; }
        entries := entries[h := entries[h].(dialing := Some(|dials|))];
        dials := dials + [Dial(h, Dialing)];
      }
      found := Wait(h, entries[h].dialing.value);
    }

    method EndDial(d: nat)
      requires Inv(View()) && Enabled(View(), DoFinishDial(d))
      modifies this
      ensures View() == FinishDial(old(View()), d)
    {
      var h := dials[d].entry;
      var conn := dials[d].phase.conn;
      dials := dials[d := Dial(h, Finished)];
      var e := entries[h].(dialing := None);
      if closed || e.host !in hosts || hosts[e.host] != h {
        if conn.Some? { closing := closing + {conn.value}; }
      } else if conn.None? {
        e := e.(failed := true, failedAt := now);
      } else {
        e := e.(conn := conn, failed := false);
        conns := conns[conn.value := conns[conn.value].(published := true)];
      }
      entries := entries[h := e];
    }

    method DropConn(c: nat)
      requires Enabled(View(), DoDrop(c))
      modifies this
      ensures View() == CloseConn(Drop(old(View()), c), c)
    {
      var name := conns[c].host;
      closing := closing + {c};
      if name in hosts && entries[hosts[name]].conn == Some(c) {
        entries := entries[hosts[name] := entries[hosts[name]].(conn := None)];
      }
      ShutConn(c);
    }

    method ShutConn(c: nat)
      requires c < |conns|
      modifies this
      ensures View() == CloseConn(old(View()), c)
    {
      conns := conns[c := conns[c].(open := false)];
      closing := closing - {c};
    }

    /** The lock scope of Reconnect, Retain and Close: the hosts leave in any
        order, and what they were connected by is to be closed. */
    method DetachHosts(names: set<string>)
      requires WellFormed(View()) && names <= hosts.Keys
      modifies this
      ensures View() == Detach(old(View()), names)
    {
      var left := names;
      ghost var done: set<string> := {};
      while left != {}
        invariant left !! done && left + done == names
        invariant hosts == old(hosts) - done && entries == old(entries) && closed == old(closed)
        invariant closing == old(closing) + ConnsOf(old(View()), done)
        invariant dials == old(dials) && conns == old(conns) && now == old(now)
        decreases left
      {
        var n :| n in left;
        var conn := entries[hosts[n]].conn;
        ghost var before := done;
        if conn.Some? { closing := closing + {conn.value}; }
        hosts := hosts - {n};
        left, done := left - {n}, done + {n};
        ConnsOfOne(old(View()), before, n);
        assert hosts == old(hosts) - done;
      }
      assert done == names;
    }

    method Reconnect(name: string)
      requires WellFormed(View())
      modifies this
      ensures View() == Detach(old(View()), {name})
    {
      if name in hosts {
        DetachHosts({name});
      } else {
        assert hosts - {name} == hosts && ConnsOf(View(), {name}) == {};
      }
    }

    method Retain(names: seq<string>)
      requires WellFormed(View())
      modifies this
      ensures View() == Detach(old(View()), old(hosts).Keys - set n | n in names)
    {
      var keep: set<string> := {};
      for i := 0 to |names|
        invariant keep == set n | n in names[..i]
      {
        assert names[..i + 1] == names[..i] + [names[i]];
        keep := keep + {names[i]};
      }
      assert names[..|names|] == names;
      DetachHosts(hosts.Keys - keep);
    }

    method Close()
      requires WellFormed(View())
      modifies this
      ensures View() == Detach(old(View()), old(hosts).Keys).(closed := true)
    {
      closed := true;
      DetachHosts(hosts.Keys);
    }

    /** The result after the entry's dial is done. */
    method Outcome(h: nat) returns (conn: Option<nat>, failing: bool)
      requires h < |entries|
      ensures conn == entries[h].conn && (failing <==> conn.None? && entries[h].failed)
    {
      if entries[h].conn.Some? { return entries[h].conn, false; }
      return None, entries[h].failed;
    }
  }

  lemma {:induction false} ConnsOfOne(s: State, names: set<string>, n: string)
    requires WellFormed(s) && n in s.hosts
    ensures ConnsOf(s, names + {n}) == ConnsOf(s, names)
         + (if s.entries[s.hosts[n]].conn.Some? then {s.entries[s.hosts[n]].conn.value} else {})
  {
    if s.entries[s.hosts[n]].conn.Some? {
      assert n in names + {n} && s.entries[s.hosts[n]].conn.value in ConnsOf(s, names + {n});
    }
  }
}
