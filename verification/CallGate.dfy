/** The gate of a tool's calls. */
module CallGate {
  // It keeps the calls to a tool on a host and its updates apart: calls
  // hold leases, an update announces a pause, waits for the leases it found
  // to drain, and holds the pause until it resumes.
  //
  // A lease, a pause and an idle channel are numbered as they are made; one
  // step is one lock scope, or a pauser's wait ending.

  import opened Text

  type Key = (string, string)

  /** `idle` is the channel closed when the last active lease is released. */
  datatype Slot = Slot(active: nat, updating: bool, idle: Option<nat>, revision: nat)

  datatype Lease = Lease(key: Key, released: bool)

  datatype Phase = Draining(idle: nat) | Held | Lifted

  datatype Pause = Pause(key: Key, phase: Phase)

  /** `closed[i]` says whether channel i is closed. */
  datatype Gate = Gate(slots: map<Key, Slot>, closed: seq<bool>, leases: seq<Lease>, pauses: seq<Pause>)

  const EMPTY_SLOT := Slot(0, false, None, 0)

  function SlotOf(g: Gate, k: Key): Slot {
    if k in g.slots then g.slots[k] else EMPTY_SLOT
  }

  function WithSlot(g: Gate, k: Key, s: Slot): Gate {
    g.(slots := g.slots[k := s])
  }

  /** Refused, or a new lease. */
  function Begin(g: Gate, k: Key): Gate {
    var s := SlotOf(g, k);
    if s.updating then WithSlot(g, k, s)
    else
      var s1 := if s.active == 0 then s.(idle := Some(|g.closed|)) else s;
      var closed := if s.active == 0 then g.closed + [false] else g.closed;
      Gate(g.slots[k := s1.(active := s1.active + 1)], closed, g.leases + [Lease(k, false)], g.pauses)
  }

  /** Releasing a second time does nothing. */
  function Release(g: Gate, l: nat): Gate
    requires l < |g.leases|
  {
    var k := g.leases[l].key;
    var s := SlotOf(g, k);
    if g.leases[l].released || s.active == 0 then g
    else
      Gate(g.slots[k := s.(active := s.active - 1)],
           if s.active == 1 && s.idle.Some? && s.idle.value < |g.closed| then g.closed[s.idle.value := true]
           else g.closed,
           g.leases[l := Lease(k, true)], g.pauses)
  }

  /** Refused while updating, or a new pause: draining while leases are active. */
  function Announce(g: Gate, k: Key): Gate {
    var s := SlotOf(g, k);
    if s.updating then WithSlot(g, k, s)
    else
      var phase := if s.active > 0 && s.idle.Some? then Draining(s.idle.value) else Held;
      WithSlot(g, k, s.(updating := true)).(pauses := g.pauses + [Pause(k, phase)])
  }

  function WithPhase(g: Gate, p: nat, phase: Phase): Gate
    requires p < |g.pauses|
  {
    g.(pauses := g.pauses[p := g.pauses[p].(phase := phase)])
  }

  /** Lifts a pause that is not lifted yet. */
  function Lift(g: Gate, p: nat): Gate
    requires p < |g.pauses|
  {
    if g.pauses[p].phase.Lifted? then g
    else
      var k := g.pauses[p].key;
      WithPhase(WithSlot(g, k, SlotOf(g, k).(updating := false)), p, Lifted)
  }

  function Invalidate(g: Gate, k: Key): Gate {
    WithSlot(g, k, SlotOf(g, k).(revision := SlotOf(g, k).revision + 1))
  }

  datatype Step =
    | DoBegin(key: Key)
    | DoRelease(lease: nat)
    | DoAnnounce(key: Key)
    | Drained(pause: nat)
    | Cancelled(pause: nat)
    | Resume(pause: nat)
    | DoInvalidate(key: Key)

  /** A wait ends by its channel closing or by cancellation; a resume exists
      once its Pause has succeeded, and may be called again. */
  predicate Enabled(g: Gate, step: Step) {
    match step
    case DoRelease(l) => l < |g.leases|
    case Drained(p) =>
      p < |g.pauses| && g.pauses[p].phase.Draining?
      && g.pauses[p].phase.idle < |g.closed| && g.closed[g.pauses[p].phase.idle]
    case Cancelled(p) => p < |g.pauses| && g.pauses[p].phase.Draining?
    case Resume(p) => p < |g.pauses| && !g.pauses[p].phase.Draining?
    case _ => true
  }

  function Next(g: Gate, step: Step): Gate
    requires Enabled(g, step)
  {
    match step
    case DoBegin(k) => Begin(g, k)
    case DoRelease(l) => Release(g, l)
    case DoAnnounce(k) => Announce(g, k)
    case Drained(p) => WithPhase(g, p, Held)
    case Cancelled(p) => Lift(g, p)
    case Resume(p) => Lift(g, p)
    case DoInvalidate(k) => Invalidate(g, k)
  }

  // ------------------------------------------------------------- invariant

  /** Leases of the key not released yet. */
  function Outstanding(leases: seq<Lease>, k: Key): nat {
    if leases == [] then 0
    else
      var l := leases[|leases| - 1];
      Outstanding(leases[..|leases| - 1], k) + (if l.key == k && !l.released then 1 else 0)
  }

  lemma {:induction false} OutstandingReleased(leases: seq<Lease>, l: nat, k: Key)
    requires l < |leases| && !leases[l].released
    ensures Outstanding(leases, k)
         == Outstanding(leases[l := Lease(leases[l].key, true)], k) + (if leases[l].key == k then 1 else 0)
  {
    var n := |leases| - 1;
    var after := leases[l := Lease(leases[l].key, true)];
    if l < n {
      OutstandingReleased(leases[..n], l, k);
      assert after[..n] == leases[..n][l := Lease(leases[l].key, true)];
    } else {
      assert after[..n] == leases[..n];
    }
  }

  lemma {:induction false} OutstandingOne(leases: seq<Lease>, l: nat)
    requires l < |leases| && !leases[l].released
    ensures Outstanding(leases, leases[l].key) > 0
  {
    OutstandingReleased(leases, l, leases[l].key);
  }

  predicate Pausing(g: Gate, p: nat, k: Key) {
    p < |g.pauses| && g.pauses[p].key == k && !g.pauses[p].phase.Lifted?
  }

  /** The slot's channel exists, and is closed exactly when nothing is active. */
  predicate IdleOK(g: Gate, k: Key) {
    var s := SlotOf(g, k);
    && (s.active > 0 ==> s.idle.Some?)
    && (s.idle.Some? ==> s.idle.value < |g.closed| && (g.closed[s.idle.value] <==> s.active == 0))
  }

  ghost predicate Inv(g: Gate) {
    && (forall k :: SlotOf(g, k).active == Outstanding(g.leases, k))
    && (forall k :: IdleOK(g, k))
    && (forall k, k' :: k != k' && SlotOf(g, k).idle.Some? ==> SlotOf(g, k).idle != SlotOf(g, k').idle)
    && (forall k, p: nat :: Pausing(g, p, k) ==> SlotOf(g, k).updating)
    && (forall k, p: nat, q: nat :: Pausing(g, p, k) && Pausing(g, q, k) ==> p == q)
    && (forall k, p: nat :: Pausing(g, p, k) && g.pauses[p].phase.Held? ==> SlotOf(g, k).active == 0)
    && (forall k, p: nat :: Pausing(g, p, k) && g.pauses[p].phase.Draining? ==>
          SlotOf(g, k).idle == Some(g.pauses[p].phase.idle))
    && (forall k :: SlotOf(g, k).updating ==> exists p: nat :: Pausing(g, p, k))
  }

  lemma {:induction false} BeginInv(g: Gate, k: Key)
    requires Inv(g)
    ensures Inv(Begin(g, k))
  {
    var g' := Begin(g, k);
    if !SlotOf(g, k).updating {
      assert g'.leases[..|g'.leases| - 1] == g.leases;
      assert forall j :: j != k ==> SlotOf(g', j) == SlotOf(g, j);
      assert IdleOK(g, k);
      forall j ensures IdleOK(g', j) { assert IdleOK(g, j); }
      assert forall j, p: nat :: Pausing(g', p, j) <==> Pausing(g, p, j);
      forall j | j != k && SlotOf(g', j).idle.Some? ensures SlotOf(g', j).idle != SlotOf(g', k).idle {
        assert IdleOK(g, j);
      }
    } else {
      assert forall j :: SlotOf(g', j) == SlotOf(g, j);
      assert forall j, p: nat :: Pausing(g', p, j) <==> Pausing(g, p, j);
      forall j ensures IdleOK(g', j) { assert IdleOK(g, j); }
    }
  }

  lemma {:induction false} ReleaseInv(g: Gate, l: nat)
    requires Inv(g) && l < |g.leases|
    ensures Inv(Release(g, l))
  {
    var g' := Release(g, l);
    var k := g.leases[l].key;
    if !g.leases[l].released {
      OutstandingOne(g.leases, l);
      assert IdleOK(g, k);
      forall j ensures SlotOf(g', j).active == Outstanding(g'.leases, j) && IdleOK(g', j) {
        OutstandingReleased(g.leases, l, j);
        assert IdleOK(g, j);
        if j != k { assert SlotOf(g', j) == SlotOf(g, j); }
      }
      assert forall j :: j != k ==> SlotOf(g', j) == SlotOf(g, j);
      assert forall j, p: nat :: Pausing(g', p, j) <==> Pausing(g, p, j);
    }
  }

  lemma {:induction false} AnnounceInv(g: Gate, k: Key)
    requires Inv(g)
    ensures Inv(Announce(g, k))
  {
    var g' := Announce(g, k);
    var n := |g.pauses|;
    assert IdleOK(g, k);
    assert forall j :: j != k ==> SlotOf(g', j) == SlotOf(g, j);
    forall j ensures IdleOK(g', j) { assert IdleOK(g, j); }
    if SlotOf(g, k).updating {
      assert forall j, p: nat :: Pausing(g', p, j) <==> Pausing(g, p, j);
    } else {
      assert forall j, p: nat :: Pausing(g', p, j) <==> Pausing(g, p, j) || (j == k && p == n);
      assert Pausing(g', n, k);
      forall j | SlotOf(g', j).updating ensures exists p: nat :: Pausing(g', p, j) {
        if j != k {
          var p: nat :| Pausing(g, p, j);
          assert Pausing(g', p, j);
        }
      }
    }
  }

  lemma {:induction false} DrainedInv(g: Gate, p: nat)
    requires Inv(g) && Enabled(g, Drained(p))
    ensures Inv(WithPhase(g, p, Held))
  {
    var g' := WithPhase(g, p, Held);
    var k := g.pauses[p].key;
    assert forall j :: SlotOf(g', j) == SlotOf(g, j);
    assert forall j, q: nat :: Pausing(g', q, j) <==> Pausing(g, q, j);
    assert Pausing(g, p, k) && IdleOK(g, k);
    forall j ensures IdleOK(g', j) { assert IdleOK(g, j); }
  }

  lemma {:induction false} LiftInv(g: Gate, p: nat)
    requires Inv(g) && p < |g.pauses|
    ensures Inv(Lift(g, p))
  {
    var g' := Lift(g, p);
    if !g.pauses[p].phase.Lifted? {
      var k := g.pauses[p].key;
      assert Pausing(g, p, k);
      assert forall j :: j != k ==> SlotOf(g', j) == SlotOf(g, j);
      assert forall j, q: nat :: Pausing(g', q, j) <==> Pausing(g, q, j) && q != p;
      forall j ensures IdleOK(g', j) { assert IdleOK(g, j); }
      forall j | SlotOf(g', j).updating ensures exists q: nat :: Pausing(g', q, j) {
        var q: nat :| Pausing(g, q, j);
        assert Pausing(g', q, j);
      }
    }
  }

  lemma {:induction false} StepInv(g: Gate, step: Step)
    requires Inv(g) && Enabled(g, step)
    ensures Inv(Next(g, step))
  {
    match step
    case DoBegin(k) => BeginInv(g, k);
    case DoRelease(l) => ReleaseInv(g, l);
    case DoAnnounce(k) => AnnounceInv(g, k);
    case Drained(p) => DrainedInv(g, p);
    case Cancelled(p) => LiftInv(g, p);
    case Resume(p) => LiftInv(g, p);
    case DoInvalidate(k) =>
      var g' := Next(g, step);
      assert forall j :: j != k ==> SlotOf(g', j) == SlotOf(g, j);
      assert forall j, p: nat :: Pausing(g', p, j) <==> Pausing(g, p, j);
      forall j ensures IdleOK(g', j) { assert IdleOK(g, j); }
  }

  // ------------------------------------------------------------------ runs

  predicate Allowed(g: Gate, steps: seq<Step>)
    decreases steps
  {
    steps == [] || (Enabled(g, steps[0]) && Allowed(Next(g, steps[0]), steps[1..]))
  }

  function Run(g: Gate, steps: seq<Step>): Gate
    requires Allowed(g, steps)
    decreases steps
  {
    if steps == [] then g else Run(Next(g, steps[0]), steps[1..])
  }

  const NEW_GATE := Gate(map[], [], [], [])

  lemma {:induction false} RunInv(g: Gate, steps: seq<Step>)
    requires Inv(g) && Allowed(g, steps)
    ensures Inv(Run(g, steps))
    decreases steps
  {
    if steps != [] {
      StepInv(g, steps[0]);
      RunInv(Next(g, steps[0]), steps[1..]);
    }
  }

  /** A pause that succeeded and is not resumed yet. */
  predicate Holding(g: Gate, p: nat) {
    p < |g.pauses| && g.pauses[p].phase.Held?
  }

  predicate Active(g: Gate, l: nat) {
    l < |g.leases| && !g.leases[l].released
  }

  /** Exclusion, in every run: while a pause holds, no call on its tool and
      host is active and no other pause holds or drains there. */
  lemma {:induction false} Exclusion(steps: seq<Step>, p: nat)
    requires Allowed(NEW_GATE, steps) && Holding(Run(NEW_GATE, steps), p)
    ensures var g := Run(NEW_GATE, steps);
            var k := g.pauses[p].key;
      && (forall l: nat :: Active(g, l) ==> g.leases[l].key != k)
      && (forall q: nat :: Pausing(g, q, k) ==> q == p)
      && SlotOf(g, k).updating
  {
    RunInv(NEW_GATE, steps);
    var g := Run(NEW_GATE, steps);
    var k := g.pauses[p].key;
    assert Pausing(g, p, k);
    forall l: nat | Active(g, l) ensures g.leases[l].key != k { OutstandingOne(g.leases, l); }
  }

  /** Only its own resume ends a holding pause: a stale resume or release, a
      repeated one, another pause or a cancellation leaves it holding. */
  lemma {:induction false} HoldsUntilResumed(g: Gate, step: Step, p: nat)
    requires Inv(g) && Enabled(g, step) && Holding(g, p)
    ensures Holding(Next(g, step), p) <==> step != Resume(p)
    ensures step == Resume(p) ==> !SlotOf(Next(g, step), g.pauses[p].key).updating
  {
    assert Pausing(g, p, g.pauses[p].key);
  }

  /** Only its own release ends a lease, and it ends no other. */
  lemma {:induction false} ActiveUntilReleased(g: Gate, step: Step, l: nat)
    requires Inv(g) && Enabled(g, step) && Active(g, l)
    ensures Active(Next(g, step), l) <==> step != DoRelease(l)
  {
    OutstandingOne(g.leases, l);
    if step.DoRelease? && Active(g, step.lease) { OutstandingOne(g.leases, step.lease); }
  }

  /** A call is admitted exactly when no pause holds or drains, and a pause is
      admitted on the same condition. */
  lemma {:induction false} Admission(g: Gate, k: Key)
    requires Inv(g)
    ensures (exists p: nat :: Pausing(g, p, k)) ==> Begin(g, k).leases == g.leases && Announce(g, k).pauses == g.pauses
    ensures !(exists p: nat :: Pausing(g, p, k)) ==>
      && Begin(g, k).leases == g.leases + [Lease(k, false)]
      && |Announce(g, k).pauses| == |g.pauses| + 1 && Pausing(Announce(g, k), |g.pauses|, k)
      && (Holding(Announce(g, k), |g.pauses|) <==> Outstanding(g.leases, k) == 0)
  {
    assert SlotOf(g, k).active == Outstanding(g.leases, k) && IdleOK(g, k);
  }

  /** A channel closes exactly by the release of the last active lease of the
      slot it belongs to, so no channel is ever closed twice. */
  lemma {:induction false} ClosesOnLastRelease(g: Gate, step: Step, ch: nat)
    requires Inv(g) && Enabled(g, step) && ch < |g.closed|
    ensures var g' := Next(g, step);
      && ch < |g'.closed| && (g.closed[ch] ==> g'.closed[ch])
      && (!g.closed[ch] && g'.closed[ch] <==>
            step.DoRelease? && Active(g, step.lease) && Outstanding(g.leases, g.leases[step.lease].key) == 1
            && SlotOf(g, g.leases[step.lease].key).idle == Some(ch))
  {
    if step.DoRelease? {
      var k := g.leases[step.lease].key;
      assert IdleOK(g, k);
      if Active(g, step.lease) { OutstandingOne(g.leases, step.lease); }
    }
  }

  /** A draining pause holds once it is told that it drained, is lifted exactly
      if its wait is cancelled, and drains on through everything else; lifting
      it lets calls in again. */
  lemma {:induction false} DrainsUntilTold(g: Gate, step: Step, p: nat)
    requires Inv(g) && Enabled(g, step) && p < |g.pauses| && g.pauses[p].phase.Draining?
    ensures var g' := Next(g, step);
            var k := g.pauses[p].key;
      && p < |g'.pauses| && g'.pauses[p].key == k
      && (Holding(g', p) <==> step == Drained(p))
      && (!Pausing(g', p, k) <==> step == Cancelled(p))
      && (step == Cancelled(p) ==> Begin(g', k).leases == g'.leases + [Lease(k, false)])
  {
    assert Pausing(g, p, g.pauses[p].key);
  }

  /** A draining pause may go on exactly when nothing is active any more. */
  lemma {:induction false} DrainEnds(g: Gate, p: nat)
    requires Inv(g) && p < |g.pauses| && g.pauses[p].phase.Draining?
    ensures Enabled(g, Drained(p)) <==> Outstanding(g.leases, g.pauses[p].key) == 0
  {
    assert Pausing(g, p, g.pauses[p].key);
    assert IdleOK(g, g.pauses[p].key);
  }

  // ------------------------------------------------------------- the gate

  class CallGate {
    var slots: map<Key, Slot>
    var closed: seq<bool>
    var leases: seq<Lease>
    var pauses: seq<Pause>

    ghost function View(): Gate
      reads this
    {
      Gate(slots, closed, leases, pauses)
    }

    constructor ()
      ensures View() == NEW_GATE
    {
      slots, closed, leases, pauses := map[], [], [], [];
    }

    method SlotFor(k: Key) returns (s: Slot)
      modifies this`slots
      ensures s == SlotOf(old(View()), k) && View() == WithSlot(old(View()), k, s)
    {
      if k !in slots { slots := slots[k := EMPTY_SLOT]; }
      s := slots[k];
      assert slots == old(slots)[k := s];
    }

    /** The new lease, or None when an update has been announced. */
    method BeginCall(k: Key) returns (lease: Option<nat>)
      modifies this
      ensures View() == Begin(old(View()), k)
      ensures lease == if SlotOf(old(View()), k).updating then None else Some(|old(leases)|)
    {
      var s := SlotFor(k);
      if s.updating { return None; }
      if s.active == 0 {
        s := s.(idle := Some(|closed|));
        closed := closed + [false];
      }
      s := s.(active := s.active + 1);
      slots := slots[k := s];
      lease := Some(|leases|);
      leases := leases + [Lease(k, false)];
      assert slots == old(slots)[k := s];
    }

    method ReleaseCall(lease: nat)
      requires lease < |leases| && Inv(View())
      modifies this
      ensures View() == Release(old(View()), lease)
    {
      if leases[lease].released { return; }
      OutstandingOne(leases, lease);
      var k := leases[lease].key;
      assert IdleOK(View(), k);
      var s := slots[k];
      s := s.(active := s.active - 1);
      if s.active == 0 { closed := closed[s.idle.value := true]; }
      slots := slots[k := s];
      leases := leases[lease := Lease(k, true)];
    }

    /** The new pause, or None when refused. */
    method AnnouncePause(k: Key) returns (pause: Option<nat>)
      requires Inv(View())
      modifies this
      ensures View() == Announce(old(View()), k)
      ensures pause == if SlotOf(old(View()), k).updating then None else Some(|old(pauses)|)
    {
      assert IdleOK(View(), k);
      var s := SlotFor(k);
      if s.updating { return None; }
      slots := slots[k := s.(updating := true)];
      pause := Some(|pauses|);
      pauses := pauses + [Pause(k, if s.active > 0 then Draining(s.idle.value) else Held)];
      assert slots == old(slots)[k := s.(updating := true)];
    }

    /** The wait's end: drained, or cancelled when `cancel`. */
    method EndWait(pause: nat, cancel: bool)
      requires Enabled(View(), if cancel then Cancelled(pause) else Drained(pause))
      modifies this
      ensures View() == Next(old(View()), if cancel then Cancelled(pause) else Drained(pause))
    {
      if cancel {
        LiftPause(pause);
      } else {
        pauses := pauses[pause := pauses[pause].(phase := Held)];
      }
    }

    method LiftPause(pause: nat)
      requires pause < |pauses|
      modifies this
      ensures View() == Lift(old(View()), pause)
    {
      if pauses[pause].phase.Lifted? { return; }
      var k := pauses[pause].key;
      var s := SlotFor(k);
      slots := slots[k := s.(updating := false)];
      pauses := pauses[pause := pauses[pause].(phase := Lifted)];
      assert slots == old(slots)[k := s.(updating := false)];
    }

    /** An installer attempt ended: cached discoveries are stale. */
    method InvalidateTool(k: Key)
      modifies this
      ensures View() == Invalidate(old(View()), k)
    {
      var s := SlotFor(k);
      slots := slots[k := s.(revision := s.revision + 1)];
      assert slots == old(slots)[k := s.(revision := s.revision + 1)];
    }

    method Revision(k: Key) returns (revision: nat)
      modifies this`slots
      ensures revision == SlotOf(old(View()), k).revision
      ensures forall j :: SlotOf(View(), j) == SlotOf(old(View()), j)
    {
      var s := SlotFor(k);
      revision := s.revision;
    }

    method Updating(k: Key) returns (yes: bool)
      ensures yes == SlotOf(View(), k).updating
    {
      yes := k in slots && slots[k].updating;
    }
  }
}
