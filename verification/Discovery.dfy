/** Cached tool discovery. */
module Discovery {
  // One tool on one host. Calls cache what a probe found; an
  // installer may change the installation, but only while it holds the call
  // gate, and it raises the gate's revision before it lets calls in again.
  //
  // The state machine runs every call thread, probe and installer attempt on
  // the gate of module CallGate, one lock scope or remote command at a time.

  import opened Text
  import opened CallGate

  /** What a probe sees: where the install path leads, and whether anything is
      installed there. */
  datatype World = World(path: string, present: bool)

  datatype Cache = Cache(absent: bool, resolved: Option<string>, seen: nat)

  /** A call, from its lease to its release. */
  datatype CallPhase =
    | Leased
    | Read(revision: nat)
    | Ready
    | Probing
    | Resolved(path: string)
    | Probed(path: string, present: bool)

  /** What became of a pause's installer; a pause without one only checked. */
  datatype InstallPhase = Installing | Invalidated

  datatype System = System(
    key: Key, gate: Gate, world: World, cache: Cache, calls: map<nat, CallPhase>, installs: map<nat, InstallPhase>)

  /** What the cache knows: Some(None) is a remembered absence. */
  function Known(c: Cache): Option<Option<string>> {
    if c.absent then Some(None) else if c.resolved.Some? then Some(Some(c.resolved.value)) else None
  }

  /** What a probe of this world finds. */
  function Fresh(w: World): Option<string> {
    if w.present then Some(w.path) else None
  }

  /** A cache that saw another revision forgets what it knew. */
  function Synced(c: Cache, revision: nat): Cache {
    if c.seen != revision then Cache(false, None, revision) else c
  }

  /** The first discovery wins. */
  function Published(c: Cache, path: string, present: bool): Cache {
    if Known(c).Some? then c else if present then c.(resolved := Some(path)) else c.(absent := true)
  }

  // ----------------------------------------------------------------- steps

  datatype Event =
    | OnGate(step: Step)
    | LeaseCall
    | ReadRevision(call: nat)
    | SyncCache(call: nat)
    | LookUp(call: nat)
    | Resolve(call: nat)
    | Presence(call: nat)
    | ProbeFailed(call: nat)
    | Publish(call: nat)
    | EndCall(call: nat)
    | StartInstall(pause: nat)
    | ChangeWorld(pause: nat, world: World)
    | EndInstall(pause: nat)

  predicate In(s: System, l: nat, phase: CallPhase) {
    l in s.calls && s.calls[l] == phase
  }

  /** Other users of the gate move freely, except that a running call is
      released by its own end only, the tool is invalidated by its installer
      only, and a pause that installed resumes after its invalidation. */
  predicate GateMay(s: System, step: Step) {
    && Enabled(s.gate, step)
    && (step.DoRelease? ==> step.lease !in s.calls)
    && (step.DoInvalidate? ==> step.key != s.key)
    && (step.Resume? && step.pause in s.installs ==> s.installs[step.pause] == Invalidated)
  }

  predicate May(s: System, e: Event) {
    match e
    case OnGate(step) => GateMay(s, step)
    case LeaseCall => true
    case ReadRevision(l) => In(s, l, Leased)
    case SyncCache(l) => l in s.calls && s.calls[l].Read?
    case LookUp(l) => In(s, l, Ready)
    case Resolve(l) => In(s, l, Probing)
    case Presence(l) => l in s.calls && s.calls[l].Resolved?
    case ProbeFailed(l) => l in s.calls && (s.calls[l].Probing? || s.calls[l].Resolved?)
    case Publish(l) => l in s.calls && s.calls[l].Probed?
    case EndCall(l) => In(s, l, Ready) && l < |s.gate.leases|
    case StartInstall(p) => Holding(s.gate, p) && s.gate.pauses[p].key == s.key && p !in s.installs
    case ChangeWorld(p, _) => p in s.installs && s.installs[p] == Installing
    case EndInstall(p) => p in s.installs && s.installs[p] == Installing
  }

  function At(s: System, l: nat, phase: CallPhase): System {
    s.(calls := s.calls[l := phase])
  }

  function WithLease(s: System): System {
    var gate := Begin(s.gate, s.key);
    if SlotOf(s.gate, s.key).updating then s.(gate := gate)
    else s.(gate := gate, calls := s.calls[|s.gate.leases| := Leased])
  }

  function Move(s: System, e: Event): System
    requires May(s, e)
  {
    match e
    case OnGate(step) => s.(gate := Next(s.gate, step))
    case LeaseCall => WithLease(s)
    case ReadRevision(l) => At(s, l, Read(SlotOf(s.gate, s.key).revision))
    case SyncCache(l) => At(s, l, Ready).(cache := Synced(s.cache, s.calls[l].revision))
    case LookUp(l) => if Known(s.cache).Some? then s else At(s, l, Probing)
    case Resolve(l) => At(s, l, Resolved(s.world.path))
    case Presence(l) => At(s, l, Probed(s.calls[l].path, s.world.present))
    case ProbeFailed(l) => At(s, l, Ready)
    case Publish(l) => At(s, l, Ready).(cache := Published(s.cache, s.calls[l].path, s.calls[l].present))
    case EndCall(l) => s.(gate := Release(s.gate, l), calls := s.calls - {l})
    case StartInstall(p) => s.(installs := s.installs[p := Installing])
    case ChangeWorld(_, w) => s.(world := w)
    case EndInstall(p) => s.(gate := Invalidate(s.gate, s.key), installs := s.installs[p := Invalidated])
  }

  // ------------------------------------------------------------- invariant

  function RevisionOf(s: System): nat {
    SlotOf(s.gate, s.key).revision
  }

  predicate Agrees(c: Cache, w: World) {
    Known(c).Some? ==> Known(c).value == Fresh(w)
  }

  predicate InstallRuns(s: System) {
    exists p :: p in s.installs && s.installs[p] == Installing
  }

  /** What a call has learned is still so. */
  predicate CallOK(s: System, l: nat)
    requires l in s.calls
  {
    var phase := s.calls[l];
    && Active(s.gate, l) && s.gate.leases[l].key == s.key
    && (phase.Read? ==> phase.revision == RevisionOf(s))
    && (!phase.Leased? && !phase.Read? ==> s.cache.seen == RevisionOf(s))
    && (phase.Resolved? || phase.Probed? ==> phase.path == s.world.path)
    && (phase.Probed? ==> phase.present == s.world.present)
  }

  ghost predicate Coherent(s: System) {
    && Inv(s.gate)
    && s.cache.seen <= RevisionOf(s)
    && (forall l :: l in s.calls ==> CallOK(s, l))
    && (forall p :: p in s.installs && s.installs[p] == Installing ==>
          Holding(s.gate, p) && s.gate.pauses[p].key == s.key)
    && (s.cache.seen == RevisionOf(s) && !InstallRuns(s) ==> Agrees(s.cache, s.world))
  }

  /** While an installer runs, no call is under way, and the other way round. */
  lemma {:induction false} InstallsAlone(s: System, p: nat)
    requires Coherent(s) && p in s.installs && s.installs[p] == Installing
    ensures s.calls == map[]
  {
    var k := s.key;
    assert Pausing(s.gate, p, k);
    forall l | l in s.calls ensures false {
      assert CallOK(s, l);
      OutstandingOne(s.gate.leases, l);
    }
  }

  lemma {:induction false} CallKeepsLease(s: System, step: Step, l: nat)
    requires Coherent(s) && GateMay(s, step) && l in s.calls
    ensures Active(Next(s.gate, step), l) && Next(s.gate, step).leases[l].key == s.key
  {
    assert CallOK(s, l);
    ActiveUntilReleased(s.gate, step, l);
  }

  lemma {:induction false} InstallKeepsPause(s: System, step: Step, p: nat)
    requires Coherent(s) && GateMay(s, step) && p in s.installs && s.installs[p] == Installing
    ensures Holding(Next(s.gate, step), p) && Next(s.gate, step).pauses[p].key == s.key
  {
    HoldsUntilResumed(s.gate, step, p);
  }

  lemma {:induction false} RevisionStays(s: System, step: Step)
    requires GateMay(s, step)
    ensures RevisionOf(s.(gate := Next(s.gate, step))) == RevisionOf(s)
  {
  }

  /** A gate step keeps the revision, the calls' leases and the installers'
      pauses. */
  lemma {:induction false} GateStepKeeps(s: System, step: Step)
    requires Coherent(s) && GateMay(s, step)
    ensures var s' := s.(gate := Next(s.gate, step));
      && RevisionOf(s') == RevisionOf(s) && Inv(s'.gate)
      && (forall l :: l in s.calls ==> Active(s'.gate, l) && s'.gate.leases[l].key == s.key)
      && (forall p :: p in s.installs && s.installs[p] == Installing ==>
            Holding(s'.gate, p) && s'.gate.pauses[p].key == s.key)
  {
    StepInv(s.gate, step);
    RevisionStays(s, step);
    forall l | l in s.calls ensures Active(Next(s.gate, step), l) && Next(s.gate, step).leases[l].key == s.key {
      CallKeepsLease(s, step, l);
    }
    forall p | p in s.installs && s.installs[p] == Installing
      ensures Holding(Next(s.gate, step), p) && Next(s.gate, step).pauses[p].key == s.key
    {
      InstallKeepsPause(s, step, p);
    }
  }

  lemma {:induction false} OnGateCoherent(s: System, step: Step)
    requires Coherent(s) && GateMay(s, step)
    ensures Coherent(s.(gate := Next(s.gate, step)))
  {
    var s' := s.(gate := Next(s.gate, step));
    GateStepKeeps(s, step);
    forall l | l in s'.calls ensures CallOK(s', l) { assert CallOK(s, l); }
    assert InstallRuns(s') == InstallRuns(s);
  }

  lemma {:induction false} LeaseCoherent(s: System)
    requires Coherent(s)
    ensures Coherent(WithLease(s))
  {
    OnGateCoherent(s, DoBegin(s.key));
    var s0 := s.(gate := Begin(s.gate, s.key));
    var s' := WithLease(s);
    forall l | l in s'.calls ensures CallOK(s', l) {
      if l in s.calls && l != |s.gate.leases| { assert CallOK(s0, l); }
    }
    assert InstallRuns(s') == InstallRuns(s0);
  }

  /** A step of one call alone. */
  lemma {:induction false} CallCoherent(s: System, e: Event)
    requires Coherent(s) && May(s, e)
    requires e.ReadRevision? || e.LookUp? || e.Resolve? || e.Presence? || e.ProbeFailed?
    ensures Coherent(Move(s, e))
  {
    var s' := Move(s, e);
    assert CallOK(s, e.call);
    forall l | l in s'.calls ensures CallOK(s', l) {
      if l != e.call { assert CallOK(s, l); }
    }
    assert InstallRuns(s') == InstallRuns(s);
  }

  /** Syncing and publishing write the cache: no installer runs meanwhile. */
  lemma {:induction false} CacheCoherent(s: System, e: Event)
    requires Coherent(s) && May(s, e) && (e.SyncCache? || e.Publish?)
    ensures Coherent(Move(s, e))
  {
    var s' := Move(s, e);
    assert CallOK(s, e.call);
    if InstallRuns(s) {
      var p :| p in s.installs && s.installs[p] == Installing;
      InstallsAlone(s, p);
      assert false;
    } else {
      assert !InstallRuns(s');
      forall l | l in s'.calls ensures CallOK(s', l) {
        if l != e.call { assert CallOK(s, l); }
      }
    }
  }

  lemma {:induction false} EndCallCoherent(s: System, l: nat)
    requires Coherent(s) && May(s, EndCall(l))
    ensures Coherent(Move(s, EndCall(l)))
  {
    var s0 := s.(calls := s.calls - {l});
    forall j | j in s0.calls ensures CallOK(s0, j) { assert CallOK(s, j); }
    assert InstallRuns(s0) == InstallRuns(s);
    OnGateCoherent(s0, DoRelease(l));
  }

  lemma {:induction false} InstallCoherent(s: System, e: Event)
    requires Coherent(s) && May(s, e) && (e.StartInstall? || e.ChangeWorld? || e.EndInstall?)
    ensures Coherent(Move(s, e))
  {
    var s' := Move(s, e);
    var p := e.pause;
    match e {
      case StartInstall(_) =>
        assert s'.installs[p] == Installing;
        assert InstallRuns(s');
        forall l | l in s'.calls ensures CallOK(s', l) { assert CallOK(s, l); }
      case ChangeWorld(_, _) =>
        InstallsAlone(s, p);
        assert InstallRuns(s');
      case EndInstall(_) =>
        InstallsAlone(s, p);
        StepInv(s.gate, DoInvalidate(s.key));
        assert s'.gate.pauses == s.gate.pauses;
        assert RevisionOf(s') == RevisionOf(s) + 1;
    }
  }

  lemma {:induction false} MoveCoherent(s: System, e: Event)
    requires Coherent(s) && May(s, e)
    ensures Coherent(Move(s, e))
  {
    match e
    case OnGate(step) => OnGateCoherent(s, step);
    case LeaseCall => LeaseCoherent(s);
    case SyncCache(_) => CacheCoherent(s, e);
    case Publish(_) => CacheCoherent(s, e);
    case EndCall(l) => EndCallCoherent(s, l);
    case StartInstall(_) => InstallCoherent(s, e);
    case ChangeWorld(_, _) => InstallCoherent(s, e);
    case EndInstall(_) => InstallCoherent(s, e);
    case _ => CallCoherent(s, e);
  }

  // ------------------------------------------------------------------ runs

  predicate Possible(s: System, events: seq<Event>)
    decreases events
  {
    events == [] || (May(s, events[0]) && Possible(Move(s, events[0]), events[1..]))
  }

  function After(s: System, events: seq<Event>): System
    requires Possible(s, events)
    decreases events
  {
    if events == [] then s else After(Move(s, events[0]), events[1..])
  }

  function Start(k: Key, w: World): System {
    System(k, NEW_GATE, w, Cache(false, None, 0), map[], map[])
  }

  lemma {:induction false} AfterCoherent(s: System, events: seq<Event>)
    requires Coherent(s) && Possible(s, events)
    ensures Coherent(After(s, events))
    decreases events
  {
    if events != [] {
      MoveCoherent(s, events[0]);
      AfterCoherent(Move(s, events[0]), events[1..]);
    }
  }

  /** A call past its begin. */
  predicate Begun(s: System, l: nat) {
    l in s.calls && !s.calls[l].Leased? && !s.calls[l].Read?
  }

  /** Whatever ran before, a call that has begun finds in the cache nothing, or
      exactly what a fresh probe would find: path or absence. */
  lemma {:induction false} CachedIsFresh(k: Key, w: World, events: seq<Event>, l: nat)
    requires Possible(Start(k, w), events) && Begun(After(Start(k, w), events), l)
    ensures var s := After(Start(k, w), events);
            Known(s.cache).Some? ==> Known(s.cache) == Some(Fresh(s.world))
  {
    AfterCoherent(Start(k, w), events);
    var s := After(Start(k, w), events);
    assert CallOK(s, l);
    if InstallRuns(s) {
      var p :| p in s.installs && s.installs[p] == Installing;
      InstallsAlone(s, p);
    }
  }

  /** A probe that ends successfully leaves the cache knowing the installation,
      whichever of the concurrent probes published first; one that fails
      leaves the cache as it was. */
  lemma {:induction false} ProbesPublish(k: Key, w: World, events: seq<Event>, e: Event)
    requires Possible(Start(k, w), events) && May(After(Start(k, w), events), e)
    ensures var s := After(Start(k, w), events);
      && (e.Publish? ==> Known(Move(s, e).cache) == Some(Fresh(s.world)))
      && (e.ProbeFailed? ==> Move(s, e).cache == s.cache)
  {
    var s := After(Start(k, w), events);
    AfterCoherent(Start(k, w), events);
    if e.Publish? {
      assert CallOK(s, e.call);
      if InstallRuns(s) {
        var p :| p in s.installs && s.installs[p] == Installing;
        InstallsAlone(s, p);
      }
    }
  }

  /** A call that begins holds a lease until it ends, and not any longer. */
  lemma {:induction false} CallHoldsLease(s: System, e: Event, l: nat)
    requires Coherent(s) && May(s, e) && (e == LeaseCall || e == EndCall(l))
    ensures var s' := Move(s, e);
      && (e == EndCall(l) ==> l !in s'.calls && !Active(s'.gate, l))
      && (e == LeaseCall && !SlotOf(s.gate, s.key).updating ==>
            In(s', |s.gate.leases|, Leased) && Active(s'.gate, |s.gate.leases|))
      && (e == LeaseCall && SlotOf(s.gate, s.key).updating ==> s'.calls == s.calls)
  {
    if e == EndCall(l) {
      assert CallOK(s, l);
      OutstandingOne(s.gate.leases, l);
    }
  }

  /** A call that finds nothing known can find out: its lookup, its probe's two
      commands and its publishing leave the cache knowing what is installed. */
  lemma {:induction false} FindsOut(s: System, l: nat)
    requires Coherent(s) && In(s, l, Ready) && Known(s.cache).None?
    ensures var events := [LookUp(l), Resolve(l), Presence(l), Publish(l)];
      && Possible(s, events)
      && Known(After(s, events).cache) == Some(Fresh(s.world))
      && After(s, events) == s.(cache := After(s, events).cache)
  {
    var s1 := Move(s, LookUp(l));
    var s2 := Move(s1, Resolve(l));
    var s3 := Move(s2, Presence(l));
    var s4 := Move(s3, Publish(l));
    FourMoves(s, LookUp(l), Resolve(l), Presence(l), Publish(l));
    assert s4.calls == s.calls;
  }

  lemma {:induction false} OneMoreMove(s: System, e: Event, events: seq<Event>)
    requires May(s, e) && Possible(Move(s, e), events)
    ensures Possible(s, [e] + events) && After(s, [e] + events) == After(Move(s, e), events)
  {
    assert ([e] + events)[1..] == events;
  }

  lemma {:induction false} FourMoves(s: System, a: Event, b: Event, c: Event, d: Event)
    requires May(s, a) && May(Move(s, a), b) && May(Move(Move(s, a), b), c)
    requires May(Move(Move(Move(s, a), b), c), d)
    ensures Possible(s, [a, b, c, d]) && After(s, [a, b, c, d]) == Move(Move(Move(Move(s, a), b), c), d)
  {
    OneMoreMove(Move(Move(Move(s, a), b), c), d, []);
    OneMoreMove(Move(Move(s, a), b), c, [d]);
    OneMoreMove(Move(s, a), b, [c, d]);
    OneMoreMove(s, a, [b, c, d]);
    assert [a] + [b, c, d] == [a, b, c, d] && [b] + [c, d] == [b, c, d] && [c] + [d] == [c, d] && [d] + [] == [d];
  }

  /** The cache knows this of the current revision. */
  ghost predicate Remembers(s: System, known: Option<string>) {
    s.cache.seen == RevisionOf(s) && Known(s.cache) == Some(known)
  }

  predicate Probes(s: System, l: nat) {
    l in s.calls && s.calls[l].Probing?
  }

  lemma {:induction false} MoveRemembers(s: System, e: Event, known: Option<string>)
    requires Coherent(s) && May(s, e) && Remembers(s, known) && !e.EndInstall?
    ensures Remembers(Move(s, e), known) && forall l :: Probes(Move(s, e), l) ==> Probes(s, l)
  {
    match e
    case OnGate(step) => GateStepKeeps(s, step);
    case LeaseCall => GateStepKeeps(s, DoBegin(s.key));
    case SyncCache(l) => assert CallOK(s, l);
    case _ =>
  }

  /** What is known stays known, and no call probes again, until an installer
      invalidates it. */
  lemma {:induction false} RemembersUntilInstalled(s: System, events: seq<Event>, known: Option<string>)
    requires Coherent(s) && Possible(s, events) && Remembers(s, known)
    requires forall i :: 0 <= i < |events| ==> !events[i].EndInstall?
    ensures Remembers(After(s, events), known) && forall l :: Probes(After(s, events), l) ==> Probes(s, l)
    decreases events
  {
    if events != [] {
      MoveRemembers(s, events[0], known);
      MoveCoherent(s, events[0]);
      RemembersUntilInstalled(Move(s, events[0]), events[1..], known);
    }
  }

  /** A call's world stands still: nothing is installed while one is leased. */
  lemma {:induction false} LeasedWorldIsStill(k: Key, w: World, events: seq<Event>, e: Event)
    requires Possible(Start(k, w), events) && May(After(Start(k, w), events), e)
    requires After(Start(k, w), events).calls != map[]
    ensures Move(After(Start(k, w), events), e).world == After(Start(k, w), events).world
    ensures !e.EndInstall?
  {
    var s := After(Start(k, w), events);
    AfterCoherent(Start(k, w), events);
    if e.ChangeWorld? || e.EndInstall? { InstallsAlone(s, e.pause); }
  }

  // ------------------------------------------------------------ the client

  class Client {
    var absent: bool
    var resolvedPath: Option<string>
    var seenRevision: nat

    ghost function Held(): Cache
      reads this
    {
      Cache(absent, resolvedPath, seenRevision)
    }

    constructor ()
      ensures Held() == Cache(false, None, 0)
    {
      absent, resolvedPath, seenRevision := false, None, 0;
    }

    /** The lease, or None when the tool is updating; a refused call leaves the
        cache alone. */
    method BeginUse(gate: CallGate, k: Key) returns (lease: Option<nat>)
      modifies this, gate
      ensures gate.leases == Begin(old(gate.View()), k).leases
      ensures gate.pauses == old(gate.pauses)
      ensures forall j :: SlotOf(gate.View(), j) == SlotOf(Begin(old(gate.View()), k), j)
      ensures lease == if SlotOf(old(gate.View()), k).updating then None else Some(|old(gate.leases)|)
      ensures Held() == if lease.Some? then Synced(old(Held()), SlotOf(gate.View(), k).revision) else old(Held())
    {
      lease := gate.BeginCall(k);
      if lease.None? { return; }
      var revision := gate.Revision(k);
      if seenRevision != revision {
        absent, resolvedPath := false, None;
        seenRevision := revision;
      }
    }

    /** A remembered absence is Some(None). */
    method CachedClient() returns (found: Option<Option<string>>)
      ensures found == Known(Held())
    {
      if absent { return Some(None); }
      if resolvedPath.None? { return None; }
      return Some(resolvedPath);
    }

    method FinishProbe(path: string, present: bool) returns (found: Option<string>)
      modifies this
      ensures Held() == Published(old(Held()), path, present)
      ensures Known(Held()) == Some(found)
    {
      var known := CachedClient();
      if known.Some? { return known.value; }
      if !present {
        absent := true;
        return None;
      }
      resolvedPath := Some(path);
      return Some(path);
    }

    /** `resolved` and `present` are the two remote commands' answers, None for
        a failure. The error leaves the cache as it was. */
    method FindClient(resolved: Option<string>, present: Option<bool>) returns (failed: bool, found: Option<string>)
      modifies this
      ensures failed <==> Known(old(Held())).None? && (resolved.None? || present.None?)
      ensures failed ==> Held() == old(Held())
      ensures !failed ==> Known(Held()) == Some(found)
      ensures Known(old(Held())).Some? ==> Held() == old(Held())
      ensures Known(old(Held())).None? && !failed ==> found == Fresh(World(resolved.value, present.value))
    {
      var known := CachedClient();
      if known.Some? { return false, known.value; }
      if resolved.None? { return true, None; }
      if present.None? { return true, None; }
      found := FinishProbe(resolved.value, present.value);
      failed := false;
    }
  }

  // --------------------------------------------------------- the installer

  datatype Attempt = Refused | NotEligible | Blocked | Ran

  predicate HasLeases(g: Gate, leases: seq<nat>) {
    forall i :: 0 <= i < |leases| ==> leases[i] < |g.leases|
  }

  /** Callers release these leases, one after the other. */
  function ReleaseAll(g: Gate, leases: seq<nat>): (r: Gate)
    requires HasLeases(g, leases)
    ensures |r.leases| == |g.leases| && r.pauses == g.pauses
    decreases leases
  {
    if leases == [] then g else ReleaseAll(Release(g, leases[0]), leases[1..])
  }

  lemma {:induction false} ReleaseAllInv(g: Gate, leases: seq<nat>)
    requires Inv(g) && HasLeases(g, leases)
    ensures Inv(ReleaseAll(g, leases))
    decreases leases
  {
    if leases != [] {
      StepInv(g, DoRelease(leases[0]));
      ReleaseAllInv(Release(g, leases[0]), leases[1..]);
    }
  }

  /** The gates differ in the announcement of an update of k alone. */
  ghost predicate Announced(g: Gate, g': Gate, k: Key) {
    && g'.leases == g.leases && g'.closed == g.closed && !SlotOf(g, k).updating
    && forall j :: SlotOf(g', j) == (if j == k then SlotOf(g, j).(updating := true) else SlotOf(g, j))
  }

  /** Releases do not mind announcements. */
  lemma {:induction false} ReleasesAnnounced(g: Gate, g': Gate, k: Key, leases: seq<nat>)
    requires Announced(g, g', k) && HasLeases(g, leases)
    ensures Announced(ReleaseAll(g, leases), ReleaseAll(g', leases), k)
    decreases leases
  {
    if leases != [] {
      ReleaseAnnounced(g, g', k, leases[0]);
      ReleasesAnnounced(Release(g, leases[0]), Release(g', leases[0]), k, leases[1..]);
    }
  }

  lemma {:induction false} ReleaseAnnounced(g: Gate, g': Gate, k: Key, l: nat)
    requires Announced(g, g', k) && l < |g.leases|
    ensures Announced(Release(g, l), Release(g', l), k)
  {
    var c := g.leases[l].key;
    assert SlotOf(g', c) == (if c == k then SlotOf(g, c).(updating := true) else SlotOf(g, c));
    forall j ensures SlotOf(Release(g', l), j)
        == (if j == k then SlotOf(Release(g, l), j).(updating := true) else SlotOf(Release(g, l), j))
    {
      assert SlotOf(g', j) == (if j == k then SlotOf(g, j).(updating := true) else SlotOf(g, j));
    }
  }

  /** The gate once the wait for running calls is over: meanwhile, and only if
      there is something to wait for, callers released these leases. */
  function Waited(g: Gate, k: Key, released: seq<nat>): Gate
    requires HasLeases(g, released)
  {
    if SlotOf(g, k).updating || SlotOf(g, k).active == 0 then g else ReleaseAll(g, released)
  }

  /** Announces the update and waits for the calls it found; a wait that is
      given up lifts the announcement again. */
  method PauseCalls(gate: CallGate, k: Key, released: seq<nat>) returns (pause: Option<nat>)
    requires Inv(gate.View()) && HasLeases(gate.View(), released)
    modifies gate
    ensures Inv(gate.View())
    ensures pause.Some? <==>
      && !SlotOf(old(gate.View()), k).updating
      && SlotOf(Waited(old(gate.View()), k, released), k).active == 0
    ensures pause.Some? ==> Holding(gate.View(), pause.value) && gate.pauses[pause.value].key == k
    ensures pause.Some? ==> Announced(Waited(old(gate.View()), k, released), gate.View(), k)
    ensures pause.None? ==>
      && gate.leases == Waited(old(gate.View()), k, released).leases
      && forall j :: SlotOf(gate.View(), j) == SlotOf(Waited(old(gate.View()), k, released), j)
  {
    assert IdleOK(gate.View(), k);
    StepInv(gate.View(), DoAnnounce(k));
    pause := gate.AnnouncePause(k);
    if pause.None? { return; }
    if !gate.pauses[pause.value].phase.Draining? { return; }
    ReleasesAnnounced(old(gate.View()), gate.View(), k, released);
    ReleaseThem(gate, released);
    var drained := AwaitIdle(gate, k, pause.value);
    if !drained { pause := None; }
  }

  /** The wait's end: it drained, or is given up. */
  method AwaitIdle(gate: CallGate, k: Key, p: nat) returns (drained: bool)
    requires Inv(gate.View()) && Pausing(gate.View(), p, k) && gate.pauses[p].phase.Draining?
    modifies gate
    ensures Inv(gate.View()) && gate.leases == old(gate.leases) && gate.closed == old(gate.closed)
    ensures drained <==> SlotOf(old(gate.View()), k).active == 0
    ensures drained ==> gate.slots == old(gate.slots) && Holding(gate.View(), p) && gate.pauses[p].key == k
    ensures !drained ==> forall j ::
      SlotOf(gate.View(), j) ==
        (if j == k then SlotOf(old(gate.View()), j).(updating := false) else SlotOf(old(gate.View()), j))
  {
    assert IdleOK(gate.View(), k);
    drained := gate.closed[gate.pauses[p].phase.idle];
    StepInv(gate.View(), if drained then Drained(p) else Cancelled(p));
    gate.EndWait(p, !drained);
  }

  method ReleaseThem(gate: CallGate, leases: seq<nat>)
    requires Inv(gate.View()) && HasLeases(gate.View(), leases)
    modifies gate
    ensures Inv(gate.View()) && gate.View() == ReleaseAll(old(gate.View()), leases)
  {
    ghost var target := ReleaseAll(gate.View(), leases);
    assert leases[0..] == leases;
    for i := 0 to |leases|
      invariant Inv(gate.View()) && |gate.leases| == |old(gate.leases)|
      invariant ReleaseAll(gate.View(), leases[i..]) == target
    {
      assert leases[i..][1..] == leases[i + 1..];
      StepInv(gate.View(), DoRelease(leases[i]));
      gate.ReleaseCall(leases[i]);
    }
  }

  /** One attempt to install. While it waits for running calls, callers release
      the leases `released`; if that does not drain the tool the wait is given
      up. `eligible` is the check's verdict, if there is one, before and after
      the prerequisites. The pause is lifted on every path, and before that the
      revision grows exactly if the installer ran. */
  method InstallWhen(gate: CallGate, k: Key, released: seq<nat>, eligible: Option<(bool, bool)>, prerequisites: bool)
    returns (outcome: Attempt)
    requires Inv(gate.View()) && HasLeases(gate.View(), released)
    modifies gate
    ensures Inv(gate.View())
    ensures outcome == Refused <==>
      SlotOf(old(gate.View()), k).updating || SlotOf(Waited(old(gate.View()), k, released), k).active > 0
    ensures outcome == Ran <==>
      outcome != Refused && prerequisites && (eligible.Some? ==> eligible.value.0 && eligible.value.1)
    ensures SlotOf(gate.View(), k) ==
      var s := SlotOf(Waited(old(gate.View()), k, released), k);
      if outcome == Ran then s.(revision := s.revision + 1) else s
    ensures gate.leases == Waited(old(gate.View()), k, released).leases
    ensures forall j :: j != k ==> SlotOf(gate.View(), j) == SlotOf(Waited(old(gate.View()), k, released), j)
  {
    var pause := PauseCalls(gate, k, released);
    if pause.None? { return Refused; }
    if eligible.Some? && !eligible.value.0 {
      outcome := NotEligible;
    } else if !prerequisites {
      outcome := Blocked;
    } else if eligible.Some? && !eligible.value.1 {
      outcome := NotEligible;
    } else {
      StepInv(gate.View(), DoInvalidate(k));
      gate.InvalidateTool(k);
      outcome := Ran;
    }
    StepInv(gate.View(), Resume(pause.value));
    gate.LiftPause(pause.value);
  }
}
