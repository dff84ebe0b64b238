/** Board attaches. */
module Attach {
  // At most one attach per task, found by task and by session,
  // destroyed after a grace period in which no subscriber read them; host
  // terminals live in the same registry under keys of their own.
  //
  // Attaches, timers and requests are numbered as they are made. One step is
  // one lock scope, one call on the session manager, or a timer's callback,
  // which may run at any time once armed, stopped or not. `hostKey` starts the
  // key of every host terminal.

  import opened Text

  /** `heard` is the last subscriber count heard while registered; `added` once
      the session manager has the session; `missed` if the session was removed
      before it was added. */
  datatype Attach = Attach(
    task: string, session: string, host: bool, timer: Option<nat>, generation: nat, heard: Option<nat>,
    added: bool, missed: bool)

  datatype Timer = Timer(attach: nat, generation: nat)

  datatype Phase =
    | Asking
    | Waiting(on: nat)
    | Creating
    | Adding(attach: nat)
    | Releasing
    | Served(session: string)
    | GaveUp
    | Done

  /** `host` requests open a terminal and reserve nothing. */
  datatype Request = Request(task: string, host: bool, phase: Phase)

  datatype Registry = Registry(
    attaches: seq<Attach>, byTask: map<string, nat>, bySession: map<string, nat>, creating: map<string, nat>,
    timers: seq<Timer>, requests: seq<Request>, sessions: set<string>, exited: set<string>, removing: set<string>,
    closed: bool, hostKey: string)

  predicate Registered(s: Registry, a: nat) {
    a < |s.attaches| && s.attaches[a].session in s.bySession && s.bySession[s.attaches[a].session] == a
  }

  predicate Live(s: Registry, session: string) {
    session in s.sessions && session !in s.exited
  }

  function WithAttach(s: Registry, a: nat, x: Attach): Registry
    requires a < |s.attaches|
  {
    s.(attaches := s.attaches[a := x])
  }

  function InPhase(s: Registry, r: nat, phase: Phase): Registry
    requires r < |s.requests|
  {
    s.(requests := s.requests[r := s.requests[r].(phase := phase)])
  }

  // ----------------------------------------------------------------- steps

  function Arm(s: Registry, a: nat): Registry
    requires a < |s.attaches|
  {
    var x := s.attaches[a];
    WithAttach(s, a, x.(generation := x.generation + 1, timer := Some(|s.timers|)))
    .(timers := s.timers + [Timer(a, x.generation + 1)])
  }

  /** The attach leaves the registry; its session is to be removed. */
  function Forget(s: Registry, a: nat): Registry
    requires a < |s.attaches|
  {
    var x := s.attaches[a];
    WithAttach(s, a, x.(timer := None))
    .(byTask := s.byTask - {x.task}, bySession := s.bySession - {x.session}, removing := s.removing + {x.session})
  }

  /** The task's own attach, if it has one: a host terminal counts as absent. */
  function TaskAttach(s: Registry, task: string): Option<nat> {
    if task in s.byTask && s.byTask[task] < |s.attaches| && !s.attaches[s.byTask[task]].host
    then Some(s.byTask[task]) else None
  }

  /** One round of a request: it is served, forgets a dead attach, waits for
      another creation, or reserves its own. */
  function Ask(s: Registry, r: nat): Registry
    requires r < |s.requests|
  {
    var task := s.requests[r].task;
    var found := TaskAttach(s, task);
    if found.Some? then
      if Live(s, s.attaches[found.value].session) then InPhase(s, r, Served(s.attaches[found.value].session))
      else Forget(s, found.value)
    else if task in s.creating then InPhase(s, r, Waiting(s.creating[task]))
    else InPhase(s, r, Creating).(creating := s.creating[task := r])
  }

  function Register(s: Registry, r: nat, session: string): Registry
    requires r < |s.requests|
  {
    var a := |s.attaches|;
    var req := s.requests[r];
    var task := if req.host then s.hostKey + session else req.task;
    var s1 := s.(attaches := s.attaches + [Attach(task, session, req.host, None, 0, None, false, false)],
                 byTask := s.byTask[task := a], bySession := s.bySession[session := a]);
    InPhase(Arm(s1, a), r, Adding(a))
  }

  function AddSession(s: Registry, r: nat): Registry
    requires r < |s.requests| && s.requests[r].phase.Adding? && s.requests[r].phase.attach < |s.attaches|
  {
    var a := s.requests[r].phase.attach;
    InPhase(WithAttach(s, a, s.attaches[a].(added := true)), r, Releasing)
    .(sessions := s.sessions + {s.attaches[a].session})
  }

  function Release(s: Registry, r: nat): Registry
    requires r < |s.requests|
  {
    var s1 := InPhase(s, r, Done);
    if s.requests[r].host then s1 else s1.(creating := s.creating - {s.requests[r].task})
  }

  /** An attach that heard a count: a reader stops its timer for good. */
  function Heard(x: Attach, n: nat): Attach {
    if n > 0 && x.timer.Some? then x.(heard := Some(n), timer := None, generation := x.generation + 1)
    else x.(heard := Some(n))
  }

  /** The watcher hears a subscriber count. */
  function Hear(s: Registry, a: nat, n: nat): Registry
    requires a < |s.attaches|
  {
    if !Registered(s, a) then s
    else if n == 0 && s.attaches[a].timer.None? then Arm(WithAttach(s, a, s.attaches[a].(heard := Some(0))), a)
    else WithAttach(s, a, Heard(s.attaches[a], n))
  }

  predicate Counts(s: Registry, t: nat)
    requires t < |s.timers|
  {
    var a := s.timers[t].attach;
    Registered(s, a) && s.attaches[a].generation == s.timers[t].generation
  }

  /** A timer's callback: one that no longer counts does nothing. */
  function Fire(s: Registry, t: nat): Registry
    requires t < |s.timers|
  {
    if Counts(s, t) then Forget(s, s.timers[t].attach) else s
  }

  function Delete(s: Registry, session: string, host: bool): Registry {
    if session !in s.bySession || s.bySession[session] >= |s.attaches|
       || s.attaches[s.bySession[session]].host != host then s
    else Forget(s, s.bySession[session])
  }

  /** The manager removes the session, if it has it already. */
  function RemoveSession(s: Registry, session: string): Registry {
    if session in s.sessions then s.(sessions := s.sessions - {session}, removing := s.removing - {session})
    else
      s.(removing := s.removing - {session},
         attaches := seq(|s.attaches|, i requires 0 <= i < |s.attaches| =>
           if s.attaches[i].session == session && !s.attaches[i].added then s.attaches[i].(missed := true)
           else s.attaches[i]))
  }

  function CloseAll(s: Registry): Registry {
    s.(byTask := map[], bySession := map[], closed := true,
       attaches := seq(|s.attaches|, i requires 0 <= i < |s.attaches| =>
         if Registered(s, i) then s.attaches[i].(timer := None) else s.attaches[i]))
  }

  datatype Step =
    | Arrive(task: string, host: bool)
    | DoAsk(request: nat)
    | WaitEnds(request: nat)
    | GiveUp(request: nat)
    | CreateFails(request: nat)
    | DoRegister(request: nat, session: string)
    | DoAddSession(request: nat)
    | DoRelease(request: nat)
    | DoHear(attach: nat, count: nat)
    | DoFire(timer: nat)
    | DoDelete(session: string, host: bool)
    | DoRemoveSession(session: string)
    | SessionExits(session: string)
    | DoCloseAll

  predicate At(s: Registry, r: nat, phase: Phase) {
    r < |s.requests| && s.requests[r].phase == phase
  }

  /** A token nobody has seen yet. */
  predicate Minted(s: Registry, session: string) {
    session !in s.sessions && session !in s.removing && session !in s.bySession
    && forall a: nat :: a < |s.attaches| ==> s.attaches[a].session != session
  }

  /** A task's creation goes through only for a task that exists, and no task's
      ID starts with the host terminals' key. */
  predicate Enabled(s: Registry, step: Step) {
    match step
    case DoAsk(r) => At(s, r, Asking) && !s.requests[r].host
    case WaitEnds(r) =>
      r < |s.requests| && s.requests[r].phase.Waiting? && At(s, s.requests[r].phase.on, Done)
    case GiveUp(r) => r < |s.requests| && s.requests[r].phase.Waiting?
    case CreateFails(r) => At(s, r, Creating)
    case DoRegister(r, session) =>
      At(s, r, Creating) && Minted(s, session) && (!s.requests[r].host ==> !(s.hostKey <= s.requests[r].task))
    case DoAddSession(r) => r < |s.requests| && s.requests[r].phase.Adding? && s.requests[r].phase.attach < |s.attaches|
    case DoRelease(r) => At(s, r, Releasing)
    case DoHear(a, _) => a < |s.attaches|
    case DoFire(t) => t < |s.timers|
    case DoRemoveSession(session) => session in s.removing
    case SessionExits(session) => session in s.sessions
    case _ => true
  }

  function Next(s: Registry, step: Step): Registry
    requires Enabled(s, step)
  {
    match step
    case Arrive(task, host) => s.(requests := s.requests + [Request(task, host, if host then Creating else Asking)])
    case DoAsk(r) => Ask(s, r)
    case WaitEnds(r) => InPhase(s, r, Asking)
    case GiveUp(r) => InPhase(s, r, GaveUp)
    case CreateFails(r) => InPhase(s, r, Releasing)
    case DoRegister(r, session) => Register(s, r, session)
    case DoAddSession(r) => AddSession(s, r)
    case DoRelease(r) => Release(s, r)
    case DoHear(a, n) => Hear(s, a, n)
    case DoFire(t) => Fire(s, t)
    case DoDelete(session, host) => Delete(s, session, host)
    case DoRemoveSession(session) => RemoveSession(s, session)
    case SessionExits(session) => s.(exited := s.exited + {session})
    case DoCloseAll => CloseAll(s)
  }

  // ------------------------------------------------------------- invariant

  predicate TaskEntryOK(s: Registry, t: string) {
    t in s.byTask ==> Registered(s, s.byTask[t]) && s.attaches[s.byTask[t]].task == t
  }

  predicate SessionEntryOK(s: Registry, x: string) {
    x in s.bySession ==>
      var a := s.bySession[x];
      && a < |s.attaches| && s.attaches[a].session == x
      && s.attaches[a].task in s.byTask && s.byTask[s.attaches[a].task] == a
  }

  predicate KeyOK(s: Registry, a: nat)
    requires a < |s.attaches|
  {
    var x := s.attaches[a];
    && (x.host <==> s.hostKey <= x.task)
    && (x.host ==> x.task == s.hostKey + x.session)
  }

  predicate SameSession(s: Registry, a: nat, b: nat)
    requires a < |s.attaches| && b < |s.attaches|
  {
    s.attaches[a].session == s.attaches[b].session
  }

  /** The two maps are inverse, over attaches with different sessions. */
  ghost predicate Inverse(s: Registry) {
    && (forall t :: TaskEntryOK(s, t))
    && (forall x :: SessionEntryOK(s, x))
    && (forall a: nat :: a < |s.attaches| ==> KeyOK(s, a))
    && (forall a: nat, b: nat :: a < |s.attaches| && b < |s.attaches| && SameSession(s, a, b) ==> a == b)
  }

  /** The registry as its maps see it. */
  ghost predicate SameShape(s: Registry, s': Registry) {
    && s'.byTask == s.byTask && s'.bySession == s.bySession && s'.hostKey == s.hostKey
    && |s'.attaches| == |s.attaches|
    && forall a: nat :: a < |s.attaches| ==>
         && s'.attaches[a].task == s.attaches[a].task && s'.attaches[a].session == s.attaches[a].session
         && s'.attaches[a].host == s.attaches[a].host
  }

  lemma {:induction false} ShapeKeeps(s: Registry, s': Registry)
    requires SameShape(s, s')
    ensures Inverse(s) ==> Inverse(s')
    ensures forall a: nat :: Registered(s', a) <==> Registered(s, a)
    ensures forall t :: TaskAttach(s', t) == TaskAttach(s, t)
  {
    assert forall a: nat :: Registered(s', a) <==> Registered(s, a);
    if Inverse(s) {
      forall t ensures TaskEntryOK(s', t) { assert TaskEntryOK(s, t); }
      forall x ensures SessionEntryOK(s', x) { assert SessionEntryOK(s, x); }
      forall a: nat | a < |s'.attaches| ensures KeyOK(s', a) { assert KeyOK(s, a); }
      forall a: nat, b: nat | a < |s'.attaches| && b < |s'.attaches| && SameSession(s', a, b) ensures a == b {
        assert SameSession(s, a, b);
      }
    }
  }

  predicate NeverRead(x: Attach) {
    x.heard.None? || x.heard.value == 0
  }

  /** The timer a registered attach holds is its only one that counts, and it
      holds one exactly while it was never read or last heard of no reader. */
  predicate TimerOK(s: Registry, a: nat)
    requires a < |s.attaches|
  {
    var x := s.attaches[a];
    && (x.timer.Some? <==> Registered(s, a) && NeverRead(x))
    && (x.timer.Some? ==> x.timer.value < |s.timers| && s.timers[x.timer.value] == Timer(a, x.generation))
  }

  predicate CallbackOK(s: Registry, t: nat)
    requires t < |s.timers|
  {
    var a := s.timers[t].attach;
    && a < |s.attaches| && s.timers[t].generation <= s.attaches[a].generation
    && (Counts(s, t) ==> s.attaches[a].timer == Some(t))
  }

  ghost predicate Timed(s: Registry) {
    && (forall a: nat :: a < |s.attaches| ==> TimerOK(s, a))
    && (forall t: nat :: t < |s.timers| ==> CallbackOK(s, t))
  }

  predicate Reserving(s: Registry, r: nat) {
    r < |s.requests| && !s.requests[r].host
    && (s.requests[r].phase.Creating? || s.requests[r].phase.Adding? || s.requests[r].phase.Releasing?)
  }

  /** A task under creation is reserved by exactly one request, and until that
      registers the task has no attach. */
  ghost predicate Reserved(s: Registry) {
    && (forall t :: t in s.creating ==> Reserving(s, s.creating[t]) && s.requests[s.creating[t]].task == t)
    && (forall r: nat :: Reserving(s, r) ==> s.requests[r].task in s.creating && s.creating[s.requests[r].task] == r)
    && (forall r: nat :: Reserving(s, r) && s.requests[r].phase.Creating? ==> TaskAttach(s, s.requests[r].task).None?)
  }

  predicate AddingThis(s: Registry, r: nat, a: nat) {
    r < |s.requests| && s.requests[r].phase == Adding(a)
  }

  /** Where the attach's session is. */
  predicate SessionOK(s: Registry, a: nat)
    requires a < |s.attaches|
  {
    var x := s.attaches[a];
    && (!x.added ==> x.session !in s.sessions)
    && (Registered(s, a) ==> !x.missed && x.session !in s.removing && (x.added ==> x.session in s.sessions))
    && (!Registered(s, a) && !s.closed ==> x.session in s.removing || x.missed || (x.added && x.session !in s.sessions))
    && (x.missed ==> x.session !in s.removing && (x.added ==> x.session in s.sessions))
  }

  ghost predicate Placed(s: Registry) {
    && (forall a: nat :: a < |s.attaches| ==> SessionOK(s, a))
    && (forall r: nat, a: nat :: AddingThis(s, r, a) ==> a < |s.attaches| && !s.attaches[a].added)
    && (forall r: nat, r': nat, a: nat :: AddingThis(s, r, a) && AddingThis(s, r', a) ==> r == r')
  }

  ghost predicate Inv(s: Registry) {
    Inverse(s) && Timed(s) && Reserved(s) && Placed(s)
  }

  // ------------------------------------------------- the parts that move

  /** Forgetting an attach takes it, and no other, out of both maps. */
  lemma {:induction false} ForgetLeaves(s: Registry, a: nat)
    requires Inverse(s) && Registered(s, a)
    ensures forall b: nat :: Registered(Forget(s, a), b) <==> Registered(s, b) && b != a
    ensures forall t: string ::
      TaskAttach(Forget(s, a), t) == if t == s.attaches[a].task then None else TaskAttach(s, t)
  {
    var s' := Forget(s, a);
    forall b: nat ensures Registered(s', b) <==> Registered(s, b) && b != a {
      if b < |s.attaches| && SameSession(s, a, b) { assert a == b; }
    }
    assert SessionEntryOK(s, s.attaches[a].session);
    forall t: string ensures TaskAttach(s', t) == if t == s.attaches[a].task then None else TaskAttach(s, t) {
      assert TaskEntryOK(s, t);
    }
  }

  lemma {:induction false} ForgetInverse(s: Registry, a: nat)
    requires Inverse(s) && Registered(s, a)
    ensures Inverse(Forget(s, a))
  {
    var s' := Forget(s, a);
    ForgetLeaves(s, a);
    assert SessionEntryOK(s, s.attaches[a].session);
    forall t ensures TaskEntryOK(s', t) { assert TaskEntryOK(s, t); }
    forall x ensures SessionEntryOK(s', x) {
      assert SessionEntryOK(s, x);
    }
    forall b: nat | b < |s'.attaches| ensures KeyOK(s', b) { assert KeyOK(s, b); }
    forall b: nat, c: nat | b < |s'.attaches| && c < |s'.attaches| && SameSession(s', b, c) ensures b == c {
      assert SameSession(s, b, c);
    }
  }

  lemma {:induction false} ForgetTimed(s: Registry, a: nat)
    requires Inverse(s) && Timed(s) && Registered(s, a)
    ensures Timed(Forget(s, a))
  {
    var s' := Forget(s, a);
    ForgetLeaves(s, a);
    forall b: nat | b < |s'.attaches| ensures TimerOK(s', b) { assert TimerOK(s, b); }
    forall t: nat | t < |s'.timers| ensures CallbackOK(s', t) { assert CallbackOK(s, t); }
  }

  lemma {:induction false} ForgetPlaced(s: Registry, a: nat)
    requires Inverse(s) && Placed(s) && Registered(s, a)
    ensures Placed(Forget(s, a))
  {
    var s' := Forget(s, a);
    ForgetLeaves(s, a);
    forall b: nat | b < |s'.attaches| ensures SessionOK(s', b) {
      assert SessionOK(s, b);
      if SameSession(s, a, b) { assert a == b; }
    }
    assert forall r: nat, b: nat :: AddingThis(s', r, b) <==> AddingThis(s, r, b);
  }

  lemma {:induction false} ForgetInv(s: Registry, a: nat)
    requires Inv(s) && Registered(s, a)
    ensures Inv(Forget(s, a))
  {
    ForgetInverse(s, a);
    ForgetTimed(s, a);
    ForgetPlaced(s, a);
    ForgetLeaves(s, a);
    ReservedStays(s, Forget(s, a));
  }

  /** Reservations depend on the requests and on the tasks' attaches. */
  lemma {:induction false} ReservedStays(s: Registry, s': Registry)
    requires Reserved(s) && s'.creating == s.creating && s'.requests == s.requests
    requires forall t :: TaskAttach(s, t).None? ==> TaskAttach(s', t).None?
    ensures Reserved(s')
  {
    assert forall r: nat :: Reserving(s', r) <==> Reserving(s, r);
  }

  /** What timers say depends on the attaches' timers and generations. */
  lemma {:induction false} TimedStays(s: Registry, s': Registry)
    requires Timed(s) && SameShape(s, s') && s'.timers == s.timers
    requires forall a: nat :: a < |s.attaches| ==>
      && s'.attaches[a].timer == s.attaches[a].timer && s'.attaches[a].generation == s.attaches[a].generation
      && s'.attaches[a].heard == s.attaches[a].heard
    ensures Timed(s')
  {
    ShapeKeeps(s, s');
    forall a: nat | a < |s'.attaches| ensures TimerOK(s', a) { assert TimerOK(s, a); }
    forall t: nat | t < |s'.timers| ensures CallbackOK(s', t) { assert CallbackOK(s, t); }
  }

  lemma {:induction false} PlacedStays(s: Registry, s': Registry)
    requires Placed(s) && SameShape(s, s')
    requires s'.sessions == s.sessions && s'.removing == s.removing && s'.closed == s.closed
    requires forall a: nat :: a < |s.attaches| ==>
      s'.attaches[a].added == s.attaches[a].added && s'.attaches[a].missed == s.attaches[a].missed
    requires forall r: nat, a: nat :: AddingThis(s', r, a) ==> AddingThis(s, r, a)
    ensures Placed(s')
  {
    ShapeKeeps(s, s');
    forall a: nat | a < |s'.attaches| ensures SessionOK(s', a) { assert SessionOK(s, a); }
  }

  /** A step that leaves registry, timers and sessions alone. */
  lemma {:induction false} RequestInv(s: Registry, s': Registry)
    requires Inv(s) && s' == s.(requests := s'.requests, creating := s'.creating, exited := s'.exited) && Reserved(s')
    requires forall r: nat, a: nat :: AddingThis(s', r, a) ==> AddingThis(s, r, a)
    ensures Inv(s')
  {
    ShapeKeeps(s, s');
    TimedStays(s, s');
    PlacedStays(s, s');
  }

  lemma {:induction false} AskInv(s: Registry, r: nat)
    requires Inv(s) && Enabled(s, DoAsk(r))
    ensures Inv(Ask(s, r))
  {
    var task := s.requests[r].task;
    var found := TaskAttach(s, task);
    if found.Some? && !Live(s, s.attaches[found.value].session) {
      assert TaskEntryOK(s, task);
      ForgetInv(s, found.value);
    } else {
      AskOnInv(s, r);
    }
  }

  lemma {:induction false} AskOnInv(s: Registry, r: nat)
    requires Inv(s) && Enabled(s, DoAsk(r))
    requires var found := TaskAttach(s, s.requests[r].task); found.Some? ==> Live(s, s.attaches[found.value].session)
    ensures Inv(Ask(s, r))
  {
    ShapeKeeps(s, Ask(s, r));
    AskReserves(s, r);
    RequestInv(s, Ask(s, r));
  }

  /** A task without an attach or a creation is reserved. */
  lemma {:induction false} NewReservation(s: Registry, r: nat)
    requires Reserved(s) && At(s, r, Asking) && !s.requests[r].host
    requires s.requests[r].task !in s.creating && TaskAttach(s, s.requests[r].task).None?
    ensures Reserved(InPhase(s, r, Creating).(creating := s.creating[s.requests[r].task := r]))
  {
    var s' := InPhase(s, r, Creating).(creating := s.creating[s.requests[r].task := r]);
    assert forall t :: TaskAttach(s', t) == TaskAttach(s, t);
    assert forall q: nat :: Reserving(s', q) <==> Reserving(s, q) || q == r;
  }

  lemma {:induction false} AsksOn(s: Registry, r: nat, phase: Phase)
    requires Reserved(s) && At(s, r, Asking) && (phase.Served? || phase.Waiting?)
    ensures Reserved(InPhase(s, r, phase))
  {
    var s' := InPhase(s, r, phase);
    assert forall t :: TaskAttach(s', t) == TaskAttach(s, t);
    assert forall q: nat :: Reserving(s', q) <==> Reserving(s, q);
  }

  lemma {:induction false} AskReserves(s: Registry, r: nat)
    requires Reserved(s) && Enabled(s, DoAsk(r))
    requires var found := TaskAttach(s, s.requests[r].task); found.Some? ==> Live(s, s.attaches[found.value].session)
    ensures Reserved(Ask(s, r))
  {
    var task := s.requests[r].task;
    var found := TaskAttach(s, task);
    if found.Some? {
      AsksOn(s, r, Served(s.attaches[found.value].session));
    } else if task in s.creating {
      AsksOn(s, r, Waiting(s.creating[task]));
    } else {
      NewReservation(s, r);
    }
  }

  /** Steps of a request among its own phases. */
  lemma {:induction false} ReleaseReserves(s: Registry, r: nat)
    requires Reserved(s) && At(s, r, Releasing)
    ensures Reserved(Release(s, r))
  {
    var s' := Release(s, r);
    assert forall t :: TaskAttach(s', t) == TaskAttach(s, t);
    assert s.requests[r].host || Reserving(s, r);
    assert forall q: nat :: Reserving(s', q) <==> Reserving(s, q) && q != r;
  }

  /** The reserving requests stay the same. */
  lemma {:induction false} PhaseReserves(s: Registry, step: Step)
    requires Reserved(s) && Enabled(s, step)
    requires step.Arrive? || step.WaitEnds? || step.GiveUp? || step.CreateFails?
    ensures Reserved(Next(s, step))
  {
    var s' := Next(s, step);
    assert forall t :: TaskAttach(s', t) == TaskAttach(s, t);
    assert forall q: nat :: Reserving(s', q) <==> Reserving(s, q);
  }

  lemma {:induction false} PhaseInv(s: Registry, step: Step)
    requires Inv(s) && Enabled(s, step)
    requires step.Arrive? || step.WaitEnds? || step.GiveUp? || step.CreateFails? || step.DoRelease?
    ensures Inv(Next(s, step))
  {
    if step.DoRelease? { ReleaseReserves(s, step.request); } else { PhaseReserves(s, step); }
    RequestInv(s, Next(s, step));
  }

  /** A fresh attach takes a free place: it overwrites none. */
  lemma {:induction false} PlaceIsFree(s: Registry, r: nat, session: string)
    requires Inv(s) && Enabled(s, DoRegister(r, session))
    ensures session !in s.bySession
    ensures (if s.requests[r].host then s.hostKey + session else s.requests[r].task) !in s.byTask
  {
    assert s.requests[r].host || Reserving(s, r);
    var task := if s.requests[r].host then s.hostKey + session else s.requests[r].task;
    assert TaskEntryOK(s, task);
    forall b: nat | b < |s.attaches|
      ensures KeyOK(s, b) && (s.attaches[b].host ==> s.attaches[b].task != s.hostKey + session)
    {
      Cancels(s.hostKey, s.attaches[b].session, session);
    }
  }

  lemma {:induction false} Cancels(p: string, x: string, y: string)
    ensures p + x == p + y ==> x == y
  {
    assert (p + x)[|p|..] == x && (p + y)[|p|..] == y;
  }

  /** The registry with a new attach, before its request moves on. */
  function WithNew(s: Registry, x: Attach): Registry {
    var a := |s.attaches|;
    s.(attaches := s.attaches + [x.(generation := 1, timer := Some(|s.timers|))],
       byTask := s.byTask[x.task := a], bySession := s.bySession[x.session := a], timers := s.timers + [Timer(a, 1)])
  }

  lemma {:induction false} NewJoins(s: Registry, x: Attach)
    requires Inverse(s) && Minted(s, x.session) && x.task !in s.byTask
    ensures forall b: nat :: Registered(WithNew(s, x), b) <==> Registered(s, b) || b == |s.attaches|
  {
    var s' := WithNew(s, x);
    assert forall b: nat :: b < |s.attaches| ==> s'.attaches[b] == s.attaches[b];
  }

  lemma {:induction false} NewInverse(s: Registry, x: Attach)
    requires Inverse(s) && Minted(s, x.session) && x.task !in s.byTask
    requires (x.host <==> s.hostKey <= x.task) && (x.host ==> x.task == s.hostKey + x.session)
    ensures Inverse(WithNew(s, x))
  {
    var s' := WithNew(s, x);
    NewJoins(s, x);
    assert forall b: nat :: b < |s.attaches| ==> s'.attaches[b] == s.attaches[b];
    forall t ensures TaskEntryOK(s', t) { assert TaskEntryOK(s, t); }
    forall y ensures SessionEntryOK(s', y) { assert SessionEntryOK(s, y); }
    forall b: nat | b < |s'.attaches| ensures KeyOK(s', b) { if b < |s.attaches| { assert KeyOK(s, b); } }
    forall b: nat, c: nat | b < |s'.attaches| && c < |s'.attaches| && SameSession(s', b, c) ensures b == c {
      if b < |s.attaches| && c < |s.attaches| { assert SameSession(s, b, c); }
    }
  }

  lemma {:induction false} NewTimed(s: Registry, x: Attach)
    requires Inverse(s) && Timed(s) && Minted(s, x.session) && x.task !in s.byTask && x.heard.None?
    ensures Timed(WithNew(s, x))
  {
    var s' := WithNew(s, x);
    NewJoins(s, x);
    forall b: nat | b < |s'.attaches| ensures TimerOK(s', b) { if b < |s.attaches| { assert TimerOK(s, b); } }
    forall t: nat | t < |s'.timers| ensures CallbackOK(s', t) { if t < |s.timers| { assert CallbackOK(s, t); } }
  }

  lemma {:induction false} NewPlaced(s: Registry, x: Attach, r: nat)
    requires Inverse(s) && Placed(s) && Minted(s, x.session) && x.task !in s.byTask && !x.added && !x.missed
    requires At(s, r, Creating)
    ensures Placed(InPhase(WithNew(s, x), r, Adding(|s.attaches|)))
  {
    var s' := InPhase(WithNew(s, x), r, Adding(|s.attaches|));
    NewJoins(s, x);
    assert forall b: nat :: Registered(s', b) <==> Registered(WithNew(s, x), b);
    forall b: nat | b < |s'.attaches| ensures SessionOK(s', b) { if b < |s.attaches| { assert SessionOK(s, b); } }
    assert forall q: nat, b: nat ::
        AddingThis(s', q, b) <==> (AddingThis(s, q, b) && q != r) || (q == r && b == |s.attaches|);
  }

  lemma {:induction false} RegisterInv(s: Registry, r: nat, session: string)
    requires Inv(s) && Enabled(s, DoRegister(r, session))
    ensures Inv(Register(s, r, session))
  {
    var s' := Register(s, r, session);
    var req := s.requests[r];
    var x := Attach(if req.host then s.hostKey + session else req.task, session, req.host, None, 0, None, false, false);
    PlaceIsFree(s, r, session);
    var s1 := WithNew(s, x);
    NewInverse(s, x);
    NewTimed(s, x);
    NewPlaced(s, x, r);
    assert s' == InPhase(s1, r, Adding(|s.attaches|));
    ShapeKeeps(s1, s');
    TimedStays(s1, s');
    RegisterReserved(s, r, session);
  }

  lemma {:induction false} RegisterReserved(s: Registry, r: nat, session: string)
    requires Inv(s) && Enabled(s, DoRegister(r, session))
    ensures Reserved(Register(s, r, session))
  {
    var s' := Register(s, r, session);
    PlaceIsFree(s, r, session);
    assert forall q: nat :: Reserving(s', q) <==> Reserving(s, q);
    forall q: nat | Reserving(s', q) && s'.requests[q].phase.Creating?
      ensures TaskAttach(s', s'.requests[q].task).None?
    {
      var task := s.requests[q].task;
      assert TaskAttach(s, task).None? && TaskEntryOK(s, task);
      if !s.requests[r].host {
        assert Reserving(s, r) && q != r;
        assert task != s.requests[r].task;
      }
    }
  }

  lemma {:induction false} AddSessionInv(s: Registry, r: nat)
    requires Inv(s) && Enabled(s, DoAddSession(r))
    ensures Inv(AddSession(s, r))
  {
    var s' := AddSession(s, r);
    var a := s.requests[r].phase.attach;
    assert AddingThis(s, r, a);
    ShapeKeeps(s, s');
    TimedStays(s, s');
    assert forall q: nat :: Reserving(s', q) <==> Reserving(s, q);
    assert forall q: nat, b: nat :: AddingThis(s', q, b) <==> AddingThis(s, q, b) && q != r;
    forall b: nat | b < |s'.attaches| ensures SessionOK(s', b) {
      assert SessionOK(s, b);
      if b != a { assert !SameSession(s, a, b); }
    }
  }

  lemma {:induction false} ArmTimed(s: Registry, a: nat)
    requires Timed(s) && a < |s.attaches| && Registered(s, a) && s.attaches[a].timer.None?
    ensures Timed(Arm(WithAttach(s, a, s.attaches[a].(heard := Some(0))), a))
  {
    var s' := Arm(WithAttach(s, a, s.attaches[a].(heard := Some(0))), a);
    ShapeKeeps(s, s');
    forall b: nat | b < |s'.attaches| ensures TimerOK(s', b) { assert TimerOK(s, b); }
    forall t: nat | t < |s'.timers| ensures CallbackOK(s', t) {
      if t < |s.timers| { assert CallbackOK(s, t); }
    }
  }

  /** A positive count takes the timer away and raises the generation, or finds
      no timer; a zero with a timer running changes only what was heard. */
  lemma {:induction false} HeardTimed(s: Registry, a: nat, x: Attach)
    requires Timed(s) && Registered(s, a) && x.session == s.attaches[a].session
    requires x.timer.Some? ==> x.timer == s.attaches[a].timer && x.generation == s.attaches[a].generation
    requires x.timer.None? ==>
      x.generation == s.attaches[a].generation + (if s.attaches[a].timer.Some? then 1 else 0)
    requires x.timer.Some? <==> NeverRead(x)
    requires SameShape(s, WithAttach(s, a, x))
    ensures Timed(WithAttach(s, a, x))
  {
    var s' := WithAttach(s, a, x);
    ShapeKeeps(s, s');
    forall b: nat | b < |s'.attaches| ensures TimerOK(s', b) { assert TimerOK(s, b); }
    forall t: nat | t < |s'.timers| ensures CallbackOK(s', t) { assert CallbackOK(s, t); }
  }

  lemma {:induction false} HearTimed(s: Registry, a: nat, n: nat)
    requires Timed(s) && Registered(s, a)
    ensures Timed(Hear(s, a, n))
  {
    assert TimerOK(s, a);
    if n == 0 && s.attaches[a].timer.None? {
      ArmTimed(s, a);
    } else {
      HeardTimed(s, a, Heard(s.attaches[a], n));
    }
  }

  lemma {:induction false} HearChangesOne(s: Registry, a: nat, n: nat)
    requires Registered(s, a)
    ensures var s' := Hear(s, a, n);
            var x := s.attaches[a];
      && |s'.attaches| == |s.attaches| && s'.attaches == s.attaches[a := s'.attaches[a]]
      && s'.attaches[a].generation >= x.generation
      && s'.attaches[a] == x.(heard := Some(n), timer := s'.attaches[a].timer, generation := s'.attaches[a].generation)
      && s' == s.(attaches := s'.attaches, timers := s'.timers) && s.timers <= s'.timers
  {
  }

  lemma {:induction false} HearShape(s: Registry, a: nat, n: nat)
    requires a < |s.attaches|
    ensures var s' := Hear(s, a, n);
      && SameShape(s, s') && s' == s.(attaches := s'.attaches, timers := s'.timers) && s.timers <= s'.timers
      && forall b: nat :: b < |s.attaches| ==>
           && s'.attaches[b].added == s.attaches[b].added && s'.attaches[b].missed == s.attaches[b].missed
           && s'.attaches[b].generation >= s.attaches[b].generation
  {
    if Registered(s, a) {
      HearChangesOne(s, a, n);
    }
  }

  lemma {:induction false} HearInv(s: Registry, a: nat, n: nat)
    requires Inv(s) && a < |s.attaches|
    ensures Inv(Hear(s, a, n))
  {
    if Registered(s, a) {
      HearTimed(s, a, n);
      HearShape(s, a, n);
      HeardInv(s, Hear(s, a, n));
    }
  }

  lemma {:induction false} HeardInv(s: Registry, s': Registry)
    requires Inv(s) && SameShape(s, s') && s' == s.(attaches := s'.attaches, timers := s'.timers) && Timed(s')
    requires forall b: nat :: b < |s.attaches| ==>
      s'.attaches[b].added == s.attaches[b].added && s'.attaches[b].missed == s.attaches[b].missed
    ensures Inv(s')
  {
    ShapeKeeps(s, s');
    PlacedStays(s, s');
    ReservedStays(s, s');
  }

  /** What a removal changes: the sessions, and who missed theirs. */
  ghost predicate Removal(s: Registry, s': Registry, session: string) {
    && SameShape(s, s')
    && s' == s.(sessions := s'.sessions, removing := s.removing - {session}, attaches := s'.attaches)
    && s'.sessions == s.sessions - {session}
    && forall b: nat :: b < |s.attaches| ==>
         s'.attaches[b] == (if session !in s.sessions && s.attaches[b].session == session && !s.attaches[b].added
                            then s.attaches[b].(missed := true) else s.attaches[b])
  }

  lemma {:induction false} RemoveIsRemoval(s: Registry, session: string)
    ensures Removal(s, RemoveSession(s, session), session)
  {
  }

  lemma {:induction false} RemovalPlaced(s: Registry, s': Registry, session: string)
    requires Placed(s) && session in s.removing && Removal(s, s', session)
    ensures Placed(s')
  {
    ShapeKeeps(s, s');
    forall b: nat | b < |s'.attaches| ensures SessionOK(s', b) { assert SessionOK(s, b); }
    assert forall q: nat, b: nat :: AddingThis(s', q, b) <==> AddingThis(s, q, b);
  }

  lemma {:induction false} RemoveSessionInv(s: Registry, session: string)
    requires Inv(s) && session in s.removing
    ensures Inv(RemoveSession(s, session))
  {
    RemoveIsRemoval(s, session);
    RemovalPlaced(s, RemoveSession(s, session), session);
    RemovalRest(s, RemoveSession(s, session), session);
  }

  lemma {:induction false} RemovalRest(s: Registry, s': Registry, session: string)
    requires Inverse(s) && Timed(s) && Reserved(s) && Removal(s, s', session)
    ensures Inverse(s') && Timed(s') && Reserved(s')
  {
    ShapeKeeps(s, s');
    TimedStays(s, s');
    ReservedStays(s, s');
  }

  lemma {:induction false} CloseAllInv(s: Registry)
    requires Inv(s)
    ensures Inv(CloseAll(s))
  {
    var s' := CloseAll(s);
    assert forall b: nat :: !Registered(s', b);
    forall b: nat | b < |s'.attaches| ensures TimerOK(s', b) && SessionOK(s', b) && KeyOK(s', b) {
      assert SessionOK(s, b) && KeyOK(s, b) && TimerOK(s, b);
    }
    forall t: nat | t < |s'.timers| ensures CallbackOK(s', t) { assert CallbackOK(s, t); }
    forall b: nat, c: nat | b < |s'.attaches| && c < |s'.attaches| && SameSession(s', b, c) ensures b == c {
      assert SameSession(s, b, c);
    }
    assert forall q: nat, b: nat :: AddingThis(s', q, b) <==> AddingThis(s, q, b);
    ReservedStays(s, s');
  }

  lemma {:induction false} StepInv(s: Registry, step: Step)
    requires Inv(s) && Enabled(s, step)
    ensures Inv(Next(s, step))
  {
    match step
    case DoAsk(r) => AskInv(s, r);
    case DoRegister(r, session) => RegisterInv(s, r, session);
    case DoAddSession(r) => AddSessionInv(s, r);
    case DoHear(a, n) => HearInv(s, a, n);
    case DoFire(t) => if Counts(s, t) { ForgetInv(s, s.timers[t].attach); }
    case DoDelete(session, host) =>
      assert SessionEntryOK(s, session);
      if session in s.bySession && s.attaches[s.bySession[session]].host == host { ForgetInv(s, s.bySession[session]); }
    case DoRemoveSession(session) => RemoveSessionInv(s, session);
    case SessionExits(_) => ReservedStays(s, Next(s, step)); RequestInv(s, Next(s, step));
    case DoCloseAll => CloseAllInv(s);
    case _ => PhaseInv(s, step);
  }

  // ------------------------------------------------------------------ runs

  predicate Allowed(s: Registry, steps: seq<Step>)
    decreases steps
  {
    steps == [] || (Enabled(s, steps[0]) && Allowed(Next(s, steps[0]), steps[1..]))
  }

  function Run(s: Registry, steps: seq<Step>): Registry
    requires Allowed(s, steps)
    decreases steps
  {
    if steps == [] then s else Run(Next(s, steps[0]), steps[1..])
  }

  function NewRegistry(hostKey: string): Registry {
    Registry([], map[], map[], map[], [], [], {}, {}, {}, false, hostKey)
  }

  lemma {:induction false} RunInv(s: Registry, steps: seq<Step>)
    requires Inv(s) && Allowed(s, steps)
    ensures Inv(Run(s, steps))
    decreases steps
  {
    if steps != [] {
      StepInv(s, steps[0]);
      RunInv(Next(s, steps[0]), steps[1..]);
    }
  }

  /** In every run: an attach found by its session is found by its task and the
      other way round, no task has two, and at most one is being created. */
  lemma {:induction false} OneAttachPerTask(key: string, steps: seq<Step>)
    requires Allowed(NewRegistry(key), steps)
    ensures var s := Run(NewRegistry(key), steps);
      && (forall a: nat :: a < |s.attaches| ==>
            (Registered(s, a) <==> s.attaches[a].task in s.byTask && s.byTask[s.attaches[a].task] == a))
      && (forall a: nat, b: nat ::
            Registered(s, a) && Registered(s, b) && s.attaches[a].task == s.attaches[b].task ==> a == b)
      && (forall q: nat, r: nat ::
            Reserving(s, q) && Reserving(s, r) && s.requests[q].task == s.requests[r].task ==> q == r)
  {
    RunInv(NewRegistry(key), steps);
    var s := Run(NewRegistry(key), steps);
    forall a: nat | a < |s.attaches|
      ensures Registered(s, a) <==> s.attaches[a].task in s.byTask && s.byTask[s.attaches[a].task] == a
    {
      assert SessionEntryOK(s, s.attaches[a].session) && TaskEntryOK(s, s.attaches[a].task);
    }
  }

  /** The last count the attach heard while it was registered. */
  function HeardBy(s: Registry, step: Step, a: nat, last: Option<nat>): Option<nat> {
    if step.DoHear? && step.attach == a && Registered(s, a) then Some(step.count) else last
  }

  function HeardIn(s: Registry, steps: seq<Step>, a: nat, last: Option<nat>): Option<nat>
    requires Allowed(s, steps)
    decreases steps
  {
    if steps == [] then last else HeardIn(Next(s, steps[0]), steps[1..], a, HeardBy(s, steps[0], a, last))
  }

  predicate HeardLast(s: Registry, a: nat, last: Option<nat>) {
    last == if a < |s.attaches| then s.attaches[a].heard else None
  }

  lemma {:induction false} StepHears(s: Registry, step: Step, a: nat, last: Option<nat>)
    requires Enabled(s, step) && HeardLast(s, a, last)
    ensures HeardLast(Next(s, step), a, HeardBy(s, step, a, last))
  {
    match step
    case DoHear(b, n) => if Registered(s, b) { HearChangesOne(s, b, n); }
    case DoRemoveSession(session) => RemoveIsRemoval(s, session);
    case DoAsk(r) => AskHears(s, r, a, last);
    case DoRegister(r, session) => RegisterHears(s, r, session, a, last);
    case _ =>
  }

  lemma {:induction false} AskHears(s: Registry, r: nat, a: nat, last: Option<nat>)
    requires Enabled(s, DoAsk(r)) && HeardLast(s, a, last)
    ensures HeardLast(Ask(s, r), a, last)
  {
  }

  lemma {:induction false} RegisterHears(s: Registry, r: nat, session: string, a: nat, last: Option<nat>)
    requires Enabled(s, DoRegister(r, session)) && HeardLast(s, a, last)
    ensures HeardLast(Register(s, r, session), a, last)
  {
  }

  lemma {:induction false} RunHears(s: Registry, steps: seq<Step>, a: nat, last: Option<nat>)
    requires Allowed(s, steps) && HeardLast(s, a, last)
    ensures HeardLast(Run(s, steps), a, HeardIn(s, steps, a, last))
    decreases steps
  {
    if steps != [] {
      StepHears(s, steps[0], a, last);
      RunHears(Next(s, steps[0]), steps[1..], a, HeardBy(s, steps[0], a, last));
    }
  }

  /** An attach holds a timer exactly when it is registered and the last count
      it heard is zero or it heard none. */
  lemma {:induction false} ArmedWhileUnread(key: string, steps: seq<Step>, a: nat)
    requires Allowed(NewRegistry(key), steps) && a < |Run(NewRegistry(key), steps).attaches|
    ensures var s := Run(NewRegistry(key), steps);
            var heard := HeardIn(NewRegistry(key), steps, a, None);
      s.attaches[a].timer.Some? <==> Registered(s, a) && (heard.None? || heard.value == 0)
  {
    RunInv(NewRegistry(key), steps);
    RunHears(NewRegistry(key), steps, a, None);
    assert TimerOK(Run(NewRegistry(key), steps), a);
  }

  /** A request is served exactly when its task has a registered attach of its
      own kind with a live session, and then it gets that session. */
  lemma {:induction false} ServedByOwnAttach(key: string, steps: seq<Step>, r: nat)
    requires Allowed(NewRegistry(key), steps) && Enabled(Run(NewRegistry(key), steps), DoAsk(r))
    ensures var s := Run(NewRegistry(key), steps);
            var s' := Ask(s, r);
      forall session ::
        s'.requests[r].phase == Served(session) <==> exists a: nat :: Serves(s, a, s.requests[r].task, session)
  {
    RunInv(NewRegistry(key), steps);
    ServesOwn(Run(NewRegistry(key), steps), r);
  }

  predicate Serves(s: Registry, a: nat, task: string, session: string) {
    Registered(s, a) && !s.attaches[a].host && s.attaches[a].task == task && s.attaches[a].session == session
    && session in s.sessions && session !in s.exited
  }

  lemma {:induction false} ServesOwn(s: Registry, r: nat)
    requires Inverse(s) && Enabled(s, DoAsk(r))
    ensures forall session :: Ask(s, r).requests[r].phase == Served(session) <==>
      exists a: nat :: Serves(s, a, s.requests[r].task, session)
  {
    var task := s.requests[r].task;
    assert TaskEntryOK(s, task);
    var found := TaskAttach(s, task);
    forall session
      ensures Ask(s, r).requests[r].phase == Served(session) <==> exists a: nat :: Serves(s, a, task, session)
    {
      if a: nat :| Serves(s, a, task, session) {
        assert SessionEntryOK(s, session);
        assert found == Some(a);
      } else if found.Some? {
        assert !Serves(s, found.value, task, session);
      }
    }
  }

  // ------------------------------------------------------------------ waits

  /** A request that reserved the task, or did. */
  predicate Creator(s: Registry, q: nat, task: string) {
    q < |s.requests| && !s.requests[q].host && s.requests[q].task == task
    && (s.requests[q].phase.Creating? || s.requests[q].phase.Adding? || s.requests[q].phase.Releasing?
        || s.requests[q].phase.Done?)
  }

  predicate WaitsWell(s: Registry, r: nat)
    requires r < |s.requests|
  {
    s.requests[r].phase.Waiting? ==> Creator(s, s.requests[r].phase.on, s.requests[r].task)
  }

  ghost predicate WaitsOK(s: Registry) {
    forall r: nat :: r < |s.requests| ==> WaitsWell(s, r)
  }

  /** The step is one of the creation's own. */
  predicate OwnMove(step: Step, q: nat) {
    match step
    case CreateFails(r) => r == q
    case DoRegister(r, _) => r == q
    case DoAddSession(r) => r == q
    case DoRelease(r) => r == q
    case _ => false
  }

  /** The moves a creation still has before it is over. */
  function MovesLeft(phase: Phase): nat {
    match phase
    case Creating => 3
    case Adding(_) => 2
    case Releasing => 1
    case _ => 0
  }

  lemma {:induction false} RequestsStay(s: Registry, step: Step)
    requires Enabled(s, step)
    requires step.DoHear? || step.DoFire? || step.DoDelete? || step.DoRemoveSession? || step.SessionExits?
             || step.DoCloseAll?
    ensures Next(s, step).requests == s.requests
  {
    if step.DoHear? { HearShape(s, step.attach, step.count); }
  }

  /** A step moves on exactly the creation whose own it is, and its release
      frees the task. */
  ghost predicate CreatorMoved(s: Registry, step: Step, s': Registry, q: nat, task: string)
    requires q < |s.requests|
  {
    && Creator(s', q, task)
    && (OwnMove(step, q) ==> MovesLeft(s'.requests[q].phase) < MovesLeft(s.requests[q].phase))
    && (!OwnMove(step, q) ==> s'.requests[q].phase == s.requests[q].phase)
    && (step == DoRelease(q) ==> task !in s'.creating)
  }

  lemma {:induction false} CreatorStep(s: Registry, step: Step, q: nat, task: string)
    requires Enabled(s, step) && Creator(s, q, task)
    ensures CreatorMoved(s, step, Next(s, step), q, task)
  {
    match step
    case DoAsk(r) => CreatorAsked(s, r, q, task);
    case DoRegister(r, session) => CreatorRegisters(s, r, session, q, task);
    case DoHear(_, _) => RequestsStay(s, step);
    case DoFire(_) => RequestsStay(s, step);
    case DoDelete(_, _) => RequestsStay(s, step);
    case DoRemoveSession(_) => RequestsStay(s, step);
    case SessionExits(_) => RequestsStay(s, step);
    case DoCloseAll => RequestsStay(s, step);
    case _ => CreatorGoesOn(s, step, q, task);
  }

  /** Asking changes the asking request alone. */
  lemma {:induction false} AskMovesOne(s: Registry, r: nat)
    requires r < |s.requests|
    ensures var s' := Ask(s, r);
      && |s'.requests| == |s.requests| && s'.requests[r].task == s.requests[r].task
      && (forall q: nat :: q < |s.requests| && q != r ==> s'.requests[q] == s.requests[q])
      && (s'.requests[r].phase.Waiting? && s'.requests[r].phase != s.requests[r].phase ==>
            s.requests[r].task in s.creating && s'.requests[r].phase.on == s.creating[s.requests[r].task])
  {
  }

  lemma {:induction false} CreatorAsked(s: Registry, r: nat, q: nat, task: string)
    requires Enabled(s, DoAsk(r)) && Creator(s, q, task)
    ensures CreatorMoved(s, DoAsk(r), Ask(s, r), q, task)
  {
    AskMovesOne(s, r);
  }

  lemma {:induction false} CreatorRegisters(s: Registry, r: nat, session: string, q: nat, task: string)
    requires Enabled(s, DoRegister(r, session)) && Creator(s, q, task)
    ensures CreatorMoved(s, DoRegister(r, session), Register(s, r, session), q, task)
  {
  }

  lemma {:induction false} CreatorGoesOn(s: Registry, step: Step, q: nat, task: string)
    requires Enabled(s, step) && Creator(s, q, task)
    requires step.Arrive? || step.WaitEnds? || step.GiveUp? || step.CreateFails? || step.DoAddSession?
             || step.DoRelease?
    ensures CreatorMoved(s, step, Next(s, step), q, task)
  {
  }

  lemma {:induction false} StepWaits(s: Registry, step: Step)
    requires Inv(s) && Enabled(s, step) && WaitsOK(s)
    ensures WaitsOK(Next(s, step))
  {
    var s' := Next(s, step);
    forall r: nat | r < |s'.requests| ensures WaitsWell(s', r) {
      WaitsOn(s, step, r);
    }
  }

  lemma {:induction false} WaitsOn(s: Registry, step: Step, r: nat)
    requires Inv(s) && Enabled(s, step) && WaitsOK(s) && r < |Next(s, step).requests|
    ensures WaitsWell(Next(s, step), r)
  {
    if Next(s, step).requests[r].phase.Waiting? {
      WaitingAfter(s, step, r);
      var q := Next(s, step).requests[r].phase.on;
      assert Creator(s, q, s.requests[r].task) by {
        if s.requests[r].phase == Waiting(q) {
          assert WaitsWell(s, r);
        } else {
          assert Reserving(s, q) && s.requests[q].task == s.requests[r].task;
        }
      }
      CreatorStep(s, step, q, s.requests[r].task);
    }
  }

  predicate CameToWait(s: Registry, step: Step, r: nat, after: Request) {
    && r < |s.requests| && after.phase.Waiting? && after.task == s.requests[r].task
    && (s.requests[r].phase == after.phase
        || (step == DoAsk(r) && after.task in s.creating && after.phase.on == s.creating[after.task]))
  }

  /** A request comes to wait by asking, for whoever reserved its task. */
  lemma {:induction false} WaitingAfter(s: Registry, step: Step, r: nat)
    requires Enabled(s, step) && r < |Next(s, step).requests| && Next(s, step).requests[r].phase.Waiting?
    ensures CameToWait(s, step, r, Next(s, step).requests[r])
  {
    match step
    case DoAsk(q) => AskedWaits(s, q, r);
    case DoHear(_, _) => RequestsStay(s, step);
    case DoFire(_) => RequestsStay(s, step);
    case DoDelete(_, _) => RequestsStay(s, step);
    case DoRemoveSession(_) => RequestsStay(s, step);
    case SessionExits(_) => RequestsStay(s, step);
    case DoCloseAll => RequestsStay(s, step);
    case _ => MovedWaits(s, step, r);
  }

  lemma {:induction false} AskedWaits(s: Registry, q: nat, r: nat)
    requires Enabled(s, DoAsk(q)) && r < |Ask(s, q).requests| && Ask(s, q).requests[r].phase.Waiting?
    ensures CameToWait(s, DoAsk(q), r, Ask(s, q).requests[r])
  {
    AskMovesOne(s, q);
  }

  lemma {:induction false} MovedWaits(s: Registry, step: Step, r: nat)
    requires Enabled(s, step) && r < |Next(s, step).requests| && Next(s, step).requests[r].phase.Waiting?
    requires step.Arrive? || step.WaitEnds? || step.GiveUp? || step.CreateFails? || step.DoRegister?
             || step.DoAddSession? || step.DoRelease?
    ensures CameToWait(s, step, r, Next(s, step).requests[r])
  {
  }

  lemma {:induction false} RunWaits(s: Registry, steps: seq<Step>)
    requires Inv(s) && Allowed(s, steps) && WaitsOK(s)
    ensures WaitsOK(Run(s, steps))
    decreases steps
  {
    if steps != [] {
      StepWaits(s, steps[0]);
      StepInv(s, steps[0]);
      RunWaits(Next(s, steps[0]), steps[1..]);
    }
  }

  /** The request waits for a creation of its own task that can move. */
  ghost predicate WaitMoves(s: Registry, r: nat)
    requires r < |s.requests| && s.requests[r].phase.Waiting?
  {
    var q := s.requests[r].phase.on;
    && Creator(s, q, s.requests[r].task)
    && (Enabled(s, CreateFails(q)) || Enabled(s, DoAddSession(q)) || Enabled(s, DoRelease(q))
        || Enabled(s, WaitEnds(r)))
  }

  lemma {:induction false} CreatorMoves(s: Registry, r: nat)
    requires Inv(s) && WaitsOK(s) && r < |s.requests| && s.requests[r].phase.Waiting?
    ensures WaitMoves(s, r)
  {
    assert WaitsWell(s, r);
    var q := s.requests[r].phase.on;
    if s.requests[q].phase.Adding? { assert AddingThis(s, q, s.requests[q].phase.attach); }
  }

  lemma {:induction false} ReleaseEndsWait(s: Registry, r: nat)
    requires r < |s.requests| && s.requests[r].phase.Waiting? && Creator(s, s.requests[r].phase.on, s.requests[r].task)
    requires Enabled(s, DoRelease(s.requests[r].phase.on))
    ensures var s' := Release(s, s.requests[r].phase.on);
      s.requests[r].task !in s'.creating && Enabled(s', WaitEnds(r)) && At(Next(s', WaitEnds(r)), r, Asking)
  {
  }

  /** In every run a request waits for a creation of its own task that can
      always move, and whose moves, three at most, bring it to its end whatever
      else happens; once it is over the task is free and the request asks
      again. */
  lemma {:induction false} WaitEndsSoon(key: string, steps: seq<Step>, r: nat, step: Step)
    requires Allowed(NewRegistry(key), steps) && r < |Run(NewRegistry(key), steps).requests|
    requires Run(NewRegistry(key), steps).requests[r].phase.Waiting? && Enabled(Run(NewRegistry(key), steps), step)
    ensures var s := Run(NewRegistry(key), steps);
            var q := s.requests[r].phase.on;
            var s' := Next(s, step);
      && WaitMoves(s, r) && Creator(s', q, s.requests[r].task)
      && (OwnMove(step, q) ==> MovesLeft(s'.requests[q].phase) < MovesLeft(s.requests[q].phase) <= 3)
      && (!OwnMove(step, q) ==> s'.requests[q].phase == s.requests[q].phase)
      && (step == DoRelease(q) ==>
            s.requests[r].task !in s'.creating && Enabled(s', WaitEnds(r)) && At(Next(s', WaitEnds(r)), r, Asking))
  {
    RunInv(NewRegistry(key), steps);
    RunWaits(NewRegistry(key), steps);
    var s := Run(NewRegistry(key), steps);
    CreatorMoves(s, r);
    CreatorStep(s, step, s.requests[r].phase.on, s.requests[r].task);
    if step == DoRelease(s.requests[r].phase.on) { ReleaseEndsWait(s, r); }
  }

  // --------------------------------------------------------------- callbacks

  /** A timer of an older generation, which no longer counts. */
  predicate Stale(s: Registry, t: nat) {
    t < |s.timers| && s.timers[t].attach < |s.attaches|
    && (s.timers[t].generation < s.attaches[s.timers[t].attach].generation || !Registered(s, s.timers[t].attach))
  }

  /** Timers stay, generations grow, and who has left does not come back. */
  ghost predicate Onward(s: Registry, s': Registry) {
    && s.timers <= s'.timers && |s.attaches| <= |s'.attaches|
    && (forall a: nat :: a < |s.attaches| ==> s.attaches[a].generation <= s'.attaches[a].generation)
    && (forall a: nat :: a < |s.attaches| && !Registered(s, a) ==> !Registered(s', a))
  }

  lemma {:induction false} ForgetOnward(s: Registry, a: nat)
    requires Inverse(s) && Registered(s, a)
    ensures Onward(s, Forget(s, a))
  {
    ForgetLeaves(s, a);
  }

  lemma {:induction false} ShapeOnward(s: Registry, s': Registry)
    requires SameShape(s, s') && s.timers <= s'.timers
    requires forall a: nat :: a < |s.attaches| ==> s.attaches[a].generation <= s'.attaches[a].generation
    ensures Onward(s, s')
  {
    ShapeKeeps(s, s');
  }

  lemma {:induction false} AskOnward(s: Registry, r: nat)
    requires Inv(s) && Enabled(s, DoAsk(r))
    ensures Onward(s, Ask(s, r))
  {
    var task := s.requests[r].task;
    var found := TaskAttach(s, task);
    if found.Some? && !Live(s, s.attaches[found.value].session) {
      assert TaskEntryOK(s, task);
      ForgetOnward(s, found.value);
    } else {
      ShapeOnward(s, Ask(s, r));
    }
  }

  lemma {:induction false} RegisterOnward(s: Registry, r: nat, session: string)
    requires Inv(s) && Enabled(s, DoRegister(r, session))
    ensures Onward(s, Register(s, r, session))
  {
    var s' := Register(s, r, session);
    assert forall a: nat :: a < |s.attaches| ==> s'.attaches[a] == s.attaches[a];
    assert forall a: nat :: a < |s.attaches| ==> s.attaches[a].session != session;
  }

  lemma {:induction false} StepOnward(s: Registry, step: Step)
    requires Inv(s) && Enabled(s, step)
    ensures Onward(s, Next(s, step))
  {
    match step
    case DoAsk(r) => AskOnward(s, r);
    case DoRegister(r, session) => RegisterOnward(s, r, session);
    case DoFire(t) => if Counts(s, t) { ForgetOnward(s, s.timers[t].attach); }
    case DoDelete(session, host) =>
      assert SessionEntryOK(s, session);
      if session in s.bySession && s.attaches[s.bySession[session]].host == host {
        ForgetOnward(s, s.bySession[session]);
      }
    case _ => KeptOnward(s, step);
  }

  /** Steps that neither forget an attach nor add one. */
  lemma {:induction false} KeptOnward(s: Registry, step: Step)
    requires Enabled(s, step) && !step.DoAsk? && !step.DoRegister? && !step.DoFire? && !step.DoDelete?
    ensures Onward(s, Next(s, step))
  {
    if step.DoHear? { HearShape(s, step.attach, step.count); }
    if step.DoRemoveSession? { RemoveIsRemoval(s, step.session); }
    if !step.DoCloseAll? { ShapeOnward(s, Next(s, step)); }
  }

  lemma {:induction false} StaysStale(s: Registry, step: Step, t: nat)
    requires Inv(s) && Enabled(s, step) && Stale(s, t)
    ensures Stale(Next(s, step), t)
  {
    StepOnward(s, step);
    assert Next(s, step).timers[t] == s.timers[t];
  }

  lemma {:induction false} StaysStaleRun(s: Registry, steps: seq<Step>, t: nat)
    requires Inv(s) && Allowed(s, steps) && Stale(s, t)
    ensures Stale(Run(s, steps), t)
    decreases steps
  {
    if steps != [] {
      StaysStale(s, steps[0], t);
      StepInv(s, steps[0]);
      StaysStaleRun(Next(s, steps[0]), steps[1..], t);
    }
  }

  /** Once a positive count was heard, no timer armed before destroys the
      attach, whenever its callback runs and however often. */
  lemma {:induction false} HeardKeepsAttach(key: string, before: seq<Step>, t: nat, n: nat, after: seq<Step>)
    requires Allowed(NewRegistry(key), before) && t < |Run(NewRegistry(key), before).timers| && n > 0
    requires var s := Run(NewRegistry(key), before);
             s.timers[t].attach < |s.attaches| && Allowed(Hear(s, s.timers[t].attach, n), after)
    ensures var s := Run(NewRegistry(key), before);
            var s' := Run(Hear(s, s.timers[t].attach, n), after);
            t < |s'.timers| && Fire(s', t) == s'
  {
    RunInv(NewRegistry(key), before);
    var s := Run(NewRegistry(key), before);
    var a := s.timers[t].attach;
    assert CallbackOK(s, t) && TimerOK(s, a);
    var s1 := Hear(s, a, n);
    assert Stale(s1, t);
    HearInv(s, a, n);
    StaysStaleRun(s1, after, t);
  }

  /** A callback destroys an attach exactly if it is that of the timer the
      attach holds; then no subscriber was heard last. */
  lemma {:induction false} FireNeedsUnread(key: string, steps: seq<Step>, t: nat)
    requires Allowed(NewRegistry(key), steps) && t < |Run(NewRegistry(key), steps).timers|
    ensures var s := Run(NewRegistry(key), steps);
            var a := s.timers[t].attach;
      && a < |s.attaches|
      && (Registered(s, a) ==> (Registered(Fire(s, t), a) <==> s.attaches[a].timer != Some(t)))
      && (Registered(s, a) && !Registered(Fire(s, t), a) ==> NeverRead(s.attaches[a]))
      && (forall b: nat :: b != a ==> (Registered(Fire(s, t), b) <==> Registered(s, b)))
  {
    RunInv(NewRegistry(key), steps);
    var s := Run(NewRegistry(key), steps);
    var a := s.timers[t].attach;
    assert CallbackOK(s, t) && TimerOK(s, a);
    if Registered(s, a) && Counts(s, t) { ForgetLeaves(s, a); }
  }

  // ---------------------------------------------------------- the registry

  class BoardAttaches {
    var attaches: seq<Attach>
    var byTask: map<string, nat>
    var bySession: map<string, nat>
    var creating: map<string, nat>
    var timers: seq<Timer>
    var requests: seq<Request>
    var sessions: set<string>
    var exited: set<string>
    var removing: set<string>
    var closed: bool
    const hostKey := "host-terminal:"

    ghost function View(): Registry
      reads this
    {
      Registry(attaches, byTask, bySession, creating, timers, requests, sessions, exited, removing, closed, hostKey)
    }

    constructor ()
      ensures View() == NewRegistry("host-terminal:")
    {
      attaches, byTask, bySession, creating, timers, requests := [], map[], map[], map[], [], [];
      sessions, exited, removing, closed := {}, {}, {}, false;
    }

    method IsAttach(session: string) returns (yes: bool)
      requires Inv(View())
      ensures yes <==> exists a: nat :: Registered(View(), a) && attaches[a].session == session
    {
      yes := session in bySession;
      assert SessionEntryOK(View(), session);
      if yes { assert Registered(View(), bySession[session]); }
    }

    method ForgetLocked(a: nat)
      requires a < |attaches|
      modifies this
      ensures View() == Forget(old(View()), a)
    {
      var x := attaches[a];
      if x.timer.Some? { attaches := attaches[a := x.(timer := None)]; }
      byTask := byTask - {x.task};
      bySession := bySession - {x.session};
      removing := removing + {x.session};
    }

    method ForgetSession(session: string, host: bool) returns (found: Option<nat>)
      requires Inv(View())
      modifies this
      ensures View() == Delete(old(View()), session, host)
      ensures found.Some? ==> Registered(old(View()), found.value) && old(attaches)[found.value].host == host
      ensures found.None? ==> View() == old(View())
    {
      assert SessionEntryOK(View(), session);
      if session !in bySession { return None; }
      var a := bySession[session];
      if attaches[a].host != host { return None; }
      ForgetLocked(a);
      found := Some(a);
    }

    method RemoveFromManager(session: string)
      requires session in removing
      modifies this
      ensures View() == RemoveSession(old(View()), session)
    {
      removing := removing - {session};
      if session in sessions {
        sessions := sessions - {session};
      } else {
        var was := attaches;
        attaches := seq(|was|, i requires 0 <= i < |was| =>
          if was[i].session == session && !was[i].added then was[i].(missed := true) else was[i]);
      }
    }

    /** The rounds of one request with nothing else running: a dead attach is
        removed, and the next round decides. */
    method Reserve(r: nat)
      requires Inv(View()) && Enabled(View(), DoAsk(r))
      modifies this
      ensures var s := old(View());
              var found := TaskAttach(s, s.requests[r].task);
              View() == if found.Some? && !Live(s, s.attaches[found.value].session)
                        then Ask(RemoveSession(Forget(s, found.value), s.attaches[found.value].session), r)
                        else Ask(s, r)
      ensures !At(View(), r, Asking)
    {
      var task := requests[r].task;
      ghost var s := View();
      assert TaskEntryOK(s, task);
      while task in byTask && !attaches[byTask[task]].host
        invariant requests == old(requests) && creating == old(creating)
        invariant Inv(View())
        invariant View() == s || (TaskAttach(s, task).Some? && !Live(s, s.attaches[TaskAttach(s, task).value].session)
                  && View() == RemoveSession(Forget(s, TaskAttach(s, task).value),
                                             s.attaches[TaskAttach(s, task).value].session))
        invariant View() != s ==> task !in byTask
        decreases if task in byTask then 1 else 0
      {
        var a := byTask[task];
        var session := attaches[a].session;
        if session in sessions && session !in exited {
          requests := requests[r := requests[r].(phase := Served(session))];
          return;
        }
        assert TaskEntryOK(View(), task);
        ForgetInv(View(), a);
        RemoveSessionInv(Forget(View(), a), session);
        ForgetLocked(a);
        RemoveFromManager(session);
      }
      assert TaskAttach(View(), task).None?;
      if task in creating {
        requests := requests[r := requests[r].(phase := Waiting(creating[task]))];
      } else {
        creating := creating[task := r];
        requests := requests[r := requests[r].(phase := Creating)];
      }
    }

    method ArmLocked(a: nat)
      requires a < |attaches|
      modifies this
      ensures View() == Arm(old(View()), a)
    {
      var generation := attaches[a].generation + 1;
      attaches := attaches[a := attaches[a].(generation := generation, timer := Some(|timers|))];
      timers := timers + [Timer(a, generation)];
    }

    method RegisterAttach(r: nat, session: string)
      requires r < |requests|
      modifies this
      ensures View() == Register(old(View()), r, session)
    {
      var a := |attaches|;
      var host := requests[r].host;
      var task := if host then hostKey + session else requests[r].task;
      attaches := attaches + [Attach(task, session, host, None, 0, None, false, false)];
      byTask := byTask[task := a];
      bySession := bySession[session := a];
      ArmLocked(a);
      requests := requests[r := requests[r].(phase := Adding(a))];
    }

    method Subscribers(a: nat, count: nat)
      requires a < |attaches|
      modifies this
      ensures View() == Hear(old(View()), a, count)
    {
      if attaches[a].session !in bySession || bySession[attaches[a].session] != a { return; }
      attaches := attaches[a := attaches[a].(heard := Some(count))];
      if count > 0 {
        if attaches[a].timer.Some? {
          attaches := attaches[a := attaches[a].(timer := None, generation := attaches[a].generation + 1)];
        }
        return;
      }
      if attaches[a].timer.None? { ArmLocked(a); }
    }

    method TimerFires(t: nat) returns (destroyed: Option<string>)
      requires t < |timers|
      modifies this
      ensures View() == Fire(old(View()), t)
      ensures destroyed.Some? <==> Counts(old(View()), t)
    {
      var a := timers[t].attach;
      if a >= |attaches| || attaches[a].session !in bySession || bySession[attaches[a].session] != a
        || attaches[a].generation != timers[t].generation
      {
        return None;
      }
      destroyed := Some(attaches[a].session);
      ForgetLocked(a);
    }
  }
}
