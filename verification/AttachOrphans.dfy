/** Sessions nobody removes. */
module AttachOrphans {
  // A creation registers its attach first and adds the session to the manager
  // afterwards. What forgets the attach in between, and removes the session
  // before the manager has it, leaves the session behind without an owner.

  import opened Text
  import opened A = Attach

  /** A session the manager has and nothing will remove. */
  predicate Orphan(s: Registry, a: nat) {
    a < |s.attaches| && s.attaches[a].session in s.sessions && !Registered(s, a) && s.attaches[a].session !in s.removing
  }

  // ------------------------------------------------------ sessions to come

  /** The request adds an attach of its own kind and task. */
  predicate AddingOwn(s: Registry, r: nat, a: nat) {
    && r < |s.requests| && a < |s.attaches| && s.requests[r].host == s.attaches[a].host
    && (!s.requests[r].host ==> s.attaches[a].task == s.requests[r].task)
  }

  /** An attach whose session is still to come is being added by a request. */
  ghost predicate Coming(s: Registry) {
    && (forall a: nat :: a < |s.attaches| && !s.attaches[a].added ==> exists r: nat :: AddingThis(s, r, a))
    && (forall r: nat, a: nat :: AddingThis(s, r, a) ==> AddingOwn(s, r, a))
  }

  /** Attaches and requests keep what they are; what happened to an attach has
      happened. */
  ghost predicate Grows(s: Registry, s': Registry) {
    && |s.attaches| <= |s'.attaches| && |s.requests| <= |s'.requests|
    && (forall a: nat :: a < |s.attaches| ==>
          && s'.attaches[a].session == s.attaches[a].session && s'.attaches[a].task == s.attaches[a].task
          && s'.attaches[a].host == s.attaches[a].host)
    && (forall r: nat :: r < |s.requests| ==>
          s'.requests[r].task == s.requests[r].task && s'.requests[r].host == s.requests[r].host)
  }

  lemma {:induction false} StepGrows(s: Registry, step: Step)
    requires Enabled(s, step)
    ensures Grows(s, Next(s, step))
  {
    match step
    case DoAsk(r) => AskGrows(s, r);
    case DoRegister(r, session) => RegisterGrows(s, r, session);
    case DoHear(a, n) => HearShape(s, a, n);
    case DoFire(t) => if Counts(s, t) { ForgetGrows(s, s.timers[t].attach); }
    case DoDelete(session, host) => DeleteGrows(s, session, host);
    case DoRemoveSession(session) => RemoveIsRemoval(s, session);
    case DoCloseAll => CloseGrows(s);
    case _ => RequestGrows(s, step);
  }

  lemma {:induction false} ForgetGrows(s: Registry, a: nat)
    requires a < |s.attaches|
    ensures Grows(s, Forget(s, a))
  {
  }

  lemma {:induction false} AskGrows(s: Registry, r: nat)
    requires Enabled(s, DoAsk(r))
    ensures Grows(s, Ask(s, r))
  {
    var found := TaskAttach(s, s.requests[r].task);
    if found.Some? { ForgetGrows(s, found.value); }
  }

  lemma {:induction false} RegisterGrows(s: Registry, r: nat, session: string)
    requires Enabled(s, DoRegister(r, session))
    ensures Grows(s, Register(s, r, session))
  {
    assert forall a: nat :: a < |s.attaches| ==> Register(s, r, session).attaches[a] == s.attaches[a];
  }

  lemma {:induction false} DeleteGrows(s: Registry, session: string, host: bool)
    ensures Grows(s, Delete(s, session, host))
  {
  }

  lemma {:induction false} CloseGrows(s: Registry)
    ensures Grows(s, CloseAll(s))
  {
  }

  /** Steps of requests that change no attach but perhaps add its session. */
  lemma {:induction false} RequestGrows(s: Registry, step: Step)
    requires Enabled(s, step)
    requires step.Arrive? || step.WaitEnds? || step.GiveUp? || step.CreateFails? || step.DoAddSession?
             || step.DoRelease? || step.SessionExits?
    ensures Grows(s, Next(s, step))
  {
  }

  /** A request starts adding by registering and ends by adding the session. */
  lemma {:induction false} AddingAfter(s: Registry, step: Step, r: nat, a: nat)
    requires Enabled(s, step)
    ensures AddingThis(Next(s, step), r, a) <==>
      (AddingThis(s, r, a) && step != DoAddSession(r)) || (step.DoRegister? && step.request == r && a == |s.attaches|)
  {
    if step.DoHear? { HearShape(s, step.attach, step.count); }
  }

  /** The step adds the session to the manager. */
  predicate Adds(s: Registry, step: Step, session: string)
    requires Enabled(s, step)
  {
    step.DoAddSession? && s.attaches[s.requests[step.request].phase.attach].session == session
  }

  /** Only adding the session marks an attach as added. */
  lemma {:induction false} AddedStays(s: Registry, step: Step, a: nat)
    requires Enabled(s, step) && !step.DoAddSession? && a < |s.attaches|
    ensures a < |Next(s, step).attaches| && Next(s, step).attaches[a].added == s.attaches[a].added
  {
    match step
    case DoHear(b, n) => HearShape(s, b, n);
    case DoRemoveSession(session) => RemoveIsRemoval(s, session);
    case DoRegister(r, session) => assert Register(s, r, session).attaches[a] == s.attaches[a];
    case _ =>
  }

  lemma {:induction false} AddedStep(s: Registry, step: Step, a: nat)
    requires Inv(s) && Enabled(s, step) && a < |s.attaches|
    ensures var s' := Next(s, step);
      && a < |s'.attaches|
      && (s'.attaches[a].added <==> s.attaches[a].added || Adds(s, step, s.attaches[a].session))
      && (Adds(s, step, s.attaches[a].session) ==> !s.attaches[a].added)
  {
    if step.DoAddSession? {
      var b := s.requests[step.request].phase.attach;
      assert AddingThis(s, step.request, b);
      if Adds(s, step, s.attaches[a].session) { assert SameSession(s, a, b); }
    } else {
      AddedStays(s, step, a);
    }
  }

  lemma {:induction false} StepComing(s: Registry, step: Step)
    requires Inv(s) && Enabled(s, step) && Coming(s)
    ensures Coming(Next(s, step))
  {
    var s' := Next(s, step);
    StepGrows(s, step);
    forall r: nat, a: nat | AddingThis(s', r, a) ensures AddingOwn(s', r, a) {
      AddingAfter(s, step, r, a);
      if AddingThis(s, r, a) { assert AddingOwn(s, r, a); }
    }
    forall a: nat | a < |s'.attaches| && !s'.attaches[a].added ensures exists r: nat :: AddingThis(s', r, a) {
      StillAdding(s, step, a);
    }
  }

  lemma {:induction false} StillAdding(s: Registry, step: Step, a: nat)
    requires Inv(s) && Enabled(s, step) && Coming(s)
    requires a < |Next(s, step).attaches| && !Next(s, step).attaches[a].added
    ensures exists r: nat :: AddingThis(Next(s, step), r, a)
  {
    if a < |s.attaches| {
      AddedStep(s, step, a);
      var r: nat :| AddingThis(s, r, a);
      AddingAfter(s, step, r, a);
      if step == DoAddSession(r) { assert Adds(s, step, s.attaches[a].session); }
      assert AddingThis(Next(s, step), r, a);
    } else {
      NewIsRegistered(s, step);
      AddingAfter(s, step, step.request, a);
    }
  }

  lemma {:induction false} NewIsRegistered(s: Registry, step: Step)
    requires Enabled(s, step) && |Next(s, step).attaches| > |s.attaches|
    ensures step.DoRegister? && |Next(s, step).attaches| == |s.attaches| + 1
  {
    if step.DoHear? { HearShape(s, step.attach, step.count); }
  }

  lemma {:induction false} RunComing(s: Registry, steps: seq<Step>)
    requires Inv(s) && Allowed(s, steps) && Coming(s)
    ensures Coming(Run(s, steps))
    decreases steps
  {
    if steps != [] {
      StepComing(s, steps[0]);
      StepInv(s, steps[0]);
      RunComing(Next(s, steps[0]), steps[1..]);
    }
  }

  /** The attach found is thrown away before its session has come exactly if the
      request that reserved the task is adding it. */
  predicate EarlyExactlyIfAdding(s: Registry, r: nat)
    requires Enabled(s, DoAsk(r)) && TaskAttach(s, s.requests[r].task).Some?
  {
    var task := s.requests[r].task;
    var a := TaskAttach(s, task).value;
    Registered(s, a) &&
      (!Registered(Ask(s, r), a) && !s.attaches[a].added <==> task in s.creating && At(s, s.creating[task], Adding(a)))
  }

  /** In every run, a round of a request that finds an attach of its task throws
      away one whose session is still to come exactly if the creation that
      reserved the task is still adding it. */
  lemma {:induction false} AskTooEarly(key: string, steps: seq<Step>, r: nat)
    requires Allowed(NewRegistry(key), steps) && Enabled(Run(NewRegistry(key), steps), DoAsk(r))
    requires var s := Run(NewRegistry(key), steps); TaskAttach(s, s.requests[r].task).Some?
    ensures EarlyExactlyIfAdding(Run(NewRegistry(key), steps), r)
  {
    RunInv(NewRegistry(key), steps);
    RunComing(NewRegistry(key), steps);
    ForgetsEarly(Run(NewRegistry(key), steps), r);
  }

  lemma {:induction false} ForgetsEarly(s: Registry, r: nat)
    requires Inv(s) && Coming(s) && Enabled(s, DoAsk(r)) && TaskAttach(s, s.requests[r].task).Some?
    ensures EarlyExactlyIfAdding(s, r)
  {
    var task := s.requests[r].task;
    var a := TaskAttach(s, task).value;
    assert TaskEntryOK(s, task);
    assert SessionOK(s, a);
    if !s.attaches[a].added {
      var q: nat :| AddingThis(s, q, a);
      assert AddingOwn(s, q, a) && Reserving(s, q);
      ForgetLeaves(s, a);
    }
    if task in s.creating && At(s, s.creating[task], Adding(a)) { assert AddingThis(s, s.creating[task], a); }
  }

  /** Before its session has come, a registered attach is forgotten by another
      request for its task, by its own timer, by a deletion of its session, or
      when the board closes; by nothing else. */
  predicate ForgetsAttach(s: Registry, step: Step, a: nat)
    requires Enabled(s, step) && a < |s.attaches|
  {
    match step
    case DoAsk(r) => TaskAttach(s, s.requests[r].task) == Some(a)
    case DoFire(t) => s.attaches[a].timer == Some(t)
    case DoDelete(session, host) => session == s.attaches[a].session && host == s.attaches[a].host
    case DoCloseAll => true
    case _ => false
  }

  lemma {:induction false} EarlyForgets(key: string, steps: seq<Step>, step: Step, a: nat)
    requires Allowed(NewRegistry(key), steps) && Enabled(Run(NewRegistry(key), steps), step)
    requires var s := Run(NewRegistry(key), steps); Registered(s, a) && !s.attaches[a].added
    ensures var s := Run(NewRegistry(key), steps);
      !Registered(Next(s, step), a) <==> ForgetsAttach(s, step, a)
  {
    RunInv(NewRegistry(key), steps);
    assert SessionOK(Run(NewRegistry(key), steps), a);
    StepLeaves(Run(NewRegistry(key), steps), step, a);
  }

  /** What takes a registered attach out of the registry at any time: a request
      for its task that finds its session dead, its own timer, a deletion of its
      session, and the board's closing. */
  predicate Ends(s: Registry, step: Step, a: nat)
    requires Enabled(s, step) && a < |s.attaches|
  {
    match step
    case DoAsk(r) => TaskAttach(s, s.requests[r].task) == Some(a) && !Live(s, s.attaches[a].session)
    case DoFire(t) => s.attaches[a].timer == Some(t)
    case DoDelete(session, host) => session == s.attaches[a].session && host == s.attaches[a].host
    case DoCloseAll => true
    case _ => false
  }

  /** In every run a registered attach leaves exactly so, and unless the board
      closes, its session is then to be removed. */
  lemma {:induction false} AttachEnds(key: string, steps: seq<Step>, step: Step, a: nat)
    requires Allowed(NewRegistry(key), steps) && Enabled(Run(NewRegistry(key), steps), step)
    requires Registered(Run(NewRegistry(key), steps), a)
    ensures var s := Run(NewRegistry(key), steps);
      && (!Registered(Next(s, step), a) <==> Ends(s, step, a))
      && (Ends(s, step, a) && !step.DoCloseAll? ==> s.attaches[a].session in Next(s, step).removing)
  {
    RunInv(NewRegistry(key), steps);
    StepLeaves(Run(NewRegistry(key), steps), step, a);
  }

  lemma {:induction false} StepLeaves(s: Registry, step: Step, a: nat)
    requires Inv(s) && Enabled(s, step) && Registered(s, a)
    ensures !Registered(Next(s, step), a) <==> Ends(s, step, a)
    ensures Ends(s, step, a) && !step.DoCloseAll? ==> s.attaches[a].session in Next(s, step).removing
  {
    match step
    case DoAsk(r) => AskLeaves(s, r, a);
    case DoFire(t) =>
      assert CallbackOK(s, t) && TimerOK(s, a);
      if Counts(s, t) { ForgetLeaves(s, s.timers[t].attach); }
    case DoDelete(session, host) =>
      assert SessionEntryOK(s, session);
      if session in s.bySession { ForgetLeaves(s, s.bySession[session]); }
    case DoRegister(r, session) => RegisterKeeps(s, r, session, a);
    case DoCloseAll =>
    case _ => KeepsRegistered(s, step, a);
  }

  lemma {:induction false} AskLeaves(s: Registry, r: nat, a: nat)
    requires Inv(s) && Enabled(s, DoAsk(r)) && Registered(s, a)
    ensures !Registered(Ask(s, r), a) <==> Ends(s, DoAsk(r), a)
    ensures Ends(s, DoAsk(r), a) ==> s.attaches[a].session in Ask(s, r).removing
  {
    var task := s.requests[r].task;
    var found := TaskAttach(s, task);
    if found.Some? {
      assert TaskEntryOK(s, task);
      ForgetLeaves(s, found.value);
    }
  }

  lemma {:induction false} RegisterKeeps(s: Registry, r: nat, session: string, a: nat)
    requires Enabled(s, DoRegister(r, session)) && Registered(s, a)
    ensures Registered(Register(s, r, session), a)
  {
    assert s.attaches[a].session != session;
  }

  lemma {:induction false} KeepsRegistered(s: Registry, step: Step, a: nat)
    requires Enabled(s, step) && Registered(s, a)
    requires !step.DoAsk? && !step.DoRegister? && !step.DoFire? && !step.DoDelete? && !step.DoCloseAll?
    ensures Registered(Next(s, step), a)
  {
    StepGrows(s, step);
    if step.DoHear? { HearShape(s, step.attach, step.count); }
  }

  // ---------------------------------------------------------- whole lives

  predicate AddsLater(s: Registry, steps: seq<Step>, session: string)
    requires Allowed(s, steps)
    decreases steps
  {
    steps != [] && (Adds(s, steps[0], session) || AddsLater(Next(s, steps[0]), steps[1..], session))
  }

  /** The manager is told to remove the session, and gets it afterwards. */
  predicate RemovedThenAdded(s: Registry, steps: seq<Step>, session: string)
    requires Allowed(s, steps)
    decreases steps
  {
    steps != [] &&
      ((steps[0] == DoRemoveSession(session) && AddsLater(Next(s, steps[0]), steps[1..], session))
       || RemovedThenAdded(Next(s, steps[0]), steps[1..], session))
  }

  predicate Registers(step: Step, session: string) {
    step.DoRegister? && step.session == session
  }

  /** A removal of the session between its registering and its adding. */
  predicate RemovedTooEarly(s: Registry, steps: seq<Step>, session: string)
    requires Allowed(s, steps)
    decreases steps
  {
    steps != [] &&
      ((Registers(steps[0], session) && RemovedThenAdded(Next(s, steps[0]), steps[1..], session))
       || RemovedTooEarly(Next(s, steps[0]), steps[1..], session))
  }

  lemma {:induction false} AddedRun(s: Registry, steps: seq<Step>, a: nat)
    requires Inv(s) && Allowed(s, steps) && a < |s.attaches|
    ensures var s' := Run(s, steps);
            var x := s.attaches[a].session;
      && a < |s'.attaches| && s'.attaches[a].session == x
      && (s'.attaches[a].added <==> s.attaches[a].added || AddsLater(s, steps, x))
      && (s.attaches[a].added ==> !AddsLater(s, steps, x))
    decreases steps
  {
    if steps != [] {
      AddedStep(s, steps[0], a);
      StepGrows(s, steps[0]);
      StepInv(s, steps[0]);
      AddedRun(Next(s, steps[0]), steps[1..], a);
    }
  }

  lemma {:induction false} MissedStep(s: Registry, step: Step, a: nat)
    requires Inv(s) && Enabled(s, step) && a < |s.attaches|
    ensures var s' := Next(s, step);
      && a < |s'.attaches|
      && (s'.attaches[a].missed <==>
            s.attaches[a].missed || (step == DoRemoveSession(s.attaches[a].session) && !s.attaches[a].added))
  {
    StepGrows(s, step);
    assert SessionOK(s, a);
    if step.DoHear? { HearShape(s, step.attach, step.count); }
    if step.DoRemoveSession? { RemoveIsRemoval(s, step.session); }
  }

  lemma {:induction false} MissedStays(s: Registry, steps: seq<Step>, a: nat)
    requires Inv(s) && Allowed(s, steps) && a < |s.attaches|
    ensures a < |Run(s, steps).attaches|
    ensures s.attaches[a].missed || s.attaches[a].added ==> Run(s, steps).attaches[a].missed == s.attaches[a].missed
    decreases steps
  {
    if steps != [] {
      MissedStep(s, steps[0], a);
      AddedStep(s, steps[0], a);
      StepInv(s, steps[0]);
      MissedStays(Next(s, steps[0]), steps[1..], a);
    }
  }

  lemma {:induction false} RemovedIsAdded(s: Registry, steps: seq<Step>, session: string)
    requires Allowed(s, steps) && RemovedThenAdded(s, steps, session)
    ensures AddsLater(s, steps, session)
    decreases steps
  {
    if !(steps[0] == DoRemoveSession(session) && AddsLater(Next(s, steps[0]), steps[1..], session)) {
      RemovedIsAdded(Next(s, steps[0]), steps[1..], session);
    }
  }

  /** From registering on, an attach ends up removed and added exactly if the
      removal came first. */
  lemma {:induction false} MissedRun(s: Registry, steps: seq<Step>, a: nat)
    requires Inv(s) && Allowed(s, steps) && a < |s.attaches| && !s.attaches[a].added && !s.attaches[a].missed
    ensures var s' := Run(s, steps);
      && a < |s'.attaches|
      && (s'.attaches[a].missed && s'.attaches[a].added <==> RemovedThenAdded(s, steps, s.attaches[a].session))
    decreases steps
  {
    if steps != [] {
      var x := s.attaches[a].session;
      var s1 := Next(s, steps[0]);
      var rest := steps[1..];
      StepInv(s, steps[0]);
      StepGrows(s, steps[0]);
      MissedStep(s, steps[0], a);
      AddedStep(s, steps[0], a);
      AddedRun(s1, rest, a);
      MissedStays(s1, rest, a);
      if RemovedThenAdded(s1, rest, x) { RemovedIsAdded(s1, rest, x); }
      if !s1.attaches[a].added && !s1.attaches[a].missed { MissedRun(s1, rest, a); }
    }
  }

  ghost predicate Held(s: Registry, session: string) {
    exists a: nat :: a < |s.attaches| && s.attaches[a].session == session
  }

  /** A session is registered once only. */
  lemma {:induction false} HeldOnce(s: Registry, steps: seq<Step>, session: string)
    requires Allowed(s, steps) && Held(s, session)
    ensures !RemovedTooEarly(s, steps, session)
    decreases steps
  {
    if steps != [] {
      var a: nat :| a < |s.attaches| && s.attaches[a].session == session;
      StepGrows(s, steps[0]);
      assert Next(s, steps[0]).attaches[a].session == session;
      HeldOnce(Next(s, steps[0]), steps[1..], session);
    }
  }

  ghost predicate MissedAndAdded(s: Registry, session: string) {
    exists a: nat :: a < |s.attaches| && s.attaches[a].session == session && s.attaches[a].missed && s.attaches[a].added
  }

  lemma {:induction false} MissedIs(s: Registry, session: string, a: nat)
    requires Inverse(s) && a < |s.attaches| && s.attaches[a].session == session
    ensures MissedAndAdded(s, session) <==> s.attaches[a].missed && s.attaches[a].added
  {
    if MissedAndAdded(s, session) {
      var b: nat :| b < |s.attaches| && s.attaches[b].session == session && s.attaches[b].missed && s.attaches[b].added;
      assert SameSession(s, a, b);
    }
  }

  lemma {:induction false} WholeLife(s: Registry, steps: seq<Step>, session: string)
    requires Inv(s) && Allowed(s, steps) && !Held(s, session)
    ensures MissedAndAdded(Run(s, steps), session) <==> RemovedTooEarly(s, steps, session)
    decreases steps
  {
    if steps != [] {
      var s1 := Next(s, steps[0]);
      StepInv(s, steps[0]);
      if Registers(steps[0], session) {
        var a := |s.attaches|;
        MissedRun(s1, steps[1..], a);
        AddedRun(s1, steps[1..], a);
        RunInv(s1, steps[1..]);
        MissedIs(Run(s, steps), session, a);
        assert s1.attaches[a].session == session;
        HeldOnce(s1, steps[1..], session);
      } else {
        NotHeldYet(s, steps[0], session);
        WholeLife(s1, steps[1..], session);
      }
    }
  }

  lemma {:induction false} NotHeldYet(s: Registry, step: Step, session: string)
    requires Enabled(s, step) && !Held(s, session) && !Registers(step, session)
    ensures !Held(Next(s, step), session)
  {
    var s' := Next(s, step);
    StepGrows(s, step);
    forall a: nat | a < |s'.attaches| ensures s'.attaches[a].session != session {
      if a >= |s.attaches| { NewIsRegistered(s, step); }
    }
  }

  /** Until the board closes, a session is left without an owner exactly if the
      manager was told to remove it after it was registered and before it was
      added. */
  lemma {:induction false} OrphanedByEarlyRemoval(key: string, steps: seq<Step>, session: string)
    requires Allowed(NewRegistry(key), steps) && !Run(NewRegistry(key), steps).closed
    ensures var s := Run(NewRegistry(key), steps);
      (exists a: nat :: Orphan(s, a) && s.attaches[a].session == session)
        <==> RemovedTooEarly(NewRegistry(key), steps, session)
  {
    RunInv(NewRegistry(key), steps);
    WholeLife(NewRegistry(key), steps, session);
    OrphansMissed(Run(NewRegistry(key), steps), session);
  }

  lemma {:induction false} OrphansMissed(s: Registry, session: string)
    requires Inv(s) && !s.closed
    ensures (exists a: nat :: Orphan(s, a) && s.attaches[a].session == session) <==> MissedAndAdded(s, session)
  {
    forall a: nat | a < |s.attaches| ensures Orphan(s, a) <==> s.attaches[a].missed && s.attaches[a].added {
      assert SessionOK(s, a);
    }
  }

  // -------------------------------------------------------------- that happens

  lemma {:induction false} RunSnoc(s: Registry, steps: seq<Step>, step: Step)
    requires Allowed(s, steps) && Enabled(Run(s, steps), step)
    ensures Allowed(s, steps + [step]) && Run(s, steps + [step]) == Next(Run(s, steps), step)
    decreases steps
  {
    var all := steps + [step];
    if steps == [] {
      assert all[1..] == [];
      assert Allowed(Next(s, step), []);
    } else {
      assert all[0] == steps[0] && all[1..] == steps[1..] + [step];
      RunSnoc(Next(s, steps[0]), steps[1..], step);
    }
  }

  datatype Cause = ByRequest | ByTimer | ByDeletion

  predicate Causes(cause: Cause, step: Step) {
    match cause
    case ByRequest => step.DoAsk?
    case ByTimer => step.DoFire?
    case ByDeletion => step.DoDelete?
  }

  /** One creation has registered and not added its session yet. */
  ghost predicate Half(s: Registry, task: string, session: string) {
    && |s.requests| > 0 && s.requests[0] == Request(task, false, Adding(0))
    && s.attaches == [A.Attach.Attach(task, session, false, Some(0), 1, None, false, false)]
    && s.timers == [Timer(0, 1)] && session !in s.sessions
    && s.byTask == map[task := 0] && s.bySession == map[session := 0]
  }

  lemma {:induction false} Registering(key: string, task: string, session: string) returns (steps: seq<Step>)
    requires !(key <= task)
    ensures Allowed(NewRegistry(key), steps)
    ensures Half(Run(NewRegistry(key), steps), task, session) && |Run(NewRegistry(key), steps).requests| == 1
  {
    var s := NewRegistry(key);
    steps := [];
    RunSnoc(s, steps, Arrive(task, false));
    steps := steps + [Arrive(task, false)];
    RunSnoc(s, steps, DoAsk(0));
    steps := steps + [DoAsk(0)];
    assert Run(s, steps).requests == [Request(task, false, Creating)];
    RunSnoc(s, steps, DoRegister(0, session));
    steps := steps + [DoRegister(0, session)];
    assert Run(s, steps).requests == [Request(task, false, Adding(0))];
  }

  lemma {:induction false} Orphaned(s: Registry, before: seq<Step>, forget: Step, task: string, session: string)
    returns (steps: seq<Step>)
    requires Allowed(s, before) && Half(Run(s, before), task, session) && Enabled(Run(s, before), forget)
    requires Next(Run(s, before), forget) == Forget(Run(s, before), 0)
    ensures Allowed(s, steps) && Orphan(Run(s, steps), 0) && forget in steps
  {
    RunSnoc(s, before, forget);
    steps := before + [forget];
    RunSnoc(s, steps, DoRemoveSession(session));
    steps := steps + [DoRemoveSession(session)];
    RunSnoc(s, steps, DoAddSession(0));
    steps := steps + [DoAddSession(0)];
  }

  /** All of it happens: between a creation's registering and its adding the
      session, a second request for the task takes the attach for a dead one,
      or the timer fires, or somebody deletes the session. */
  lemma {:induction false} OrphanExists(key: string, task: string, session: string, cause: Cause)
    returns (steps: seq<Step>)
    requires !(key <= task)
    ensures Allowed(NewRegistry(key), steps) && Orphan(Run(NewRegistry(key), steps), 0)
    ensures exists step :: step in steps && Causes(cause, step)
  {
    var s := NewRegistry(key);
    steps := Registering(key, task, session);
    match cause {
      case ByRequest =>
        RunSnoc(s, steps, Arrive(task, false));
        steps := steps + [Arrive(task, false)];
        assert Run(s, steps).requests == [Request(task, false, Adding(0)), Request(task, false, Asking)];
        steps := Orphaned(s, steps, DoAsk(1), task, session);
        assert Causes(cause, DoAsk(1));
      case ByTimer =>
        steps := Orphaned(s, steps, DoFire(0), task, session);
        assert Causes(cause, DoFire(0));
      case ByDeletion =>
        steps := Orphaned(s, steps, DoDelete(session, false), task, session);
        assert Causes(cause, DoDelete(session, false));
    }
  }
}
