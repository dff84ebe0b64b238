/** The automatic update workers. */
module AutoUpdate {
  // Per tool and host there is at most one worker, which
  // runs again for every start that arrived while it was running, publishes a
  // result only if nothing reset it meanwhile, and is joined by Close.
  //
  // One step is one lock scope of the service or of a worker.

  import opened Text

  type Key = (string, string)

  datatype Auto = Auto(err: string, revision: nat, running: bool, updated: bool, pending: bool)

  /** AtRun and AtContinue stand before a lock scope, InRun is the check and
      update itself, Exited has left the loop, Joined has told Close so. */
  datatype Phase =
    | AtRun
    | InRun(revision: nat, updated: bool)
    | AtContinue
    | Exited
    | Joined

  /** `attempted` records whether any run of the worker attempted an update. */
  datatype Worker = Worker(key: Key, phase: Phase, attempted: bool)

  datatype Service = Service(autos: map<Key, Auto>, closed: bool, runs: nat, workers: seq<Worker>)

  const IDLE := Auto("", 0, false, false, false)

  datatype Status = Installed | Outdated | Missing | Unknown | Invalid

  /** How a run ended: `failure` is its error, `detail` the checked state's. */
  datatype Outcome = Outcome(attempted: bool, failure: Option<string>, status: Status, detail: string)

  function AutoOf(s: Service, k: Key): Auto {
    if k in s.autos then s.autos[k] else IDLE
  }

  function WithAuto(s: Service, k: Key, a: Auto): Service {
    s.(autos := s.autos[k := a])
  }

  function WithPhase(s: Service, w: nat, phase: Phase): Service
    requires w < |s.workers|
  {
    s.(workers := s.workers[w := s.workers[w].(phase := phase)])
  }

  // ----------------------------------------------------------------- steps

  function Begin(s: Service, k: Key): Service {
    var a := AutoOf(s, k);
    if s.closed then s
    else if a.running then WithAuto(s, k, a.(pending := true))
    else
      var s' := WithAuto(s, k, a.(updated := false, running := true));
      s'.(runs := s.runs + 1, workers := s.workers + [Worker(k, AtRun, false)])
  }

  /** A key that never ran has nothing to reset. */
  function Reset(s: Service, k: Key): Service {
    if k !in s.autos then s
    else WithAuto(s, k, s.autos[k].(err := "", updated := false, revision := s.autos[k].revision + 1))
  }

  function BeginRun(s: Service, w: nat): Service
    requires w < |s.workers|
  {
    var a := AutoOf(s, s.workers[w].key);
    WithPhase(s, w, InRun(a.revision, a.updated))
  }

  function ErrOf(o: Outcome): string {
    if o.failure.Some? then o.failure.value
    else if o.status == Unknown || o.status == Invalid then o.detail else ""
  }

  function UpdatedBy(o: Outcome, before: bool): bool {
    (o.attempted || before) && o.failure.None? && o.status == Installed
  }

  predicate Publishes(s: Service, w: nat)
    requires w < |s.workers| && s.workers[w].phase.InRun?
  {
    AutoOf(s, s.workers[w].key).revision == s.workers[w].phase.revision
  }

  function Finish(s: Service, w: nat, o: Outcome): Service
    requires w < |s.workers| && s.workers[w].phase.InRun?
  {
    var worker := s.workers[w];
    var a := AutoOf(s, worker.key);
    var s' := s.(workers := s.workers[w := Worker(worker.key, AtContinue, worker.attempted || o.attempted)]);
    if !Publishes(s, w) then s'
    else WithAuto(s', worker.key, a.(err := ErrOf(o), updated := UpdatedBy(o, worker.phase.updated)))
  }

  function Continue(s: Service, w: nat): Service
    requires w < |s.workers|
  {
    var k := s.workers[w].key;
    var a := AutoOf(s, k);
    var again := a.pending && !s.closed;
    WithAuto(WithPhase(s, w, if again then AtRun else Exited), k, a.(running := again, pending := false))
  }

  function Join(s: Service, w: nat): Service
    requires w < |s.workers| && s.runs > 0
  {
    WithPhase(s, w, Joined).(runs := s.runs - 1)
  }

  datatype Step =
    | DoBegin(key: Key)
    | DoReset(key: Key)
    | DoBeginRun(worker: nat)
    | DoFinish(worker: nat, outcome: Outcome)
    | DoContinue(worker: nat)
    | DoJoin(worker: nat)
    | DoClose

  predicate Enabled(s: Service, step: Step) {
    match step
    case DoBeginRun(w) => w < |s.workers| && s.workers[w].phase.AtRun?
    case DoFinish(w, _) => w < |s.workers| && s.workers[w].phase.InRun?
    case DoContinue(w) => w < |s.workers| && s.workers[w].phase.AtContinue?
    case DoJoin(w) => w < |s.workers| && s.workers[w].phase.Exited? && s.runs > 0
    case _ => true
  }

  function Next(s: Service, step: Step): Service
    requires Enabled(s, step)
  {
    match step
    case DoBegin(k) => Begin(s, k)
    case DoReset(k) => Reset(s, k)
    case DoBeginRun(w) => BeginRun(s, w)
    case DoFinish(w, o) => Finish(s, w, o)
    case DoContinue(w) => Continue(s, w)
    case DoJoin(w) => Join(s, w)
    case DoClose => s.(closed := true)
  }

  // ------------------------------------------------------------- invariant

  predicate Works(s: Service, w: nat, k: Key) {
    w < |s.workers| && s.workers[w].key == k && !s.workers[w].phase.Exited? && !s.workers[w].phase.Joined?
  }

  /** Workers Close still waits for. */
  function Unjoined(workers: seq<Worker>): nat {
    if workers == [] then 0
    else
      var n := |workers| - 1;
      Unjoined(workers[..n]) + (if workers[n].phase.Joined? then 0 else 1)
  }

  lemma {:induction false} UnjoinedUpdate(workers: seq<Worker>, w: nat, after: Worker)
    requires w < |workers|
    ensures Unjoined(workers[w := after]) + (if workers[w].phase.Joined? then 0 else 1)
         == Unjoined(workers) + (if after.phase.Joined? then 0 else 1)
  {
    var n := |workers| - 1;
    var workers' := workers[w := after];
    if w < n {
      UnjoinedUpdate(workers[..n], w, after);
      assert workers'[..n] == workers[..n][w := after];
    } else {
      assert workers'[..n] == workers[..n];
    }
  }

  lemma {:induction false} UnjoinedNone(workers: seq<Worker>, w: nat)
    requires w < |workers| && Unjoined(workers) == 0
    ensures workers[w].phase.Joined?
  {
    if !workers[w].phase.Joined? {
      UnjoinedUpdate(workers, w, workers[w].(phase := Joined));
    }
  }

  /** What a worker has read and done explains what is recorded as updated. */
  predicate WorkerOK(s: Service, w: nat)
    requires w < |s.workers|
  {
    var worker := s.workers[w];
    var a := AutoOf(s, worker.key);
    Works(s, w, worker.key) ==>
      && worker.key in s.autos && a.running
      && (a.updated ==> worker.attempted)
      && (worker.phase.InRun? ==> worker.phase.revision <= a.revision && (worker.phase.updated ==> worker.attempted))
  }

  ghost predicate Inv(s: Service) {
    && s.runs == Unjoined(s.workers)
    && (forall w: nat :: w < |s.workers| ==> WorkerOK(s, w))
    && (forall k, v: nat, w: nat :: Works(s, v, k) && Works(s, w, k) ==> v == w)
    && (forall k :: AutoOf(s, k).running ==> exists w: nat :: Works(s, w, k))
    && (forall k :: AutoOf(s, k).pending ==> AutoOf(s, k).running)
  }

  /** A begin starts one worker exactly if none works for the key. */
  lemma {:induction false} BeginWorks(s: Service, k: Key)
    requires Inv(s) && !s.closed
    ensures var s' := Begin(s, k);
            var n := |s.workers|;
      && s'.runs == Unjoined(s'.workers)
      && (AutoOf(s, k).running ==> forall j, w: nat :: Works(s', w, j) <==> Works(s, w, j))
      && (!AutoOf(s, k).running ==>
            && (forall w: nat :: !Works(s, w, k))
            && forall j, w: nat :: Works(s', w, j) <==> Works(s, w, j) || (w == n && j == k))
  {
    if !AutoOf(s, k).running {
      assert Begin(s, k).workers[..|s.workers|] == s.workers;
      forall w: nat ensures !Works(s, w, k) {
        if w < |s.workers| { assert WorkerOK(s, w); }
      }
    }
  }

  lemma {:induction false} BeginWorkersOK(s: Service, k: Key, w: nat)
    requires Inv(s) && w < |Begin(s, k).workers|
    ensures WorkerOK(Begin(s, k), w)
  {
    if w < |s.workers| { assert WorkerOK(s, w); }
  }

  lemma {:induction false} BeginHasWorker(s: Service, k: Key, j: Key)
    requires Inv(s) && AutoOf(Begin(s, k), j).running
    ensures exists w: nat :: Works(Begin(s, k), w, j)
  {
    if AutoOf(s, j).running {
      var w: nat :| Works(s, w, j);
      assert Works(Begin(s, k), w, j);
    } else {
      assert Works(Begin(s, k), |s.workers|, j);
    }
  }

  lemma {:induction false} BeginInv(s: Service, k: Key)
    requires Inv(s)
    ensures Inv(Begin(s, k))
  {
    var s' := Begin(s, k);
    if !s.closed {
      BeginWorks(s, k);
      forall w: nat | w < |s'.workers| ensures WorkerOK(s', w) { BeginWorkersOK(s, k, w); }
      forall j | AutoOf(s', j).running ensures exists w: nat :: Works(s', w, j) { BeginHasWorker(s, k, j); }
      assert forall j :: AutoOf(s', j).pending ==> AutoOf(s', j).running by {
        assert forall j :: j != k ==> AutoOf(s', j) == AutoOf(s, j);
        assert AutoOf(s, k).pending ==> AutoOf(s, k).running;
      }
    }
  }

  lemma {:induction false} ResetInv(s: Service, k: Key)
    requires Inv(s)
    ensures Inv(Reset(s, k))
  {
    var s' := Reset(s, k);
    assert forall j ::
        AutoOf(s', j).running == AutoOf(s, j).running && AutoOf(s', j).pending == AutoOf(s, j).pending;
    assert forall j, w: nat :: Works(s', w, j) <==> Works(s, w, j);
    forall w: nat | w < |s'.workers| ensures WorkerOK(s', w) { assert WorkerOK(s, w); }
    forall j | AutoOf(s', j).running ensures exists w: nat :: Works(s', w, j) {
      var w: nat :| Works(s, w, j);
      assert Works(s', w, j);
    }
  }

  /** A worker's own step that keeps it working. */
  lemma {:induction false} RunInvariant(s: Service, step: Step)
    requires Inv(s) && Enabled(s, step) && (step.DoBeginRun? || step.DoFinish?)
    ensures Inv(Next(s, step))
  {
    var s' := Next(s, step);
    var w := step.worker;
    var k := s.workers[w].key;
    assert Works(s, w, k) && WorkerOK(s, w);
    UnjoinedUpdate(s.workers, w, s'.workers[w]);
    assert forall j :: j != k ==> AutoOf(s', j) == AutoOf(s, j);
    assert forall j, v: nat :: Works(s', v, j) <==> Works(s, v, j);
    forall v: nat | v < |s'.workers| ensures WorkerOK(s', v) {
      assert WorkerOK(s, v);
      if v != w && s.workers[v].key == k { assert Works(s, v, k) ==> v == w; }
    }
    forall j | AutoOf(s', j).running ensures exists v: nat :: Works(s', v, j) {
      var v: nat :| Works(s, v, j);
      assert Works(s', v, j);
    }
  }

  lemma {:induction false} ContinueInv(s: Service, w: nat)
    requires Inv(s) && Enabled(s, DoContinue(w))
    ensures Inv(Continue(s, w))
  {
    var s' := Continue(s, w);
    var k := s.workers[w].key;
    assert Works(s, w, k) && WorkerOK(s, w);
    UnjoinedUpdate(s.workers, w, s'.workers[w]);
    assert forall j :: j != k ==> AutoOf(s', j) == AutoOf(s, j);
    assert forall j, v: nat :: Works(s', v, j) ==> Works(s, v, j);
    assert forall j, v: nat :: v != w ==> (Works(s', v, j) <==> Works(s, v, j));
    forall v: nat | v < |s'.workers| ensures WorkerOK(s', v) {
      assert WorkerOK(s, v);
      if v != w && s.workers[v].key == k { assert Works(s, v, k) ==> v == w; }
    }
    forall j | AutoOf(s', j).running ensures exists v: nat :: Works(s', v, j) {
      var v: nat :| Works(s, v, j);
      if j == k { assert Works(s', w, k); } else { assert Works(s', v, j); }
    }
  }

  lemma {:induction false} JoinInv(s: Service, w: nat)
    requires Inv(s) && Enabled(s, DoJoin(w))
    ensures Inv(Join(s, w))
  {
    var s' := Join(s, w);
    UnjoinedUpdate(s.workers, w, s'.workers[w]);
    assert forall j :: AutoOf(s', j) == AutoOf(s, j);
    assert forall j, v: nat :: Works(s', v, j) <==> Works(s, v, j);
    forall v: nat | v < |s'.workers| ensures WorkerOK(s', v) { assert WorkerOK(s, v); }
    forall j | AutoOf(s', j).running ensures exists v: nat :: Works(s', v, j) {
      var v: nat :| Works(s, v, j);
      assert Works(s', v, j);
    }
  }

  lemma {:induction false} CloseInv(s: Service)
    requires Inv(s)
    ensures Inv(s.(closed := true))
  {
    var s' := s.(closed := true);
    assert forall j :: AutoOf(s', j) == AutoOf(s, j);
    assert forall j, v: nat :: Works(s', v, j) <==> Works(s, v, j);
    forall v: nat | v < |s'.workers| ensures WorkerOK(s', v) { assert WorkerOK(s, v); }
    forall j | AutoOf(s', j).running ensures exists v: nat :: Works(s', v, j) {
      var v: nat :| Works(s, v, j);
      assert Works(s', v, j);
    }
  }

  lemma {:induction false} StepInv(s: Service, step: Step)
    requires Inv(s) && Enabled(s, step)
    ensures Inv(Next(s, step))
  {
    match step
    case DoBegin(k) => BeginInv(s, k);
    case DoReset(k) => ResetInv(s, k);
    case DoBeginRun(_) => RunInvariant(s, step);
    case DoFinish(_, _) => RunInvariant(s, step);
    case DoContinue(w) => ContinueInv(s, w);
    case DoJoin(w) => JoinInv(s, w);
    case DoClose => CloseInv(s);
  }

  // ------------------------------------------------------------------ runs

  predicate Allowed(s: Service, steps: seq<Step>)
    decreases steps
  {
    steps == [] || (Enabled(s, steps[0]) && Allowed(Next(s, steps[0]), steps[1..]))
  }

  function Run(s: Service, steps: seq<Step>): Service
    requires Allowed(s, steps)
    decreases steps
  {
    if steps == [] then s else Run(Next(s, steps[0]), steps[1..])
  }

  const NEW_SERVICE := Service(map[], false, 0, [])

  lemma {:induction false} RunInv(s: Service, steps: seq<Step>)
    requires Inv(s) && Allowed(s, steps)
    ensures Inv(Run(s, steps))
    decreases steps
  {
    if steps != [] {
      StepInv(s, steps[0]);
      RunInv(Next(s, steps[0]), steps[1..]);
    }
  }

  /** In every run: running says exactly whether a worker exists, and there is
      never a second one. */
  lemma {:induction false} OneWorker(steps: seq<Step>, k: Key)
    requires Allowed(NEW_SERVICE, steps)
    ensures var s := Run(NEW_SERVICE, steps);
      && (AutoOf(s, k).running <==> exists w: nat :: Works(s, w, k))
      && (forall v: nat, w: nat :: Works(s, v, k) && Works(s, w, k) ==> v == w)
  {
    RunInv(NEW_SERVICE, steps);
    var s := Run(NEW_SERVICE, steps);
    if w: nat :| Works(s, w, k) { assert WorkerOK(s, w); }
  }

  // -------------------------------------------------------- accepted starts

  /** A run is owed: one is queued, or the worker stands before one. */
  ghost predicate Owed(s: Service, k: Key) {
    exists w: nat :: Works(s, w, k) && (AutoOf(s, k).pending || s.workers[w].phase.AtRun?)
  }

  predicate RunsNow(s: Service, step: Step, k: Key) {
    step.DoBeginRun? && step.worker < |s.workers| && s.workers[step.worker].key == k
  }

  /** A run for the key begins somewhere in these steps. */
  predicate RunBegins(s: Service, steps: seq<Step>, k: Key)
    requires Allowed(s, steps)
    decreases steps
  {
    steps != [] && (RunsNow(s, steps[0], k) || RunBegins(Next(s, steps[0]), steps[1..], k))
  }

  lemma {:induction false} StepKeepsOwed(s: Service, step: Step, k: Key)
    requires Inv(s) && Enabled(s, step) && Owed(s, k) && !Next(s, step).closed && !RunsNow(s, step, k)
    ensures Owed(Next(s, step), k)
  {
    var s' := Next(s, step);
    var w: nat :| Works(s, w, k) && (AutoOf(s, k).pending || s.workers[w].phase.AtRun?);
    assert WorkerOK(s, w);
    if step.DoContinue? && step.worker != w {
      assert WorkerOK(s, step.worker);
      assert Works(s, step.worker, s.workers[step.worker].key);
    }
    if step.DoFinish? && step.worker != w {
      assert Works(s, step.worker, s.workers[step.worker].key);
    }
    assert Works(s', w, k) && (AutoOf(s', k).pending || s'.workers[w].phase.AtRun?);
  }

  lemma {:induction false} OwedUntilRun(s: Service, steps: seq<Step>, k: Key)
    requires Inv(s) && Allowed(s, steps) && Owed(s, k) && !Run(s, steps).closed
    ensures RunBegins(s, steps, k) || Owed(Run(s, steps), k)
    decreases steps
  {
    if steps != [] && !RunsNow(s, steps[0], k) {
      StepInv(s, steps[0]);
      if Next(s, steps[0]).closed { StaysClosed(Next(s, steps[0]), steps[1..]); }
      StepKeepsOwed(s, steps[0], k);
      OwedUntilRun(Next(s, steps[0]), steps[1..], k);
    }
  }

  lemma {:induction false} StaysClosed(s: Service, steps: seq<Step>)
    requires Allowed(s, steps) && s.closed
    ensures Run(s, steps).closed
    decreases steps
  {
    if steps != [] { StaysClosed(Next(s, steps[0]), steps[1..]); }
  }

  /** Every start accepted before Close is followed by a run that begins after
      it: once the worker is gone, a run has begun since. */
  lemma {:induction false} StartIsFollowedByRun(before: seq<Step>, k: Key, after: seq<Step>)
    requires Allowed(NEW_SERVICE, before)
    requires Allowed(Begin(Run(NEW_SERVICE, before), k), after)
    requires !Run(Begin(Run(NEW_SERVICE, before), k), after).closed
    ensures var s := Begin(Run(NEW_SERVICE, before), k);
            RunBegins(s, after, k) || (AutoOf(Run(s, after), k).running && Owed(Run(s, after), k))
  {
    RunInv(NEW_SERVICE, before);
    var s0 := Run(NEW_SERVICE, before);
    var s := Begin(s0, k);
    BeginInv(s0, k);
    if s0.closed { StaysClosed(s, after); }
    if AutoOf(s0, k).running {
      var w: nat :| Works(s0, w, k);
      assert Works(s, w, k);
    } else {
      assert Works(s, |s0.workers|, k);
    }
    assert Owed(s, k);
    OwedUntilRun(s, after, k);
    RunInv(s, after);
    if Owed(Run(s, after), k) {
      var w: nat :| Works(Run(s, after), w, k);
      assert WorkerOK(Run(s, after), w);
    }
  }

  /** Steps of its own a worker takes before its next run begins or it exits. */
  function Distance(phase: Phase): nat {
    match phase
    case AtRun => 0
    case AtContinue => 1
    case InRun(_, _) => 2
    case _ => 0
  }

  /** An owed run is never far: a worker can always move, and each of its moves
      brings the run one step closer, whatever else happens in between. */
  lemma {:induction false} OwedRunIsNear(s: Service, w: nat, step: Step, o: Outcome)
    requires Inv(s) && w < |s.workers| && Works(s, w, s.workers[w].key) && Owed(s, s.workers[w].key)
    requires Enabled(s, step) && !Next(s, step).closed
    ensures var own := step in [DoContinue(w), DoBeginRun(w)] || (step.DoFinish? && step.worker == w);
      && (own && !step.DoBeginRun? ==> Distance(Next(s, step).workers[w].phase) == Distance(s.workers[w].phase) - 1)
      && (!own ==> Next(s, step).workers[w].phase == s.workers[w].phase)
    ensures Enabled(s, DoBeginRun(w)) || Enabled(s, DoContinue(w)) || Enabled(s, DoFinish(w, o))
    ensures Distance(s.workers[w].phase) == 0 ==> Enabled(s, DoBeginRun(w))
  {
    var k := s.workers[w].key;
    var v: nat :| Works(s, v, k) && (AutoOf(s, k).pending || s.workers[v].phase.AtRun?);
    assert v == w;
  }

  // ---------------------------------------------------------------- results

  predicate Resets(steps: seq<Step>, k: Key) {
    exists i :: 0 <= i < |steps| && steps[i] == DoReset(k)
  }

  predicate Finishes(steps: seq<Step>, w: nat) {
    exists i :: 0 <= i < |steps| && steps[i].DoFinish? && steps[i].worker == w
  }

  lemma {:induction false} RevisionMoves(s: Service, step: Step, w: nat)
    requires Inv(s) && Enabled(s, step) && w < |s.workers| && s.workers[w].phase.InRun?
    requires !(step.DoFinish? && step.worker == w)
    ensures var s' := Next(s, step);
            var k := s.workers[w].key;
      && s'.workers[w] == s.workers[w]
      && AutoOf(s', k).revision == AutoOf(s, k).revision + (if step == DoReset(k) then 1 else 0)
  {
    assert WorkerOK(s, w);
  }

  lemma {:induction false} RevisionCounts(s: Service, steps: seq<Step>, w: nat)
    requires Inv(s) && Allowed(s, steps) && w < |s.workers| && s.workers[w].phase.InRun? && !Finishes(steps, w)
    ensures var s' := Run(s, steps);
            var k := s.workers[w].key;
      && w < |s'.workers| && s'.workers[w] == s.workers[w]
      && AutoOf(s', k).revision >= AutoOf(s, k).revision
      && (AutoOf(s', k).revision > AutoOf(s, k).revision <==> Resets(steps, k))
    decreases steps
  {
    if steps != [] {
      var k := s.workers[w].key;
      var rest := steps[1..];
      assert forall i :: 0 <= i < |rest| ==> rest[i] == steps[i + 1];
      assert steps[0] == DoReset(k) || Resets(rest, k) <==> Resets(steps, k) by {
        if i :| 0 <= i < |steps| && steps[i] == DoReset(k) {
          if i > 0 { assert rest[i - 1] == DoReset(k); }
        }
      }
      RevisionMoves(s, steps[0], w);
      StepInv(s, steps[0]);
      RevisionCounts(Next(s, steps[0]), rest, w);
    }
  }

  /** A failed run reports its error; one that found the tool's state unknown or
      invalid reports why; any other reports nothing. */
  predicate Reports(o: Outcome, err: string) {
    && (o.failure.Some? ==> err == o.failure.value)
    && (o.failure.None? && o.status in {Unknown, Invalid} ==> err == o.detail)
    && (o.failure.None? && o.status in {Installed, Outdated, Missing} ==> err == "")
  }

  /** A run's result is published exactly if nothing reset its tool and host
      since the run began, whatever else happened meanwhile. */
  lemma {:induction false} PublishedUnlessReset(before: seq<Step>, w: nat, during: seq<Step>, o: Outcome)
    requires Allowed(NEW_SERVICE, before) && Enabled(Run(NEW_SERVICE, before), DoBeginRun(w))
    requires Allowed(BeginRun(Run(NEW_SERVICE, before), w), during) && !Finishes(during, w)
    ensures var s := Run(BeginRun(Run(NEW_SERVICE, before), w), during);
      && Enabled(s, DoFinish(w, o))
      && (Publishes(s, w) <==> !Resets(during, s.workers[w].key))
      && (Resets(during, s.workers[w].key) ==> Finish(s, w, o).autos == s.autos)
      && (!Resets(during, s.workers[w].key) ==> Reports(o, AutoOf(Finish(s, w, o), s.workers[w].key).err))
  {
    RunInv(NEW_SERVICE, before);
    var s0 := Run(NEW_SERVICE, before);
    StepInv(s0, DoBeginRun(w));
    RevisionCounts(BeginRun(s0, w), during, w);
  }

  /** The last outcome published for the key since its last reset. */
  function LastSince(s: Service, step: Step, k: Key, last: Option<Outcome>): Option<Outcome>
    requires Enabled(s, step)
  {
    match step
    case DoReset(j) => if j == k then None else last
    case DoFinish(w, o) => if s.workers[w].key == k && Publishes(s, w) then Some(o) else last
    case _ => last
  }

  function LastPublished(s: Service, steps: seq<Step>, k: Key, last: Option<Outcome>): Option<Outcome>
    requires Allowed(s, steps)
    decreases steps
  {
    if steps == [] then last else LastPublished(Next(s, steps[0]), steps[1..], k, LastSince(s, steps[0], k, last))
  }

  predicate ErrorOf(last: Option<Outcome>, err: string) {
    if last.None? then err == "" else Reports(last.value, err)
  }

  lemma {:induction false} StepKeepsError(s: Service, step: Step, k: Key, last: Option<Outcome>)
    requires Enabled(s, step) && ErrorOf(last, AutoOf(s, k).err)
    ensures ErrorOf(LastSince(s, step, k, last), AutoOf(Next(s, step), k).err)
  {
  }

  /** In every run, the error recorded is the one that the last result published
      since the last reset reports; neither a new worker nor the end of one
      clears it. */
  lemma {:induction false} ErrorIsLastReported(steps: seq<Step>, k: Key)
    requires Allowed(NEW_SERVICE, steps)
    ensures ErrorOf(LastPublished(NEW_SERVICE, steps, k, None), AutoOf(Run(NEW_SERVICE, steps), k).err)
  {
    RunKeepsError(NEW_SERVICE, steps, k, None);
  }

  lemma {:induction false} RunKeepsError(s: Service, steps: seq<Step>, k: Key, last: Option<Outcome>)
    requires Allowed(s, steps) && ErrorOf(last, AutoOf(s, k).err)
    ensures ErrorOf(LastPublished(s, steps, k, last), AutoOf(Run(s, steps), k).err)
    decreases steps
  {
    if steps != [] {
      StepKeepsError(s, steps[0], k, last);
      RunKeepsError(Next(s, steps[0]), steps[1..], k, LastSince(s, steps[0], k, last));
    }
  }

  /** Nothing is recorded, and nothing read before can be published. */
  ghost predicate Forgotten(s: Service, k: Key) {
    && AutoOf(s, k).err == "" && !AutoOf(s, k).updated
    && forall w: nat :: Works(s, w, k) && s.workers[w].phase.InRun? ==>
         s.workers[w].phase.revision < AutoOf(s, k).revision
  }

  lemma {:induction false} StepKeepsForgotten(s: Service, step: Step, k: Key)
    requires Inv(s) && Enabled(s, step) && Forgotten(s, k) && !RunsNow(s, step, k)
    ensures Forgotten(Next(s, step), k)
  {
    var s' := Next(s, step);
    if step.DoFinish? { assert Works(s, step.worker, s.workers[step.worker].key); }
    forall w: nat | Works(s', w, k) && s'.workers[w].phase.InRun?
      ensures s'.workers[w].phase.revision < AutoOf(s', k).revision
    {
      assert w < |s.workers| && s'.workers[w] == s.workers[w];
      assert Works(s, w, k);
    }
  }

  /** After a reset no error and no success is recorded until a run that began
      after it has ended: results under way when it happened are lost. */
  lemma {:induction false} ResetForgetsUntilRun(s: Service, k: Key, steps: seq<Step>)
    requires Inv(s) && Allowed(Reset(s, k), steps) && !RunBegins(Reset(s, k), steps, k)
    ensures AutoOf(Run(Reset(s, k), steps), k).err == "" && !AutoOf(Run(Reset(s, k), steps), k).updated
  {
    ResetInv(s, k);
    forall w: nat | Works(Reset(s, k), w, k) && s.workers[w].phase.InRun?
      ensures s.workers[w].phase.revision < AutoOf(Reset(s, k), k).revision
    {
      assert WorkerOK(s, w);
    }
    StaysForgotten(Reset(s, k), k, steps);
  }

  lemma {:induction false} StaysForgotten(s: Service, k: Key, steps: seq<Step>)
    requires Inv(s) && Forgotten(s, k) && Allowed(s, steps) && !RunBegins(s, steps, k)
    ensures Forgotten(Run(s, steps), k)
    decreases steps
  {
    if steps != [] {
      StepKeepsForgotten(s, steps[0], k);
      StepInv(s, steps[0]);
      StaysForgotten(Next(s, steps[0]), k, steps[1..]);
    }
  }

  /** A recorded success is the current worker's own: some run of it attempted
      an update, so a fresh worker never inherits an earlier one's success. */
  lemma {:induction false} SuccessIsOwn(steps: seq<Step>, w: nat)
    requires Allowed(NEW_SERVICE, steps) && w < |Run(NEW_SERVICE, steps).workers|
    requires var s := Run(NEW_SERVICE, steps); Works(s, w, s.workers[w].key) && AutoOf(s, s.workers[w].key).updated
    ensures Run(NEW_SERVICE, steps).workers[w].attempted
  {
    RunInv(NEW_SERVICE, steps);
    assert WorkerOK(Run(NEW_SERVICE, steps), w);
  }

  predicate Succeeded(o: Outcome) {
    o.failure.None? && o.status == Installed
  }

  /** An update was attempted, and that run and all later ones ended with the
      tool installed. */
  ghost predicate Earned(outcomes: seq<Outcome>) {
    exists j ::
      && 0 <= j < |outcomes| && outcomes[j].attempted
      && forall i :: j <= i < |outcomes| ==> Succeeded(outcomes[i])
  }

  lemma {:induction false} EarnedSnoc(outcomes: seq<Outcome>, o: Outcome)
    ensures Earned(outcomes + [o]) <==> (o.attempted || Earned(outcomes)) && Succeeded(o)
  {
    var all := outcomes + [o];
    var n := |outcomes|;
    assert all[n] == o && forall i :: 0 <= i < n ==> all[i] == outcomes[i];
    if j :| 0 <= j < |all| && all[j].attempted && forall i :: j <= i < |all| ==> Succeeded(all[i]) {
      assert Succeeded(all[n]);
      if j < n { assert outcomes[j].attempted && forall i :: j <= i < n ==> Succeeded(outcomes[i]); }
    }
    if Earned(outcomes) && Succeeded(o) {
      var j :| 0 <= j < n && outcomes[j].attempted && forall i :: j <= i < n ==> Succeeded(outcomes[i]);
      assert all[j].attempted && forall i :: j <= i < |all| ==> Succeeded(all[i]);
    }
  }

  /** The outcomes published for the key since a reset or a new worker last
      cleared its record. */
  function PublishedSince(s: Service, step: Step, k: Key, published: seq<Outcome>): seq<Outcome>
    requires Enabled(s, step)
  {
    match step
    case DoReset(j) => if j == k then [] else published
    case DoBegin(j) => if j == k && !s.closed && !AutoOf(s, k).running then [] else published
    case DoFinish(w, o) => if s.workers[w].key == k && Publishes(s, w) then published + [o] else published
    case _ => published
  }

  function PublishedIn(s: Service, steps: seq<Step>, k: Key, published: seq<Outcome>): seq<Outcome>
    requires Allowed(s, steps)
    decreases steps
  {
    if steps == [] then published
    else PublishedIn(Next(s, steps[0]), steps[1..], k, PublishedSince(s, steps[0], k, published))
  }

  /** What is recorded is earned, and a run that may publish has read it. */
  ghost predicate Accounts(s: Service, k: Key, published: seq<Outcome>) {
    && (AutoOf(s, k).updated <==> Earned(published))
    && forall w: nat ::
         Works(s, w, k) && s.workers[w].phase.InRun? && s.workers[w].phase.revision == AutoOf(s, k).revision ==>
         s.workers[w].phase.updated == AutoOf(s, k).updated
  }

  lemma {:induction false} FinishAccounts(s: Service, w: nat, o: Outcome, k: Key, published: seq<Outcome>)
    requires Inv(s) && Enabled(s, DoFinish(w, o)) && Accounts(s, k, published)
    ensures Accounts(Finish(s, w, o), k, PublishedSince(s, DoFinish(w, o), k, published))
  {
    EarnedSnoc(published, o);
    assert Works(s, w, s.workers[w].key);
    assert forall v: nat :: v != w && v < |s.workers| ==> Finish(s, w, o).workers[v] == s.workers[v];
    assert forall v: nat :: Works(Finish(s, w, o), v, k) ==> Works(s, v, k);
  }

  lemma {:induction false} StepAccounts(s: Service, step: Step, k: Key, published: seq<Outcome>)
    requires Inv(s) && Enabled(s, step) && Accounts(s, k, published)
    ensures Accounts(Next(s, step), k, PublishedSince(s, step, k, published))
  {
    if step.DoFinish? {
      FinishAccounts(s, step.worker, step.outcome, k, published);
    } else if step.DoBegin? || step.DoReset? {
      EventAccounts(s, step, k, published);
    } else {
      WorkerAccounts(s, step, k, published);
    }
  }

  lemma {:induction false} EventAccounts(s: Service, step: Step, k: Key, published: seq<Outcome>)
    requires Inv(s) && Enabled(s, step) && Accounts(s, k, published) && (step.DoBegin? || step.DoReset?)
    ensures Accounts(Next(s, step), k, PublishedSince(s, step, k, published))
  {
    var s' := Next(s, step);
    forall w: nat |
      Works(s', w, k) && s'.workers[w].phase.InRun? && s'.workers[w].phase.revision == AutoOf(s', k).revision
      ensures s'.workers[w].phase.updated == AutoOf(s', k).updated
    {
      assert w < |s.workers| && Works(s, w, k) && WorkerOK(s, w);
    }
  }

  lemma {:induction false} WorkerAccounts(s: Service, step: Step, k: Key, published: seq<Outcome>)
    requires Inv(s) && Enabled(s, step) && Accounts(s, k, published)
    requires !step.DoFinish? && !step.DoBegin? && !step.DoReset?
    ensures Accounts(Next(s, step), k, PublishedSince(s, step, k, published))
  {
    var s' := Next(s, step);
    forall w: nat |
      Works(s', w, k) && s'.workers[w].phase.InRun? && s'.workers[w].phase.revision == AutoOf(s', k).revision
      ensures s'.workers[w].phase.updated == AutoOf(s', k).updated
    {
      assert w < |s.workers| && Works(s, w, k);
    }
  }

  lemma {:induction false} RunAccounts(s: Service, steps: seq<Step>, k: Key, published: seq<Outcome>)
    requires Inv(s) && Allowed(s, steps) && Accounts(s, k, published)
    ensures Accounts(Run(s, steps), k, PublishedIn(s, steps, k, published))
    decreases steps
  {
    if steps != [] {
      StepAccounts(s, steps[0], k, published);
      StepInv(s, steps[0]);
      RunAccounts(Next(s, steps[0]), steps[1..], k, PublishedSince(s, steps[0], k, published));
    }
  }

  /** In every run, an update is recorded exactly if, among the results
      published since the record was last cleared, one attempted it and it and
      all after it found the tool installed. */
  lemma {:induction false} SuccessIsEarned(steps: seq<Step>, k: Key)
    requires Allowed(NEW_SERVICE, steps)
    ensures AutoOf(Run(NEW_SERVICE, steps), k).updated <==> Earned(PublishedIn(NEW_SERVICE, steps, k, []))
  {
    RunAccounts(NEW_SERVICE, steps, k, []);
  }

  // ------------------------------------------------------------------ close

  /** The steps a worker can still take once nothing keeps it going. */
  function MovesLeft(workers: seq<Worker>): nat {
    if workers == [] then 0
    else
      var n := |workers| - 1;
      MovesLeft(workers[..n]) + (match workers[n].phase
                                 case AtRun => 4
                                 case InRun(_, _) => 3
                                 case AtContinue => 2
                                 case Exited => 1
                                 case Joined => 0)
  }

  lemma {:induction false} MovesOne(workers: seq<Worker>, w: nat, after: Worker)
    requires w < |workers|
    ensures MovesLeft(workers[w := after]) + MovesLeft([workers[w]]) == MovesLeft(workers) + MovesLeft([after])
  {
    var n := |workers| - 1;
    var workers' := workers[w := after];
    assert [workers[w]][..0] == [] && [after][..0] == [];
    if w < n {
      MovesOne(workers[..n], w, after);
      assert workers'[..n] == workers[..n][w := after];
    } else {
      assert workers'[..n] == workers[..n];
    }
  }

  predicate OfWorker(step: Step) {
    step.DoBeginRun? || step.DoFinish? || step.DoContinue? || step.DoJoin?
  }

  lemma {:induction false} MovesStep(s: Service, step: Step)
    requires s.closed && Enabled(s, step)
    ensures MovesLeft(Next(s, step).workers) + (if OfWorker(step) then 1 else 0) == MovesLeft(s.workers)
  {
    if OfWorker(step) {
      var w := step.worker;
      assert Next(s, step).workers == s.workers[w := Next(s, step).workers[w]];
      MovesOne(s.workers, w, Next(s, step).workers[w]);
      assert [s.workers[w]][..0] == [] && [Next(s, step).workers[w]][..0] == [];
    }
  }

  function WorkerSteps(steps: seq<Step>): nat {
    if steps == [] then 0 else (if OfWorker(steps[0]) then 1 else 0) + WorkerSteps(steps[1..])
  }

  /** Close ends: each step of a worker uses up one of finitely many, at most
      four for each worker, whatever else happens. */
  lemma {:induction false} CloseEnds(s: Service, steps: seq<Step>)
    requires s.closed && Allowed(s, steps)
    ensures WorkerSteps(steps) + MovesLeft(Run(s, steps).workers) == MovesLeft(s.workers) <= 4 * |s.workers|
    decreases steps
  {
    MovesBounded(s.workers);
    if steps != [] {
      MovesStep(s, steps[0]);
      CloseEnds(Next(s, steps[0]), steps[1..]);
    }
  }

  lemma {:induction false} MovesBounded(workers: seq<Worker>)
    ensures MovesLeft(workers) <= 4 * |workers|
  {
    if workers != [] { MovesBounded(workers[..|workers| - 1]); }
  }

  /** After Close no worker starts. */
  lemma {:induction false} NoWorkerAfterClose(s: Service, steps: seq<Step>)
    requires Inv(s) && s.closed && Allowed(s, steps)
    ensures var s' := Run(s, steps);
      && |s'.workers| == |s.workers|
      && (forall w: nat, k :: Works(s', w, k) ==> Works(s, w, k))
      && s'.runs <= s.runs
    decreases steps
  {
    if steps != [] {
      StepInv(s, steps[0]);
      NoWorkerAfterClose(Next(s, steps[0]), steps[1..]);
    }
  }

  /** Once Close's wait is over, every worker has gone, for good. */
  lemma {:induction false} CloseJoins(before: seq<Step>, after: seq<Step>)
    requires Allowed(NEW_SERVICE, before)
    requires var s := Run(NEW_SERVICE, before); s.closed && s.runs == 0 && Allowed(s, after)
    ensures var s' := Run(Run(NEW_SERVICE, before), after);
            forall w: nat, k :: !Works(s', w, k) && !AutoOf(s', k).running
  {
    RunInv(NEW_SERVICE, before);
    var s := Run(NEW_SERVICE, before);
    forall w: nat, k | Works(s, w, k) ensures false { UnjoinedNone(s.workers, w); }
    NoWorkerAfterClose(s, after);
    RunInv(s, after);
  }

  // ------------------------------------------------------------ the service

  function BeginAll(s: Service, keys: seq<Key>): Service
    decreases keys
  {
    if keys == [] then s else BeginAll(Begin(s, keys[0]), keys[1..])
  }

  function Added(s: Service, host: string, ids: seq<string>, enabled: set<string>): Service
    decreases ids
  {
    if ids == [] then s
    else
      var s' := Reset(s, (ids[0], host));
      Added(if ids[0] in enabled then Begin(s', (ids[0], host)) else s', host, ids[1..], enabled)
  }

  /** The earlier workers are left alone, and each new one is counted and stands
      before its first run. */
  ghost predicate KeepsWorkers(s: Service, s': Service) {
    && s'.closed == s.closed && |s.workers| <= |s'.workers| && s'.runs == s.runs + |s'.workers| - |s.workers|
    && (forall w: nat :: w < |s.workers| ==> s'.workers[w] == s.workers[w])
    && (forall w: nat :: |s.workers| <= w < |s'.workers| ==>
          s'.workers[w].phase == AtRun && !s'.workers[w].attempted)
  }

  ghost predicate HasNewWorker(s: Service, s': Service, k: Key) {
    exists w: nat :: |s.workers| <= w < |s'.workers| && s'.workers[w].key == k
  }

  lemma {:induction false} NewWorkersCompose(s: Service, s1: Service, s2: Service, k: Key)
    requires KeepsWorkers(s, s1) && KeepsWorkers(s1, s2)
    ensures KeepsWorkers(s, s2)
    ensures HasNewWorker(s, s2, k) <==> HasNewWorker(s, s1, k) || HasNewWorker(s1, s2, k)
  {
    if HasNewWorker(s, s1, k) {
      var w: nat :| |s.workers| <= w < |s1.workers| && s1.workers[w].key == k;
      assert s2.workers[w].key == k;
    }
    if w: nat :| |s.workers| <= w < |s2.workers| && s2.workers[w].key == k {
      if w < |s1.workers| { assert s1.workers[w].key == k; }
    }
  }

  /** What starting a key so many times makes of its record: a run is owed, and
      a second one if it was running or is started again; only a new worker
      clears an earlier success, and nothing clears the error. */
  predicate StartedTimes(before: Auto, after: Auto, times: nat) {
    if times == 0 then after == before
    else
      && after.running && (after.pending <==> before.running || times > 1)
      && after.err == before.err && after.revision == before.revision
      && (after.updated <==> before.running && before.updated)
  }

  lemma {:induction false} BeginStarts(s: Service, k: Key, j: Key)
    requires Inv(s) && !s.closed
    ensures var s' := Begin(s, j);
      && KeepsWorkers(s, s') && s.autos.Keys <= s'.autos.Keys
      && StartedTimes(AutoOf(s, k), AutoOf(s', k), if j == k then 1 else 0)
      && (HasNewWorker(s, s', k) <==> j == k && !AutoOf(s, k).running)
  {
    assert AutoOf(s, k).pending ==> AutoOf(s, k).running;
    if j == k && !AutoOf(s, k).running { assert Begin(s, j).workers[|s.workers|].key == k; }
  }

  lemma {:induction false} CountFirst<T>(xs: seq<T>, x: T)
    requires xs != []
    ensures multiset(xs)[x] == (if xs[0] == x then 1 else 0) + multiset(xs[1..])[x]
  {
    assert xs == [xs[0]] + xs[1..];
  }

  /** Starting a list of keys starts exactly those: each that was idle gets one
      worker, each that was running runs once more, and an unlisted key is left
      as it was. */
  lemma {:induction false} StartsEach(s: Service, keys: seq<Key>, k: Key)
    requires Inv(s)
    ensures var s' := BeginAll(s, keys);
      && (s.closed ==> s' == s)
      && (!s.closed ==> Inv(s') && KeepsWorkers(s, s'))
      && (!s.closed ==> StartedTimes(AutoOf(s, k), AutoOf(s', k), multiset(keys)[k]))
      && (!s.closed ==> (HasNewWorker(s, s', k) <==> k in keys && !AutoOf(s, k).running))
    decreases keys
  {
    if keys != [] {
      var s1 := Begin(s, keys[0]);
      BeginInv(s, keys[0]);
      StartsEach(s1, keys[1..], k);
      if !s.closed {
        BeginStarts(s, k, keys[0]);
        CountFirst(keys, k);
        NewWorkersCompose(s, s1, BeginAll(s1, keys[1..]), k);
        assert k in keys <==> k == keys[0] || k in keys[1..];
      }
    }
  }

  /** What a host added with a tool so many times makes of the tool's record
      there: no result is left, a run under way is outdated, and a run is owed
      if the tool is enabled. */
  predicate AddedTimes(known: bool, before: Auto, after: Auto, times: nat, starts: bool) {
    if times == 0 then after == before
    else
      && after.err == "" && !after.updated
      && (known ==> after.revision == before.revision + times)
      && (after.running <==> before.running || starts)
      && (after.pending <==> before.pending || (starts && (before.running || times > 1)))
  }

  lemma {:induction false} ResetRestarts(s: Service, k: Key, j: Key)
    ensures var s' := Reset(s, j);
      && s'.workers == s.workers && s'.closed == s.closed && s'.autos.Keys == s.autos.Keys && KeepsWorkers(s, s')
      && AddedTimes(k in s.autos, AutoOf(s, k), AutoOf(s', k), if j == k then 1 else 0, false)
  {
  }

  lemma {:induction false} StartAfterReset(known: bool, before: Auto, reset: Auto, after: Auto, times: nat)
    requires times <= 1 && AddedTimes(known, before, reset, times, false) && StartedTimes(reset, after, times)
    requires before.pending ==> before.running
    ensures AddedTimes(known, before, after, times, true)
  {
  }

  lemma {:induction false} ResetThenStarts(s: Service, k: Key, j: Key, on: bool)
    requires Inv(s)
    ensures var s' := if on then Begin(Reset(s, j), j) else Reset(s, j);
            var starts := on && !s.closed;
      && Inv(s') && KeepsWorkers(s, s') && s.autos.Keys <= s'.autos.Keys
      && AddedTimes(k in s.autos, AutoOf(s, k), AutoOf(s', k), if j == k then 1 else 0, starts)
      && (HasNewWorker(s, s', k) <==> j == k && starts && !AutoOf(s, k).running)
  {
    var s1 := Reset(s, j);
    ResetInv(s, j);
    ResetRestarts(s, k, j);
    if on {
      BeginInv(s1, j);
      if !s.closed {
        BeginStarts(s1, k, j);
        NewWorkersCompose(s, s1, Begin(s1, j), k);
        StartAfterReset(k in s.autos, AutoOf(s, k), AutoOf(s1, k), AutoOf(Begin(s1, j), k), if j == k then 1 else 0);
      }
    }
  }

  /** Adding a host resets each tool there and starts it if it is enabled: a
      result still under way is lost, an idle enabled tool gets one worker, and
      every other record is left as it was. */
  lemma {:induction false} AddedRestarts(s: Service, host: string, ids: seq<string>, enabled: set<string>, id: string,
      at: string)
    requires Inv(s)
    ensures var s' := Added(s, host, ids, enabled);
            var k := (id, at);
            var starts := id in enabled && !s.closed;
            var times := if at == host then multiset(ids)[id] else 0;
      && Inv(s') && KeepsWorkers(s, s')
      && AddedTimes(k in s.autos, AutoOf(s, k), AutoOf(s', k), times, starts)
      && (HasNewWorker(s, s', k) <==> times > 0 && starts && !AutoOf(s, k).running)
    decreases ids
  {
    if ids != [] {
      var j := (ids[0], host);
      var on := ids[0] in enabled;
      var s1 := if on then Begin(Reset(s, j), j) else Reset(s, j);
      ResetThenStarts(s, (id, at), j, on);
      AddedRestarts(s1, host, ids[1..], enabled, id, at);
      CountFirst(ids, id);
      NewWorkersCompose(s, s1, Added(s1, host, ids[1..], enabled), (id, at));
    }
  }

  class GlobalAuto {
    var autos: map<Key, Auto>
    var closed: bool
    var runs: nat
    var workers: seq<Worker>

    ghost function View(): Service
      reads this
    {
      Service(autos, closed, runs, workers)
    }

    constructor ()
      ensures View() == NEW_SERVICE
    {
      autos, closed, runs, workers := map[], false, 0, [];
    }

    method Lookup(k: Key) returns (a: Auto)
      ensures a == AutoOf(View(), k)
    {
      a := if k in autos then autos[k] else IDLE;
    }

    method StartOne(k: Key)
      modifies this
      ensures View() == Begin(old(View()), k)
    {
      if closed { return; }
      var previous := Lookup(k);
      if previous.running {
        autos := autos[k := previous.(pending := true)];
        return;
      }
      autos := autos[k := previous.(updated := false, running := true)];
      runs := runs + 1;
      workers := workers + [Worker(k, AtRun, false)];
    }

    /** One start per configured host, the local one first. */
    method StartAutoUpdates(id: string, hosts: seq<string>, enabled: bool)
      modifies this
      ensures View() == if enabled then BeginAll(old(View()), seq(|hosts| + 1, i requires 0 <= i <= |hosts| =>
                          (id, if i == 0 then "" else hosts[i - 1]))) else old(View())
    {
      if !enabled { return; }
      var names := [""] + hosts;
      ghost var keys := seq(|hosts| + 1, i requires 0 <= i <= |hosts| => (id, if i == 0 then "" else hosts[i - 1]));
      assert keys[0..] == keys;
      for i := 0 to |names|
        invariant BeginAll(View(), keys[i..]) == BeginAll(old(View()), keys)
      {
        assert keys[i..][0] == (id, names[i]) && keys[i..][1..] == keys[i + 1..];
        StartOne((id, names[i]));
      }
    }

    method ResetOne(k: Key)
      modifies this
      ensures View() == Reset(old(View()), k)
    {
      if k in autos {
        var auto := autos[k].(err := "", updated := false);
        auto := auto.(revision := auto.revision + 1);
        autos := autos[k := auto];
      }
    }

    method AfterHostAdded(host: string, ids: seq<string>, enabled: set<string>)
      modifies this
      ensures View() == Added(old(View()), host, ids, enabled)
    {
      assert ids[0..] == ids;
      for i := 0 to |ids|
        invariant Added(View(), host, ids[i..], enabled) == Added(old(View()), host, ids, enabled)
      {
        assert ids[i..][0] == ids[i] && ids[i..][1..] == ids[i + 1..];
        ResetOne((ids[i], host));
        if ids[i] in enabled { StartOne((ids[i], host)); }
      }
    }

    method ReadRevision(w: nat)
      requires Enabled(View(), DoBeginRun(w))
      modifies this
      ensures View() == BeginRun(old(View()), w)
    {
      var previous := Lookup(workers[w].key);
      workers := workers[w := workers[w].(phase := InRun(previous.revision, previous.updated))];
    }

    method FinishRun(w: nat, o: Outcome) returns (published: bool)
      requires Enabled(View(), DoFinish(w, o))
      modifies this
      ensures View() == Finish(old(View()), w, o)
      ensures published == Publishes(old(View()), w)
    {
      var worker := workers[w];
      var err := "";
      if o.failure.Some? {
        err := o.failure.value;
      } else if o.status == Unknown || o.status == Invalid {
        err := o.detail;
      }
      var updated := (o.attempted || worker.phase.updated) && o.failure.None? && o.status == Installed;
      workers := workers[w := Worker(worker.key, AtContinue, worker.attempted || o.attempted)];
      var current := Lookup(worker.key);
      if current.revision != worker.phase.revision { return false; }
      autos := autos[worker.key := Auto(err, worker.phase.revision, current.running, updated, current.pending)];
      published := true;
    }

    method ContinueOrExit(w: nat) returns (again: bool)
      requires Enabled(View(), DoContinue(w))
      modifies this
      ensures View() == Continue(old(View()), w)
      ensures again == AutoOf(View(), old(workers[w].key)).running
    {
      var k := workers[w].key;
      var current := Lookup(k);
      if closed { current := current.(pending := false); }
      current := current.(running := current.pending, pending := false);
      autos := autos[k := current];
      workers := workers[w := workers[w].(phase := if current.running then AtRun else Exited)];
      again := current.running;
    }

    method Done(w: nat)
      requires Enabled(View(), DoJoin(w))
      modifies this
      ensures View() == Join(old(View()), w)
    {
      workers := workers[w := workers[w].(phase := Joined)];
      runs := runs - 1;
    }

    method Close()
      modifies this
      ensures View() == old(View()).(closed := true)
    {
      closed := true;
    }
  }
}
