/** The task event stream: what was last observed on every host, the frames
    that publish each change, and the receiver that folds them.

    The functions here are the specification: what a step makes of the model
    and of the log of all frames published so far. The class of module
    TaskEventsModel is the code's own form, proved against them. */
module TaskEvents {
  import opened Text

  datatype HostStatus = Pending | Ok | Connecting | Failed

  datatype State = NoState | Busy | Wait | Idle | Run | Unknown | Stop

  datatype Location = Location(kind: string, tmuxSession: string, paneID: string, attachable: bool)

  /** One observed task. */
  datatype Task = Task(
    statusSince: Option<int>, id: string, host: string, agent: string, sessionID: string,
    cwd: string, state: State, waitingFor: string, waitSignature: string, location: Location)

  /** What is published about one running task. */
  datatype TaskView = TaskView(
    statusSince: Option<int>, id: string, host: string, agent: string, sessionID: string,
    cwd: string, state: State, waitingFor: string, waitID: string, location: Location)

  datatype HostView = HostView(name: string, status: HostStatus, error: string)

  datatype FrameOp = Added | Changed | Removed

  datatype Frame =
    | SnapshotFrame(epoch: string, seqNo: nat, hosts: seq<HostView>, tasks: seq<TaskView>)
    | HostFrame(epoch: string, seqNo: nat, op: FrameOp, host: HostView)
    | TaskFrame(epoch: string, seqNo: nat, op: FrameOp, prevState: State, task: TaskView)

  datatype EventHost = EventHost(view: HostView, tasks: map<string, TaskView>)

  datatype Model = Model(epoch: string, seqNo: nat, hosts: map<string, EventHost>)

  /** The model together with every frame published so far. */
  datatype Stream = Stream(m: Model, log: seq<Frame>)

  // ----------------------------------------------------------------- views

  predicate SameView(a: TaskView, b: TaskView) {
    a.(statusSince := None) == b.(statusSince := None)
  }

  /** Stands for an unsigned wait ID that is not assigned yet. */
  const PENDING_WAIT_ID := "\0pending"

  function UnsignedWaitID(epoch: string, seqNo: nat): string {
    "e1-" + epoch + "-" + Itoa(seqNo)
  }

  predicate IsUnsignedWaitID(id: string) {
    "e1-" <= id
  }

  /** The view of an observed task whose new unsigned wait, if it starts one,
      is to be named `newID`. */
  function ViewOf(task: Task, prev: Option<TaskView>, newID: string): TaskView {
    var v := TaskView(task.statusSince, task.id, task.host, task.agent, task.sessionID, task.cwd,
                      task.state, "", "", task.location);
    if task.state != Wait then v
    else
      v.(waitingFor := task.waitingFor, waitID :=
        if task.waitSignature != "" then task.waitSignature
        else if prev.Some? && prev.value.state == Wait && prev.value.waitingFor == task.waitingFor
                && IsUnsignedWaitID(prev.value.waitID) then prev.value.waitID
        else newID)
  }

  // ----------------------------------------------------------------- steps

  function PublishHost(s: Stream, op: FrameOp, view: HostView): Stream {
    Stream(s.m.(seqNo := s.m.seqNo + 1), s.log + [HostFrame(s.m.epoch, s.m.seqNo + 1, op, view)])
  }

  function PublishTask(s: Stream, op: FrameOp, prev: State, view: TaskView): Stream {
    Stream(s.m.(seqNo := s.m.seqNo + 1), s.log + [TaskFrame(s.m.epoch, s.m.seqNo + 1, op, prev, view)])
  }

  function WithHost(s: Stream, name: string, h: EventHost): Stream {
    s.(m := s.m.(hosts := s.m.hosts[name := h]))
  }

  function WithoutHost(s: Stream, name: string): Stream {
    s.(m := s.m.(hosts := s.m.hosts - {name}))
  }

  function RemoveTask(s: Stream, name: string, id: string): Stream
    requires name in s.m.hosts && id in s.m.hosts[name].tasks
  {
    var h := s.m.hosts[name];
    var view := h.tasks[id];
    PublishTask(WithHost(s, name, h.(tasks := h.tasks - {id})), Removed, view.state, view)
  }

  /** Removes, in the order of `ids`, each task of the host not in `keep`. */
  function RemoveTasks(s: Stream, name: string, ids: seq<string>, keep: set<string>): Stream
    requires name in s.m.hosts
    decreases ids
  {
    if ids == [] then s
    else RemoveTasks(RemoveTaskUnless(s, name, ids[0], keep), name, ids[1..], keep)
  }

  function RemoveTaskUnless(s: Stream, name: string, id: string, keep: set<string>): Stream
    requires name in s.m.hosts
  {
    if id in s.m.hosts[name].tasks && id !in keep then RemoveTask(s, name, id) else s
  }

  function RemoveHost(s: Stream, name: string): Stream
    requires name in s.m.hosts
  {
    var h := s.m.hosts[name];
    var s' := RemoveTasks(s, name, Sorted(h.tasks.Keys), {});
    PublishHost(WithoutHost(s', name), Removed, h.view)
  }

  function RemoveHosts(s: Stream, names: seq<string>, keep: set<string>): Stream
    decreases names
  {
    if names == [] then s
    else RemoveHosts(RemoveHostUnless(s, names[0], keep), names[1..], keep)
  }

  function RemoveHostUnless(s: Stream, name: string, keep: set<string>): Stream {
    if name in s.m.hosts && name !in keep then RemoveHost(s, name) else s
  }

  function AddHosts(s: Stream, names: seq<string>): Stream
    decreases names
  {
    if names == [] then s else AddHosts(AddHost(s, names[0]), names[1..])
  }

  function AddHost(s: Stream, name: string): Stream {
    if name in s.m.hosts then s
    else
      var view := HostView(name, Pending, "");
      PublishHost(WithHost(s, name, EventHost(view, map[])), Added, view)
  }

  function SyncHosts(s: Stream, names: seq<string>): Stream {
    AddHosts(RemoveHosts(s, Sorted(s.m.hosts.Keys), set n | n in names), SortedList(names))
  }

  function SetHostView(s: Stream, name: string, view: HostView): Stream
    requires name in s.m.hosts
  {
    PublishHost(WithHost(s, name, s.m.hosts[name].(view := view)), Changed, view)
  }

  function SetStatus(s: Stream, name: string, view: HostView): Stream
    requires name in s.m.hosts
  {
    if view != s.m.hosts[name].view then SetHostView(s, name, view) else s
  }

  function MarkHosts(s: Stream, names: seq<string>): Stream
    decreases names
  {
    if names == [] then s else MarkHosts(MarkHost(s, names[0]), names[1..])
  }

  function MarkHost(s: Stream, name: string): Stream {
    if name in s.m.hosts && s.m.hosts[name].view.status != Pending then
      SetHostView(s, name, HostView(name, Pending, ""))
    else s
  }

  function MarkPending(s: Stream): Stream {
    MarkHosts(s, Sorted(s.m.hosts.Keys))
  }

  /** The running tasks of an observation, the first of each ID. */
  function Current(observed: seq<Task>): (r: map<string, Task>)
    ensures forall id :: id in r ==> r[id].id == id && r[id].state != Stop && r[id] in observed
  {
    if observed == [] then map[]
    else
      var n := |observed| - 1;
      var r := Current(observed[..n]);
      var task := observed[n];
      if task.state == Stop || task.id in r then r else r[task.id := task]
  }

  /** Records one running task of the host and publishes how it differs. */
  function PutTask(s: Stream, name: string, task: Task): Stream
    requires name in s.m.hosts
  {
    var h := s.m.hosts[name];
    var prev := if task.id in h.tasks then Some(h.tasks[task.id]) else None;
    var next := ViewOf(task, prev, UnsignedWaitID(s.m.epoch, s.m.seqNo + 1));
    var s' := WithHost(s, name, h.(tasks := h.tasks[task.id := next]));
    if prev.None? then PublishTask(s', Added, NoState, next)
    else if !SameView(prev.value, next) then PublishTask(s', Changed, prev.value.state, next)
    else s'
  }

  function PutTasks(s: Stream, name: string, ids: seq<string>, current: map<string, Task>): Stream
    requires name in s.m.hosts
    requires forall id :: id in ids ==> id in current
    decreases ids
  {
    if ids == [] then s
    else PutTasks(PutTask(s, name, current[ids[0]]), name, ids[1..], current)
  }

  /** One observation of a host: its status and, when it answered, its tasks. */
  function ApplyHost(s: Stream, name: string, status: HostStatus, error: string, observed: seq<Task>): Stream {
    if name !in s.m.hosts then s
    else
      var s1 := SetStatus(s, name, HostView(name, status, error));
      if status != Ok then s1 else ReplaceTasks(s1, name, Current(observed))
  }

  /** Makes the host's tasks the running ones observed, the gone ones first. */
  function ReplaceTasks(s: Stream, name: string, current: map<string, Task>): Stream
    requires name in s.m.hosts
  {
    var ids := Sorted(s.m.hosts[name].tasks.Keys);
    RemoveTasksKeepsHost(s, name, ids, current.Keys);
    PutTasks(RemoveTasks(s, name, ids, current.Keys), name, Sorted(current.Keys), current)
  }

  /** Removing tasks of a host leaves every host's view, and the other hosts,
      as they are, and removes exactly the listed tasks outside `keep`. */
  lemma {:induction false} RemoveTasksKeepsHost(s: Stream, name: string, ids: seq<string>, keep: set<string>)
    requires name in s.m.hosts
    ensures var s' := RemoveTasks(s, name, ids, keep);
      && name in s'.m.hosts
      && s'.m.hosts == s.m.hosts[name := s.m.hosts[name].(tasks :=
                         s.m.hosts[name].tasks - (set id | id in ids && id !in keep))]
    decreases ids
  {
    var gone := set id | id in ids && id !in keep;
    if ids == [] {
      assert s.m.hosts[name].tasks - gone == s.m.hosts[name].tasks;
    } else {
      var rest := set id | id in ids[1..] && id !in keep;
      assert forall id :: id in ids <==> id == ids[0] || id in ids[1..];
      if ids[0] in s.m.hosts[name].tasks && ids[0] !in keep {
        RemoveTasksKeepsHost(RemoveTask(s, name, ids[0]), name, ids[1..], keep);
        assert s.m.hosts[name].tasks - gone == (s.m.hosts[name].tasks - {ids[0]}) - rest;
      } else {
        RemoveTasksKeepsHost(s, name, ids[1..], keep);
        assert s.m.hosts[name].tasks - gone == s.m.hosts[name].tasks - rest;
      }
    }
  }

  // -------------------------------------------------------------- snapshots

  function HostViews(m: Model, names: seq<string>): seq<HostView>
    requires forall n :: n in names ==> n in m.hosts
  {
    if names == [] then [] else [m.hosts[names[0]].view] + HostViews(m, names[1..])
  }

  function Views(tasks: map<string, TaskView>, ids: seq<string>): seq<TaskView>
    requires forall id :: id in ids ==> id in tasks
  {
    if ids == [] then [] else [tasks[ids[0]]] + Views(tasks, ids[1..])
  }

  function TaskViews(m: Model, names: seq<string>): seq<TaskView>
    requires forall n :: n in names ==> n in m.hosts
  {
    if names == [] then []
    else
      var tasks := m.hosts[names[0]].tasks;
      Views(tasks, Sorted(tasks.Keys)) + TaskViews(m, names[1..])
  }

  /** `slices.SortFunc` by task ID. */
  function SortedByID(views: seq<TaskView>): (r: seq<TaskView>)
    ensures multiset(r) == multiset(views)
  {
    if views == [] then [] else
      assert views == [views[0]] + views[1..];
      InsertedByID(views[0], SortedByID(views[1..]))
  }

  function InsertedByID(v: TaskView, sorted: seq<TaskView>): (r: seq<TaskView>)
    ensures multiset(r) == multiset(sorted) + multiset{v}
  {
    if sorted == [] then [v]
    else if Le(v.id, sorted[0].id) then [v] + sorted
    else
      assert sorted == [sorted[0]] + sorted[1..];
      [sorted[0]] + InsertedByID(v, sorted[1..])
  }

  function Snapshot(m: Model): Frame {
    var names := Sorted(m.hosts.Keys);
    SnapshotFrame(m.epoch, m.seqNo, HostViews(m, names), SortedByID(TaskViews(m, names)))
  }

  // --------------------------------------------------------------- receiver

  /** The views agree in everything a change of which is worth a frame. */
  predicate Agree(a: TaskView, b: TaskView) {
    && a.id == b.id && a.host == b.host && a.agent == b.agent && a.sessionID == b.sessionID && a.cwd == b.cwd
    && a.state == b.state && a.waitingFor == b.waitingFor && a.waitID == b.waitID && a.location == b.location
  }

  /** A receiver's copy of the model. */
  datatype Store = Store(epoch: string, seqNo: nat, hosts: map<string, HostView>, tasks: map<string, TaskView>)

  function HostMap(views: seq<HostView>): map<string, HostView> {
    if views == [] then map[]
    else var n := |views| - 1; HostMap(views[..n])[views[n].name := views[n]]
  }

  function TaskMap(views: seq<TaskView>): map<string, TaskView> {
    if views == [] then map[]
    else var n := |views| - 1; TaskMap(views[..n])[views[n].id := views[n]]
  }

  /** Applies one frame; None when the receiver refuses it and reconnects. */
  function Receive(store: Store, f: Frame): Option<Store> {
    if f.SnapshotFrame? then Some(Store(f.epoch, f.seqNo, HostMap(f.hosts), TaskMap(f.tasks)))
    else if f.epoch != store.epoch || f.seqNo != store.seqNo + 1 then None
    else
      var next := store.(seqNo := f.seqNo);
      if f.TaskFrame? then
        Some(next.(tasks := if f.op == Removed then store.tasks - {f.task.id} else store.tasks[f.task.id := f.task]))
      else
        Some(next.(hosts :=
          if f.op == Removed then store.hosts - {f.host.name} else store.hosts[f.host.name := f.host]))
  }

  function FromSnapshot(f: Frame): Store
    requires f.SnapshotFrame?
  {
    Store(f.epoch, f.seqNo, HostMap(f.hosts), TaskMap(f.tasks))
  }

  /** What the documentation says a change frame says, of a store that has
      seen everything before it: an addition is new, a change is one, a
      removal is of what is held, the state before is the state held, and a
      task belongs to a host the store has. */
  predicate Consistent(store: Store, f: Frame) {
    match f
    case SnapshotFrame(_, _, _, _) => true
    case HostFrame(_, _, op, host) =>
      if op == Added then host.name !in store.hosts
      else host.name in store.hosts && (op == Changed <==> store.hosts[host.name] != host)
           && (op == Removed ==> forall id :: id in store.tasks ==> store.tasks[id].host != host.name)
    case TaskFrame(_, _, op, prev, task) =>
      && task.host in store.hosts
      && if op == Added then task.id !in store.tasks && prev == NoState
         else task.id in store.tasks && prev == store.tasks[task.id].state
              && (op == Changed <==> !Agree(store.tasks[task.id], task))
  }

  /** Folds frames into a store, refusing an inconsistent frame too. */
  function Fold(store: Store, frames: seq<Frame>): Option<Store> {
    if frames == [] then Some(store)
    else
      var n := |frames| - 1;
      match Fold(store, frames[..n])
      case None => None
      case Some(s) => if Consistent(s, frames[n]) then Receive(s, frames[n]) else None
  }

  /** Equal stores up to StatusSince, which is carried and never compared. */
  ghost predicate SameStore(a: Store, b: Store) {
    && a.epoch == b.epoch && a.seqNo == b.seqNo && a.hosts == b.hosts
    && a.tasks.Keys == b.tasks.Keys
    && forall id :: id in a.tasks ==> Agree(a.tasks[id], b.tasks[id])
  }

  // ------------------------------------------------------------------- runs

  datatype Op =
    | Sync(names: seq<string>)
    | Mark
    | Observe(name: string, status: HostStatus, error: string, observed: seq<Task>)

  function Step(s: Stream, op: Op): Stream {
    match op
    case Sync(names) => SyncHosts(s, names)
    case Mark => MarkPending(s)
    case Observe(name, status, error, observed) => ApplyHost(s, name, status, error, observed)
  }

  function Exec(s: Stream, ops: seq<Op>): Stream
    decreases ops
  {
    if ops == [] then s else Exec(Step(s, ops[0]), ops[1..])
  }

  predicate ValidSignature(signature: string) {
    !IsUnsignedWaitID(signature) && signature != PENDING_WAIT_ID
  }

  /** What the collection guarantees of an observation of a host: its tasks
      carry the host's name, no other host has a task of the same ID, and a
      wait signature is neither the sentinel nor in the unsigned form. */
  ghost predicate Admissible(s: Stream, op: Op) {
    op.Observe? ==> forall t :: t in op.observed ==>
      && t.host == op.name
      && ValidSignature(t.waitSignature)
      && forall n :: n in s.m.hosts && n != op.name ==> t.id !in s.m.hosts[n].tasks
  }

  ghost predicate AdmissibleRun(s: Stream, ops: seq<Op>)
    decreases ops
  {
    ops == [] || (Admissible(s, ops[0]) && AdmissibleRun(Step(s, ops[0]), ops[1..]))
  }

  function Initial(epoch: string): Stream {
    Stream(Model(epoch, 0, map[]), [])
  }
}
