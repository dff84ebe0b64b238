/** What a wait ID names, over whole runs. */
module TaskEventsWaits {
  // An unsigned wait ID is made from the number of the frame that publishes the
  // wait, so it names that wait and no other.

  import opened Text
  import opened TaskEvents
  import opened TaskEventsReplay

  /** Neither number nor epoch is lost in an ID, whatever the epoch looks like. */
  lemma {:induction false} UnsignedWaitIDInjective(epoch: string, j: nat, epoch': string, k: nat)
    requires UnsignedWaitID(epoch, j) == UnsignedWaitID(epoch', k)
    ensures epoch == epoch' && j == k
  {
    var head := "e1-" + epoch + "-";
    var head' := "e1-" + epoch' + "-";
    LastDash(head, j, head', k);
    LastDash(head', k, head, j);
    assert UnsignedWaitID(epoch, j)[|head|..] == Itoa(j);
    assert UnsignedWaitID(epoch', k)[|head|..] == Itoa(k);
    ItoaInjective(j, k);
    assert head[3..|head| - 1] == epoch && head'[3..|head'| - 1] == epoch';
    assert head == UnsignedWaitID(epoch, j)[..|head|] && head' == UnsignedWaitID(epoch', k)[..|head|];
  }

  /** A number has no dash, so the last dash ends the longer head. */
  lemma {:induction false} LastDash(head: string, j: nat, head': string, k: nat)
    requires head + Itoa(j) == head' + Itoa(k)
    requires head' != "" && head'[|head'| - 1] == '-'
    ensures |head'| <= |head|
  {
    ItoaDigits(j);
    var all := head + Itoa(j);
    assert all[|head'| - 1] == (head' + Itoa(k))[|head'| - 1] == '-';
    assert forall i :: |head| <= i < |all| ==> all[i] == Itoa(j)[i - |head|];
  }

  /** The frame publishes the task `id` in a wait for `reason` named `waitID`. */
  predicate Carries(f: Frame, waitID: string, id: string, reason: string) {
    f.TaskFrame? && f.task.id == id && f.task.waitID == waitID && f.task.state == Wait && f.task.waitingFor == reason
  }

  predicate About(f: Frame, id: string) {
    f.TaskFrame? && f.task.id == id
  }

  /** The view's wait began with frame number k, which named it, and every
      frame about that task from there up to position `upto` is in it and
      leaves the task there. */
  ghost predicate WaitSince(log: seq<Frame>, epoch: string, v: TaskView, upto: nat, k: nat) {
    && 1 <= k <= upto <= |log|
    && v.waitID == UnsignedWaitID(epoch, k)
    && About(log[k - 1], v.id)
    && forall j :: k - 1 <= j < upto && About(log[j], v.id) ==>
         Carries(log[j], v.waitID, v.id, v.waitingFor) && log[j].op != Removed
  }

  ghost predicate Named(log: seq<Frame>, epoch: string, v: TaskView, upto: nat) {
    exists k :: WaitSince(log, epoch, v, upto, k)
  }

  /** Where the wait a task frame tells of is still on: behind the frame, or
      before it if the frame removes the task. */
  function Upto(f: Frame, j: nat): nat
    requires f.TaskFrame?
  {
    if f.op == Removed then j else j + 1
  }

  ghost predicate FrameTraced(log: seq<Frame>, epoch: string, j: nat)
    requires j < |log|
  {
    && !log[j].SnapshotFrame? && log[j].epoch == epoch && log[j].seqNo == j + 1
    && (log[j].TaskFrame? ==>
          && WaitIDFits(log[j].task)
          && (IsUnsignedWaitID(log[j].task.waitID) ==> Named(log, epoch, log[j].task, Upto(log[j], j))))
  }

  /** The log is one uninterrupted stream, and every unsigned wait ID in it or
      in the model names one wait. */
  ghost predicate Traced(s: Stream) {
    && |s.log| == s.m.seqNo
    && (forall j :: 0 <= j < |s.log| ==> FrameTraced(s.log, s.m.epoch, j))
    && (forall n, id :: HasTask(s.m, n, id) && IsUnsignedWaitID(TaskAt(s.m, n, id).waitID) ==>
          Named(s.log, s.m.epoch, TaskAt(s.m, n, id), |s.log|))
  }

  lemma {:induction false} NamedGrows(log: seq<Frame>, epoch: string, v: TaskView, upto: nat, f: Frame)
    requires Named(log, epoch, v, upto)
    ensures Named(log + [f], epoch, v, upto)
    ensures upto == |log| && (About(f, v.id) ==> Carries(f, v.waitID, v.id, v.waitingFor) && f.op != Removed) ==>
              Named(log + [f], epoch, v, upto + 1)
  {
    var k :| WaitSince(log, epoch, v, upto, k);
    assert WaitSince(log + [f], epoch, v, upto, k);
    if upto == |log| && (About(f, v.id) ==> Carries(f, v.waitID, v.id, v.waitingFor) && f.op != Removed) {
      assert WaitSince(log + [f], epoch, v, upto + 1, k);
    }
  }

  /** Named is about the wait only, not the rest of the view. */
  lemma {:induction false} NamedSameWait(log: seq<Frame>, epoch: string, v: TaskView, w: TaskView, upto: nat)
    requires Named(log, epoch, v, upto)
    requires w.id == v.id && w.waitID == v.waitID && w.waitingFor == v.waitingFor
    ensures Named(log, epoch, w, upto)
  {
    var k :| WaitSince(log, epoch, v, upto, k);
    assert WaitSince(log, epoch, w, upto, k);
  }

  lemma {:induction false} NamedBorn(log: seq<Frame>, epoch: string, f: Frame)
    requires f.TaskFrame? && f.op != Removed && f.task.state == Wait
    requires f.task.waitID == UnsignedWaitID(epoch, |log| + 1)
    ensures Named(log + [f], epoch, f.task, |log| + 1)
  {
    assert WaitSince(log + [f], epoch, f.task, |log| + 1, |log| + 1);
  }

  /** Appending a frame that is itself traced keeps every earlier frame so. */
  lemma {:induction false} FramesTraced(s: Stream, f: Frame)
    requires Traced(s) && !f.SnapshotFrame? && f.epoch == s.m.epoch && f.seqNo == s.m.seqNo + 1
    requires f.TaskFrame? ==>
      && WaitIDFits(f.task)
      && (IsUnsignedWaitID(f.task.waitID) ==> Named(s.log + [f], s.m.epoch, f.task, Upto(f, |s.log|)))
    ensures forall j :: 0 <= j <= |s.log| ==> FrameTraced(s.log + [f], s.m.epoch, j)
  {
    forall j | 0 <= j <= |s.log| ensures FrameTraced(s.log + [f], s.m.epoch, j) {
      if j < |s.log| {
        assert FrameTraced(s.log, s.m.epoch, j);
        if s.log[j].TaskFrame? && IsUnsignedWaitID(s.log[j].task.waitID) {
          NamedGrows(s.log, s.m.epoch, s.log[j].task, Upto(s.log[j], j), f);
        }
      }
    }
  }

  /** A host frame over unchanged tasks. */
  lemma {:induction false} HostFrameTraced(s: Stream, m': Model, op: FrameOp, view: HostView)
    requires Traced(s) && m'.epoch == s.m.epoch && m'.seqNo == s.m.seqNo
    requires forall n, id :: HasTask(m', n, id) ==> HasTask(s.m, n, id) && TaskAt(m', n, id) == TaskAt(s.m, n, id)
    ensures Traced(PublishHost(Stream(m', s.log), op, view))
  {
    var s' := PublishHost(Stream(m', s.log), op, view);
    var f := s'.log[|s.log|];
    FramesTraced(s, f);
    forall n, id | HasTask(s'.m, n, id) && IsUnsignedWaitID(TaskAt(s'.m, n, id).waitID)
      ensures Named(s'.log, s'.m.epoch, TaskAt(s'.m, n, id), |s'.log|)
    {
      assert HasTask(m', n, id) && TaskAt(m', n, id) == TaskAt(s'.m, n, id);
      NamedGrows(s.log, s.m.epoch, TaskAt(s.m, n, id), |s.log|, f);
    }
  }

  lemma {:induction false} RemoveTaskTraced(s: Stream, name: string, id: string)
    requires Inv(s.m) && Traced(s) && HasTask(s.m, name, id)
    ensures Traced(RemoveTask(s, name, id))
  {
    var s' := RemoveTask(s, name, id);
    var f := s'.log[|s.log|];
    var view := TaskAt(s.m, name, id);
    if IsUnsignedWaitID(view.waitID) { NamedGrows(s.log, s.m.epoch, view, |s.log|, f); }
    FramesTraced(s, f);
    forall n, i | HasTask(s'.m, n, i) && IsUnsignedWaitID(TaskAt(s'.m, n, i).waitID)
      ensures Named(s'.log, s'.m.epoch, TaskAt(s'.m, n, i), |s'.log|)
    {
      assert HasTask(s.m, n, i) && TaskAt(s.m, n, i) == TaskAt(s'.m, n, i);
      NamedGrows(s.log, s.m.epoch, TaskAt(s.m, n, i), |s.log|, f);
    }
  }

  /** An unsigned wait the task was in already keeps its ID; any other is named
      by the number of the frame that publishes it. */
  lemma {:induction false} PutTaskNames(s: Stream, name: string, task: Task)
    requires Inv(s.m) && Traced(s) && name in s.m.hosts && TaskFor(s.m, name, task)
    requires task.state == Wait && task.waitSignature == ""
    ensures var s' := PutTask(s, name, task);
      && HasTask(s'.m, name, task.id)
      && var next := TaskAt(s'.m, name, task.id);
         if HasTask(s.m, name, task.id) && TaskAt(s.m, name, task.id).waitingFor == task.waitingFor
            && IsUnsignedWaitID(TaskAt(s.m, name, task.id).waitID)
         then next.waitID == TaskAt(s.m, name, task.id).waitID
         else
           && |s'.log| == |s.log| + 1 && s'.log[|s.log|].TaskFrame? && s'.log[|s.log|].task == next
           && next.waitID == UnsignedWaitID(s.m.epoch, s'.log[|s.log|].seqNo)
  {
    PutIsOneTask(s, name, task);
    PutPublishes(s, name, task);
    NotSentinel(s.m.epoch, s.m.seqNo + 1);
  }

  /** A task that starts an unsigned wait always publishes a frame, and one
      that stays in it keeps its ID. */
  lemma {:induction false} PutTaskTraced(s: Stream, name: string, task: Task)
    requires Inv(s.m) && Traced(s) && name in s.m.hosts && TaskFor(s.m, name, task)
    ensures Traced(PutTask(s, name, task))
  {
    var s' := PutTask(s, name, task);
    PutIsOneTask(s, name, task);
    PutPublishes(s, name, task);
    var next := TaskAt(s'.m, name, task.id);
    if s'.log == s.log {
      QuietPutTraced(s, s', name, next);
    } else {
      var f := s'.log[|s.log|];
      if IsUnsignedWaitID(next.waitID) { PutNamed(s, name, task, f); }
      LoudPutTraced(s, s', name, f);
    }
  }

  /** The frame's unsigned wait ID is its own number or the one kept. */
  lemma {:induction false} PutNamed(s: Stream, name: string, task: Task, f: Frame)
    requires Inv(s.m) && Traced(s) && name in s.m.hosts && TaskFor(s.m, name, task)
    requires var m' := PutTask(s, name, task).m;
      && HasTask(m', name, task.id) && f.TaskFrame? && f.op != Removed && f.task == TaskAt(m', name, task.id)
      && IsUnsignedWaitID(f.task.waitID)
    ensures Named(s.log + [f], s.m.epoch, f.task, |s.log| + 1)
  {
    if f.task.waitID == UnsignedWaitID(s.m.epoch, s.m.seqNo + 1) {
      NamedBorn(s.log, s.m.epoch, f);
    } else {
      NamedSameWait(s.log, s.m.epoch, TaskAt(s.m, name, task.id), f.task, |s.log|);
      NamedGrows(s.log, s.m.epoch, f.task, |s.log|, f);
    }
  }

  lemma {:induction false} QuietPutTraced(s: Stream, s': Stream, name: string, next: TaskView)
    requires Traced(s) && OneTaskPut(s.m, s'.m, name, next) && s'.log == s.log && s'.m.seqNo == s.m.seqNo
    requires HasTask(s.m, name, next.id) && SameView(TaskAt(s.m, name, next.id), next)
    ensures Traced(s')
  {
    forall n, i | HasTask(s'.m, n, i) && IsUnsignedWaitID(TaskAt(s'.m, n, i).waitID)
      ensures Named(s'.log, s'.m.epoch, TaskAt(s'.m, n, i), |s'.log|)
    {
      if i == next.id { NamedSameWait(s.log, s.m.epoch, TaskAt(s.m, name, next.id), next, |s.log|); }
    }
  }

  lemma {:induction false} LoudPutTraced(s: Stream, s': Stream, name: string, f: Frame)
    requires Inv(s.m) && Traced(s) && f.TaskFrame? && f.op != Removed && OneTaskPut(s.m, s'.m, name, f.task)
    requires s'.log == s.log + [f] && s'.m.seqNo == s.m.seqNo + 1
    requires f.epoch == s.m.epoch && f.seqNo == s.m.seqNo + 1 && WaitIDFits(f.task)
    requires IsUnsignedWaitID(f.task.waitID) ==> Named(s'.log, s.m.epoch, f.task, |s.log| + 1)
    ensures Traced(s')
  {
    FramesTraced(s, f);
    forall n, i | HasTask(s'.m, n, i) && IsUnsignedWaitID(TaskAt(s'.m, n, i).waitID)
      ensures Named(s'.log, s'.m.epoch, TaskAt(s'.m, n, i), |s'.log|)
    {
      if i != f.task.id { NamedGrows(s.log, s.m.epoch, TaskAt(s.m, n, i), |s.log|, f); }
    }
  }

  // ---------------------------------------------------------- whole methods

  /** What the replay proof and this one need of a stream between steps. */
  ghost predicate Sound(base: Store, k: nat, s: Stream) {
    Good(base, k, s) && Traced(s) && s.m.epoch == base.epoch
  }

  lemma {:induction false} RemoveTasksTraced(base: Store, k: nat, s: Stream, name: string, ids: seq<string>,
      keep: set<string>)
    requires Sound(base, k, s) && name in s.m.hosts
    ensures Sound(base, k, RemoveTasks(s, name, ids, keep))
    decreases ids
  {
    if ids != [] {
      if ids[0] in s.m.hosts[name].tasks && ids[0] !in keep {
        RemoveTaskGood(base, k, s, name, ids[0]);
        RemoveTaskTraced(s, name, ids[0]);
        RemoveTasksTraced(base, k, RemoveTask(s, name, ids[0]), name, ids[1..], keep);
      } else {
        RemoveTasksTraced(base, k, s, name, ids[1..], keep);
      }
    }
  }

  lemma {:induction false} RemoveHostTraced(base: Store, k: nat, s: Stream, name: string)
    requires Sound(base, k, s) && name in s.m.hosts
    ensures Sound(base, k, RemoveHost(s, name))
  {
    RemoveHostGood(base, k, s, name);
    var s' := RemoveTasks(s, name, Sorted(s.m.hosts[name].tasks.Keys), {});
    RemoveTasksTraced(base, k, s, name, Sorted(s.m.hosts[name].tasks.Keys), {});
    HostFrameTraced(s', WithoutHost(s', name).m, Removed, s.m.hosts[name].view);
  }

  lemma {:induction false} RemoveHostsTraced(base: Store, k: nat, s: Stream, names: seq<string>, keep: set<string>)
    requires Sound(base, k, s)
    ensures Sound(base, k, RemoveHosts(s, names, keep))
    decreases names
  {
    if names != [] {
      if names[0] in s.m.hosts && names[0] !in keep {
        RemoveHostTraced(base, k, s, names[0]);
        RemoveHostsTraced(base, k, RemoveHost(s, names[0]), names[1..], keep);
      } else {
        RemoveHostsTraced(base, k, s, names[1..], keep);
      }
    }
  }

  lemma {:induction false} AddHostsTraced(base: Store, k: nat, s: Stream, names: seq<string>)
    requires Sound(base, k, s)
    ensures Sound(base, k, AddHosts(s, names))
    decreases names
  {
    if names != [] {
      if names[0] in s.m.hosts {
        AddHostsTraced(base, k, s, names[1..]);
      } else {
        var view := HostView(names[0], Pending, "");
        var m' := WithHost(s, names[0], EventHost(view, map[])).m;
        AddHostGood(base, k, s, names[0]);
        HostFrameTraced(s, m', Added, view);
        AddHostsTraced(base, k, PublishHost(Stream(m', s.log), Added, view), names[1..]);
      }
    }
  }

  lemma {:induction false} SetHostViewTraced(base: Store, k: nat, s: Stream, name: string, view: HostView)
    requires Sound(base, k, s) && name in s.m.hosts && view.name == name && view != s.m.hosts[name].view
    ensures Sound(base, k, SetHostView(s, name, view))
  {
    SetHostViewGood(base, k, s, name, view);
    HostFrameTraced(s, WithHost(s, name, s.m.hosts[name].(view := view)).m, Changed, view);
  }

  lemma {:induction false} MarkHostsTraced(base: Store, k: nat, s: Stream, names: seq<string>)
    requires Sound(base, k, s)
    ensures Sound(base, k, MarkHosts(s, names))
    decreases names
  {
    if names != [] {
      if names[0] in s.m.hosts && s.m.hosts[names[0]].view.status != Pending {
        var view := HostView(names[0], Pending, "");
        SetHostViewTraced(base, k, s, names[0], view);
        MarkHostsTraced(base, k, SetHostView(s, names[0], view), names[1..]);
      } else {
        MarkHostsTraced(base, k, s, names[1..]);
      }
    }
  }

  lemma {:induction false} PutTasksTraced(base: Store, k: nat, s: Stream, name: string, ids: seq<string>,
      current: map<string, Task>)
    requires Sound(base, k, s) && name in s.m.hosts && TasksFor(s.m, name, current)
    requires forall id :: id in ids ==> id in current
    ensures Sound(base, k, PutTasks(s, name, ids, current))
    decreases ids
  {
    if ids != [] {
      var s' := PutTask(s, name, current[ids[0]]);
      PutTaskGood(base, k, s, name, current[ids[0]]);
      PutTaskTraced(s, name, current[ids[0]]);
      TasksForStill(s, name, current[ids[0]], current);
      PutTasksTraced(base, k, s', name, ids[1..], current);
    }
  }

  lemma {:induction false} ApplyHostTraced(base: Store, k: nat, s: Stream, name: string, status: HostStatus,
      error: string, observed: seq<Task>)
    requires Sound(base, k, s) && Admissible(s, Observe(name, status, error, observed))
    ensures Sound(base, k, ApplyHost(s, name, status, error, observed))
  {
    if name in s.m.hosts {
      var view := HostView(name, status, error);
      var s1 := SetStatus(s, name, view);
      if view != s.m.hosts[name].view { SetHostViewTraced(base, k, s, name, view); }
      if status == Ok {
        var current := Current(observed);
        var ids := Sorted(s1.m.hosts[name].tasks.Keys);
        var s2 := RemoveTasks(s1, name, ids, current.Keys);
        RemoveTasksTraced(base, k, s1, name, ids, current.Keys);
        RemoveTasksKeepsHost(s1, name, ids, current.Keys);
        assert TasksFor(s2.m, name, current) by {
          forall id | id in current ensures TaskFor(s2.m, name, current[id]) {
            assert current[id] in observed;
          }
        }
        PutTasksTraced(base, k, s2, name, Sorted(current.Keys), current);
      }
    }
  }

  lemma {:induction false} ExecTraced(base: Store, k: nat, s: Stream, ops: seq<Op>)
    requires Sound(base, k, s) && AdmissibleRun(s, ops)
    ensures Sound(base, k, Exec(s, ops))
    decreases ops
  {
    if ops != [] {
      match ops[0] {
        case Sync(names) =>
          var keep := set n | n in names;
          RemoveHostsTraced(base, k, s, Sorted(s.m.hosts.Keys), keep);
          AddHostsTraced(base, k, RemoveHosts(s, Sorted(s.m.hosts.Keys), keep), SortedList(names));
        case Mark => MarkHostsTraced(base, k, s, Sorted(s.m.hosts.Keys));
        case Observe(name, status, error, observed) => ApplyHostTraced(base, k, s, name, status, error, observed);
      }
      ExecTraced(base, k, Step(s, ops[0]), ops[1..]);
    }
  }

  // ----------------------------------------------------------- main results

  /** In every run the log is numbered 1, 2, 3 … in one epoch, and no frame
      and no stored view carries the sentinel or a wait ID outside a wait. */
  lemma {:induction false} StreamSound(epoch: string, ops: seq<Op>)
    requires AdmissibleRun(Initial(epoch), ops)
    ensures var s := Exec(Initial(epoch), ops);
      && Inv(s.m) && Traced(s) && s.m.epoch == epoch
      && (forall v :: v in Snapshot(s.m).tasks ==> WaitIDFits(v))
  {
    var s0 := Initial(epoch);
    var base := FromSnapshot(Snapshot(s0.m));
    SnapshotMirrors(s0.m);
    assert s0.log[0..] == [];
    ExecTraced(base, 0, s0, ops);
    SnapshotTasks(Exec(s0, ops).m);
  }

  /** No two waits ever share an unsigned ID: two frames of a run with the
      same one are about the same task waiting for the same thing, every frame
      about that task between them is in that wait too, and none of them but
      perhaps the last removes the task. */
  lemma {:induction false} UnsignedIDNamesOneWait(epoch: string, ops: seq<Op>, i: nat, j: nat)
    requires AdmissibleRun(Initial(epoch), ops)
    requires var log := Exec(Initial(epoch), ops).log;
      i <= j < |log| && log[i].TaskFrame? && log[j].TaskFrame?
      && log[i].task.waitID == log[j].task.waitID && IsUnsignedWaitID(log[i].task.waitID)
    ensures var log := Exec(Initial(epoch), ops).log;
            var v := log[i].task;
      && log[j].task.id == v.id && log[j].task.waitingFor == v.waitingFor
      && (forall x :: i <= x <= j && About(log[x], v.id) ==> Carries(log[x], v.waitID, v.id, v.waitingFor))
      && (forall x :: i <= x < j && About(log[x], v.id) ==> log[x].op != Removed)
  {
    StreamSound(epoch, ops);
    var s := Exec(Initial(epoch), ops);
    assert FrameTraced(s.log, epoch, i) && FrameTraced(s.log, epoch, j);
    var k :| WaitSince(s.log, epoch, s.log[i].task, Upto(s.log[i], i), k);
    var k' :| WaitSince(s.log, epoch, s.log[j].task, Upto(s.log[j], j), k');
    UnsignedWaitIDInjective(epoch, k, epoch, k');
  }

  /** Nor do two tasks the model holds at the same time, on any host. */
  lemma {:induction false} UnsignedIDsDiffer(epoch: string, ops: seq<Op>, n: string, id: string, n': string,
      id': string)
    requires AdmissibleRun(Initial(epoch), ops)
    requires var m := Exec(Initial(epoch), ops).m;
      HasTask(m, n, id) && HasTask(m, n', id') && IsUnsignedWaitID(TaskAt(m, n, id).waitID)
      && TaskAt(m, n, id).waitID == TaskAt(m, n', id').waitID
    ensures n == n' && id == id'
  {
    StreamSound(epoch, ops);
    var s := Exec(Initial(epoch), ops);
    var k :| WaitSince(s.log, s.m.epoch, TaskAt(s.m, n, id), |s.log|, k);
    var k' :| WaitSince(s.log, s.m.epoch, TaskAt(s.m, n', id'), |s.log|, k');
    UnsignedWaitIDInjective(s.m.epoch, k, s.m.epoch, k');
  }
}
