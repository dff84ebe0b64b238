/** Folding the frames gives the model. */
module TaskEventsReplay {
  // The published frames, folded into an earlier snapshot and accepted one by
  // one as consistent, give every later snapshot.

  import opened Text
  import opened TaskEvents

  predicate HasTask(m: Model, name: string, id: string) {
    name in m.hosts && id in m.hosts[name].tasks
  }

  function TaskAt(m: Model, name: string, id: string): TaskView
    requires HasTask(m, name, id)
  {
    m.hosts[name].tasks[id]
  }

  /** A stored view has a wait ID exactly when its state is wait, and never
      the sentinel. */
  predicate WaitIDFits(v: TaskView) {
    && (v.waitID != "" <==> v.state == Wait)
    && v.waitID != PENDING_WAIT_ID
    && v.state != Stop
  }

  ghost predicate Inv(m: Model) {
    && (forall n :: n in m.hosts ==> m.hosts[n].view.name == n)
    && (forall n, id :: HasTask(m, n, id) ==>
          TaskAt(m, n, id).id == id && TaskAt(m, n, id).host == n && WaitIDFits(TaskAt(m, n, id)))
    && (forall n, n', id :: HasTask(m, n, id) && HasTask(m, n', id) ==> n == n')
  }

  /** The store is what a receiver that saw everything up to now holds. */
  ghost predicate Mirrors(store: Store, m: Model) {
    && store.epoch == m.epoch && store.seqNo == m.seqNo
    && store.hosts.Keys == m.hosts.Keys
    && (forall n :: n in m.hosts ==> store.hosts[n] == m.hosts[n].view)
    && (forall n, id :: HasTask(m, n, id) ==> id in store.tasks && SameView(store.tasks[id], TaskAt(m, n, id)))
    && (forall id :: id in store.tasks ==> HasTask(m, store.tasks[id].host, id))
  }

  lemma {:induction false} MirrorsUnique(a: Store, b: Store, m: Model)
    requires Mirrors(a, m) && Mirrors(b, m)
    ensures SameStore(a, b)
  {
    forall id | id in a.tasks ensures id in b.tasks && Agree(a.tasks[id], b.tasks[id]) {
      assert HasTask(m, a.tasks[id].host, id);
    }
    forall id | id in b.tasks ensures id in a.tasks {
      assert HasTask(m, b.tasks[id].host, id);
    }
  }

  /** From `base`, the frames after the first `k` were all accepted and lead
      to what the model holds now. */
  ghost predicate Replays(base: Store, k: nat, s: Stream) {
    && k <= |s.log|
    && Fold(base, s.log[k..]).Some?
    && Mirrors(Fold(base, s.log[k..]).value, s.m)
  }

  ghost predicate Good(base: Store, k: nat, s: Stream) {
    Inv(s.m) && Replays(base, k, s)
  }

  lemma {:induction false} FoldNext(base: Store, k: nat, log: seq<Frame>, f: Frame)
    requires k <= |log| && Fold(base, log[k..]).Some?
    requires Consistent(Fold(base, log[k..]).value, f)
    ensures Fold(base, (log + [f])[k..]) == Receive(Fold(base, log[k..]).value, f)
  {
    assert (log + [f])[k..] == log[k..] + [f];
    FoldSnoc(base, log[k..], f);
  }

  lemma {:induction false} FoldSnoc(base: Store, frames: seq<Frame>, f: Frame)
    requires Fold(base, frames).Some? && Consistent(Fold(base, frames).value, f)
    ensures Fold(base, frames + [f]) == Receive(Fold(base, frames).value, f)
  {
    assert (frames + [f])[..|frames|] == frames;
  }

  /** One more frame, accepted by the receiver and leading to the new model. */
  ghost predicate Accepts(st: Store, s: Stream, s': Stream) {
    |s'.log| == |s.log| + 1 && s'.log[..|s.log|] == s.log &&
      var f := s'.log[|s.log|];
      Inv(s'.m) && Consistent(st, f) && Receive(st, f).Some? && Mirrors(Receive(st, f).value, s'.m)
  }

  lemma {:induction false} AcceptedIsGood(base: Store, k: nat, s: Stream, s': Stream)
    requires Replays(base, k, s) && Accepts(Fold(base, s.log[k..]).value, s, s')
    ensures Good(base, k, s')
  {
    assert s'.log == s.log + [s'.log[|s.log|]];
    FoldNext(base, k, s.log, s'.log[|s.log|]);
  }

  // ------------------------------------------------------- one frame each

  lemma {:induction false} TaskRemoved(s: Stream, name: string, id: string)
    requires Inv(s.m) && HasTask(s.m, name, id)
    ensures var m' := RemoveTask(s, name, id).m;
      && (forall n, i :: HasTask(m', n, i) <==> HasTask(s.m, n, i) && i != id)
      && (forall n, i :: HasTask(m', n, i) ==> TaskAt(m', n, i) == TaskAt(s.m, n, i))
      && m'.hosts.Keys == s.m.hosts.Keys && forall n :: n in s.m.hosts ==> m'.hosts[n].view == s.m.hosts[n].view
  {
    var m' := RemoveTask(s, name, id).m;
    forall n, i ensures HasTask(m', n, i) <==> HasTask(s.m, n, i) && i != id {
      if HasTask(s.m, n, i) && i == id { assert n == name; }
    }
  }

  lemma {:induction false} RemoveTaskInv(s: Stream, name: string, id: string)
    requires Inv(s.m) && HasTask(s.m, name, id)
    ensures Inv(RemoveTask(s, name, id).m)
  {
    TaskRemoved(s, name, id);
  }

  lemma {:induction false} RemoveTaskMirrors(st: Store, s: Stream, name: string, id: string)
    requires Inv(s.m) && Mirrors(st, s.m) && HasTask(s.m, name, id)
    ensures Accepts(st, s, RemoveTask(s, name, id))
  {
    var s' := RemoveTask(s, name, id);
    TaskRemoved(s, name, id);
    RemoveTaskInv(s, name, id);
    assert TaskAt(s.m, name, id).id == id && SameView(st.tasks[id], TaskAt(s.m, name, id));
    assert Receive(st, s'.log[|s.log|]) == Some(st.(seqNo := s'.m.seqNo, tasks := st.tasks - {id}));
  }

  lemma {:induction false} RemoveTaskGood(base: Store, k: nat, s: Stream, name: string, id: string)
    requires Good(base, k, s) && HasTask(s.m, name, id)
    ensures Good(base, k, RemoveTask(s, name, id))
  {
    RemoveTaskMirrors(Fold(base, s.log[k..]).value, s, name, id);
    AcceptedIsGood(base, k, s, RemoveTask(s, name, id));
  }

  lemma {:induction false} SameTasksInv(m: Model, m': Model)
    requires Inv(m) && (forall n :: n in m'.hosts ==> m'.hosts[n].view.name == n)
    requires forall n, i :: HasTask(m', n, i) <==> HasTask(m, n, i)
    requires forall n, i :: HasTask(m', n, i) ==> TaskAt(m', n, i) == TaskAt(m, n, i)
    ensures Inv(m')
  {
  }

  lemma {:induction false} SetHostViewMirrors(st: Store, s: Stream, name: string, view: HostView)
    requires Inv(s.m) && Mirrors(st, s.m) && name in s.m.hosts && view.name == name && view != s.m.hosts[name].view
    ensures Accepts(st, s, SetHostView(s, name, view))
  {
    var s' := SetHostView(s, name, view);
    assert forall n, i :: HasTask(s'.m, n, i) <==> HasTask(s.m, n, i);
    assert forall n, i :: HasTask(s'.m, n, i) ==> TaskAt(s'.m, n, i) == TaskAt(s.m, n, i);
    SameTasksInv(s.m, s'.m);
  }

  lemma {:induction false} SetHostViewGood(base: Store, k: nat, s: Stream, name: string, view: HostView)
    requires Good(base, k, s) && name in s.m.hosts && view.name == name && view != s.m.hosts[name].view
    ensures Good(base, k, SetHostView(s, name, view))
  {
    SetHostViewMirrors(Fold(base, s.log[k..]).value, s, name, view);
    AcceptedIsGood(base, k, s, SetHostView(s, name, view));
  }

  /** What an admissible observation says about one of its tasks. */
  ghost predicate TaskFor(m: Model, name: string, task: Task) {
    && task.host == name && task.state != Stop && ValidSignature(task.waitSignature)
    && forall n :: n in m.hosts && n != name ==> !HasTask(m, n, task.id)
  }

  lemma {:induction false} ViewFits(task: Task, prev: Option<TaskView>, epoch: string, seqNo: nat)
    requires task.state != Stop && ValidSignature(task.waitSignature)
    requires prev.Some? ==> WaitIDFits(prev.value)
    ensures var v := ViewOf(task, prev, UnsignedWaitID(epoch, seqNo));
      v.id == task.id && v.host == task.host && WaitIDFits(v)
  {
    NotSentinel(epoch, seqNo);
  }

  /** Where tasks are after one was put, and which host views stay. */
  lemma {:induction false} TaskPut(s: Stream, name: string, task: Task)
    requires name in s.m.hosts
    ensures var s' := PutTask(s, name, task);
      && s'.m.hosts.Keys == s.m.hosts.Keys
      && (forall n :: n in s.m.hosts ==> s'.m.hosts[n].view == s.m.hosts[n].view)
      && (forall n, i :: HasTask(s'.m, n, i) <==> HasTask(s.m, n, i) || (n == name && i == task.id))
      && (forall n, i :: HasTask(s'.m, n, i) && !(n == name && i == task.id) ==>
            TaskAt(s'.m, n, i) == TaskAt(s.m, n, i))
      && TaskAt(s'.m, name, task.id) == ViewOf(task,
           if HasTask(s.m, name, task.id) then Some(TaskAt(s.m, name, task.id)) else None,
           UnsignedWaitID(s.m.epoch, s.m.seqNo + 1))
  {
    var s' := PutTask(s, name, task);
    assert forall n, i :: HasTask(s'.m, n, i) <==> HasTask(s.m, n, i) || (n == name && i == task.id);
  }

  lemma {:induction false} PutTaskInv(s: Stream, name: string, task: Task)
    requires Inv(s.m) && name in s.m.hosts && TaskFor(s.m, name, task)
    ensures var s' := PutTask(s, name, task);
      && Inv(s'.m) && s'.m.hosts.Keys == s.m.hosts.Keys
      && (forall n :: n in s.m.hosts ==> s'.m.hosts[n].view == s.m.hosts[n].view)
      && (forall n, i :: HasTask(s'.m, n, i) <==> HasTask(s.m, n, i) || (n == name && i == task.id))
      && (forall n, i :: HasTask(s'.m, n, i) && i != task.id ==> TaskAt(s'.m, n, i) == TaskAt(s.m, n, i))
  {
    TaskPut(s, name, task);
    var prev := if HasTask(s.m, name, task.id) then Some(TaskAt(s.m, name, task.id)) else None;
    ViewFits(task, prev, s.m.epoch, s.m.seqNo + 1);
    NewTaskInv(s.m, PutTask(s, name, task).m, name, task.id);
  }

  lemma {:induction false} NewTaskInv(m: Model, m': Model, name: string, id: string)
    requires Inv(m) && name in m.hosts && m'.hosts.Keys == m.hosts.Keys
    requires forall n :: n in m.hosts ==> m'.hosts[n].view == m.hosts[n].view
    requires forall n, i :: HasTask(m', n, i) <==> HasTask(m, n, i) || (n == name && i == id)
    requires forall n, i :: HasTask(m', n, i) && !(n == name && i == id) ==> TaskAt(m', n, i) == TaskAt(m, n, i)
    requires HasTask(m', name, id)
    requires TaskAt(m', name, id).id == id && TaskAt(m', name, id).host == name && WaitIDFits(TaskAt(m', name, id))
    requires forall n :: n in m.hosts && n != name ==> !HasTask(m, n, id)
    ensures Inv(m')
  {
  }

  /** The models differ in one task of one host at most, which is now `next`. */
  ghost predicate OneTaskPut(m: Model, m': Model, name: string, next: TaskView) {
    && name in m.hosts && next.host == name
    && m'.epoch == m.epoch && m'.hosts.Keys == m.hosts.Keys
    && (forall n :: n in m.hosts ==> m'.hosts[n].view == m.hosts[n].view)
    && (forall n, i :: HasTask(m', n, i) <==> HasTask(m, n, i) || (n == name && i == next.id))
    && (forall n, i :: HasTask(m', n, i) && i != next.id ==> TaskAt(m', n, i) == TaskAt(m, n, i))
    && HasTask(m', name, next.id) && TaskAt(m', name, next.id) == next
    && forall n :: HasTask(m', n, next.id) ==> n == name
  }

  lemma {:induction false} PutIsOneTask(s: Stream, name: string, task: Task)
    requires Inv(s.m) && name in s.m.hosts && TaskFor(s.m, name, task)
    ensures var m' := PutTask(s, name, task).m;
      Inv(m') && HasTask(m', name, task.id) && TaskAt(m', name, task.id).id == task.id
      && OneTaskPut(s.m, m', name, TaskAt(m', name, task.id))
  {
    PutTaskInv(s, name, task);
  }

  /** A put publishes the task exactly if it is new or its view changed. */
  lemma {:induction false} PutPublishes(s: Stream, name: string, task: Task)
    requires Inv(s.m) && name in s.m.hosts && HasTask(PutTask(s, name, task).m, name, task.id)
    ensures var s' := PutTask(s, name, task);
            var next := TaskAt(s'.m, name, task.id);
      if HasTask(s.m, name, task.id) && SameView(TaskAt(s.m, name, task.id), next) then
        s'.log == s.log && s'.m.seqNo == s.m.seqNo
      else
        && s'.m.seqNo == s.m.seqNo + 1
        && s'.log == s.log + [if HasTask(s.m, name, task.id)
             then TaskFrame(s.m.epoch, s.m.seqNo + 1, Changed, TaskAt(s.m, name, task.id).state, next)
             else TaskFrame(s.m.epoch, s.m.seqNo + 1, Added, NoState, next)]
  {
  }

  /** Holding a view of the new task is all a store needs to keep mirroring. */
  lemma {:induction false} MirrorsPut(st: Store, m: Model, held: TaskView, m': Model, name: string, next: TaskView)
    requires Mirrors(st, m) && OneTaskPut(m, m', name, next) && SameView(held, next)
    ensures Mirrors(st.(seqNo := m'.seqNo, tasks := st.tasks[next.id := held]), m')
  {
  }

  /** Either nothing changed but StatusSince, and no frame is published, or the
      frame is accepted. */
  lemma {:induction false} PutTaskMirrors(st: Store, s: Stream, name: string, task: Task)
    requires Inv(s.m) && Mirrors(st, s.m) && name in s.m.hosts && TaskFor(s.m, name, task)
    ensures var s' := PutTask(s, name, task);
      if s'.log == s.log then Inv(s'.m) && Mirrors(st, s'.m) else Accepts(st, s, s')
  {
    var s' := PutTask(s, name, task);
    PutIsOneTask(s, name, task);
    PutPublishes(s, name, task);
    var next := TaskAt(s'.m, name, task.id);
    if s'.log == s.log {
      assert SameView(st.tasks[task.id], TaskAt(s.m, name, task.id));
      MirrorsPut(st, s.m, st.tasks[task.id], s'.m, name, next);
      assert st.tasks == st.tasks[task.id := st.tasks[task.id]];
    } else {
      PutIsAccepted(st, s, s', name, s'.log[|s.log|]);
    }
  }

  lemma {:induction false} PutIsAccepted(st: Store, s: Stream, s': Stream, name: string, f: Frame)
    requires Mirrors(st, s.m) && Inv(s'.m) && f.TaskFrame? && OneTaskPut(s.m, s'.m, name, f.task)
    requires s'.m.seqNo == s.m.seqNo + 1 && s'.log == s.log + [f]
    requires PutFrame(s.m, name, f)
    ensures Accepts(st, s, s')
  {
    PutIsConsistent(st, s.m, s'.m, name, f);
    MirrorsPut(st, s.m, f.task, s'.m, name, f.task);
    assert s'.log[..|s.log|] == s.log && s'.log[|s.log|] == f;
  }

  /** The frame that publishes how the task differs from the one held. */
  predicate PutFrame(m: Model, name: string, f: Frame) {
    && f.TaskFrame? && f.epoch == m.epoch && f.seqNo == m.seqNo + 1
    && if HasTask(m, name, f.task.id) then
         var prev := TaskAt(m, name, f.task.id);
         f.op == Changed && f.prevState == prev.state && !SameView(prev, f.task)
       else f.op == Added && f.prevState == NoState
  }

  lemma {:induction false} PutIsConsistent(st: Store, m: Model, m': Model, name: string, f: Frame)
    requires Mirrors(st, m) && PutFrame(m, name, f) && OneTaskPut(m, m', name, f.task)
    ensures Consistent(st, f) && Receive(st, f) == Some(st.(seqNo := f.seqNo, tasks := st.tasks[f.task.id := f.task]))
  {
    assert f.task.id in st.tasks ==> HasTask(m', st.tasks[f.task.id].host, f.task.id);
  }

  lemma {:induction false} PutTaskGood(base: Store, k: nat, s: Stream, name: string, task: Task)
    requires Good(base, k, s) && name in s.m.hosts && TaskFor(s.m, name, task)
    ensures Good(base, k, PutTask(s, name, task))
  {
    PutTaskMirrors(Fold(base, s.log[k..]).value, s, name, task);
    var s' := PutTask(s, name, task);
    if s'.log != s.log { AcceptedIsGood(base, k, s, s'); }
  }

  lemma {:induction false} NotSentinel(epoch: string, seqNo: nat)
    ensures UnsignedWaitID(epoch, seqNo) != PENDING_WAIT_ID && UnsignedWaitID(epoch, seqNo) != ""
    ensures IsUnsignedWaitID(UnsignedWaitID(epoch, seqNo))
  {
    assert UnsignedWaitID(epoch, seqNo)[0] == 'e';
  }

  lemma {:induction false} AddHostMirrors(st: Store, s: Stream, name: string)
    requires Inv(s.m) && Mirrors(st, s.m) && name !in s.m.hosts
    ensures var view := HostView(name, Pending, "");
      Accepts(st, s, PublishHost(WithHost(s, name, EventHost(view, map[])), Added, view))
  {
    var view := HostView(name, Pending, "");
    HostAdded(s, name, view);
    SameTasksInv(s.m, PublishHost(WithHost(s, name, EventHost(view, map[])), Added, view).m);
  }

  lemma {:induction false} HostAdded(s: Stream, name: string, view: HostView)
    requires Inv(s.m) && name !in s.m.hosts && view.name == name
    ensures var m' := PublishHost(WithHost(s, name, EventHost(view, map[])), Added, view).m;
      && (forall n, i :: HasTask(m', n, i) <==> HasTask(s.m, n, i))
      && (forall n, i :: HasTask(m', n, i) ==> TaskAt(m', n, i) == TaskAt(s.m, n, i))
      && (forall n :: n in m'.hosts ==> m'.hosts[n].view.name == n)
  {
    var m' := PublishHost(WithHost(s, name, EventHost(view, map[])), Added, view).m;
    assert forall n, i :: HasTask(m', n, i) <==> HasTask(s.m, n, i);
  }

  lemma {:induction false} AddHostGood(base: Store, k: nat, s: Stream, name: string)
    requires Good(base, k, s) && name !in s.m.hosts
    ensures var view := HostView(name, Pending, "");
      Good(base, k, PublishHost(WithHost(s, name, EventHost(view, map[])), Added, view))
  {
    var view := HostView(name, Pending, "");
    AddHostMirrors(Fold(base, s.log[k..]).value, s, name);
    AcceptedIsGood(base, k, s, PublishHost(WithHost(s, name, EventHost(view, map[])), Added, view));
  }

  lemma {:induction false} DropHostMirrors(st: Store, s: Stream, name: string)
    requires Inv(s.m) && Mirrors(st, s.m) && name in s.m.hosts && s.m.hosts[name].tasks == map[]
    ensures Accepts(st, s, PublishHost(WithoutHost(s, name), Removed, s.m.hosts[name].view))
  {
    var s' := PublishHost(WithoutHost(s, name), Removed, s.m.hosts[name].view);
    assert forall n, i :: HasTask(s'.m, n, i) <==> HasTask(s.m, n, i);
    assert forall n, i :: HasTask(s'.m, n, i) ==> TaskAt(s'.m, n, i) == TaskAt(s.m, n, i);
    SameTasksInv(s.m, s'.m);
  }

  lemma {:induction false} DropHostGood(base: Store, k: nat, s: Stream, name: string)
    requires Good(base, k, s) && name in s.m.hosts && s.m.hosts[name].tasks == map[]
    ensures Good(base, k, PublishHost(WithoutHost(s, name), Removed, s.m.hosts[name].view))
  {
    DropHostMirrors(Fold(base, s.log[k..]).value, s, name);
    AcceptedIsGood(base, k, s, PublishHost(WithoutHost(s, name), Removed, s.m.hosts[name].view));
  }

  // --------------------------------------------------------- whole methods

  lemma {:induction false} RemoveTasksGood(base: Store, k: nat, s: Stream, name: string, ids: seq<string>,
      keep: set<string>)
    requires Good(base, k, s) && name in s.m.hosts
    ensures Good(base, k, RemoveTasks(s, name, ids, keep))
    decreases ids
  {
    if ids != [] {
      if ids[0] in s.m.hosts[name].tasks && ids[0] !in keep {
        RemoveTaskGood(base, k, s, name, ids[0]);
        RemoveTasksGood(base, k, RemoveTask(s, name, ids[0]), name, ids[1..], keep);
      } else {
        RemoveTasksGood(base, k, s, name, ids[1..], keep);
      }
    }
  }

  lemma {:induction false} RemoveHostGood(base: Store, k: nat, s: Stream, name: string)
    requires Good(base, k, s) && name in s.m.hosts
    ensures Good(base, k, RemoveHost(s, name))
  {
    var ids := Sorted(s.m.hosts[name].tasks.Keys);
    RemoveTasksGood(base, k, s, name, ids, {});
    RemoveTasksKeepsHost(s, name, ids, {});
    var s' := RemoveTasks(s, name, ids, {});
    assert s'.m.hosts[name].tasks == map[];
    DropHostGood(base, k, s', name);
  }

  lemma {:induction false} SyncHostsGood(base: Store, k: nat, s: Stream, names: seq<string>)
    requires Good(base, k, s)
    ensures Good(base, k, SyncHosts(s, names))
  {
    RemoveHostsGood(base, k, s, Sorted(s.m.hosts.Keys), set n | n in names);
    AddHostsGood(base, k, RemoveHosts(s, Sorted(s.m.hosts.Keys), set n | n in names), SortedList(names));
  }

  lemma {:induction false} RemoveHostsGood(base: Store, k: nat, s: Stream, names: seq<string>, keep: set<string>)
    requires Good(base, k, s)
    ensures Good(base, k, RemoveHosts(s, names, keep))
    decreases names
  {
    if names != [] {
      if names[0] in s.m.hosts && names[0] !in keep {
        RemoveHostGood(base, k, s, names[0]);
        RemoveHostsGood(base, k, RemoveHost(s, names[0]), names[1..], keep);
      } else {
        RemoveHostsGood(base, k, s, names[1..], keep);
      }
    }
  }

  lemma {:induction false} AddHostsGood(base: Store, k: nat, s: Stream, names: seq<string>)
    requires Good(base, k, s)
    ensures Good(base, k, AddHosts(s, names))
    decreases names
  {
    if names != [] {
      if names[0] in s.m.hosts {
        AddHostsGood(base, k, s, names[1..]);
      } else {
        AddHostGood(base, k, s, names[0]);
        var view := HostView(names[0], Pending, "");
        AddHostsGood(base, k, PublishHost(WithHost(s, names[0], EventHost(view, map[])), Added, view), names[1..]);
      }
    }
  }

  lemma {:induction false} MarkHostsGood(base: Store, k: nat, s: Stream, names: seq<string>)
    requires Good(base, k, s)
    ensures Good(base, k, MarkHosts(s, names))
    decreases names
  {
    if names != [] {
      if names[0] in s.m.hosts && s.m.hosts[names[0]].view.status != Pending {
        var view := HostView(names[0], Pending, "");
        SetHostViewGood(base, k, s, names[0], view);
        MarkHostsGood(base, k, SetHostView(s, names[0], view), names[1..]);
      } else {
        MarkHostsGood(base, k, s, names[1..]);
      }
    }
  }

  ghost predicate TasksFor(m: Model, name: string, current: map<string, Task>) {
    forall id :: id in current ==> current[id].id == id && TaskFor(m, name, current[id])
  }

  lemma {:induction false} TasksForStill(s: Stream, name: string, task: Task, current: map<string, Task>)
    requires name in s.m.hosts && TasksFor(s.m, name, current)
    ensures name in PutTask(s, name, task).m.hosts && TasksFor(PutTask(s, name, task).m, name, current)
  {
    TaskPut(s, name, task);
  }

  lemma {:induction false} PutTasksGood(base: Store, k: nat, s: Stream, name: string, ids: seq<string>,
      current: map<string, Task>)
    requires Good(base, k, s) && name in s.m.hosts && TasksFor(s.m, name, current)
    requires forall id :: id in ids ==> id in current
    ensures Good(base, k, PutTasks(s, name, ids, current))
    decreases ids
  {
    if ids != [] {
      PutTaskGood(base, k, s, name, current[ids[0]]);
      TasksForStill(s, name, current[ids[0]], current);
      PutTasksGood(base, k, PutTask(s, name, current[ids[0]]), name, ids[1..], current);
    }
  }

  lemma {:induction false} ApplyHostGood(base: Store, k: nat, s: Stream, name: string, status: HostStatus,
      error: string, observed: seq<Task>)
    requires Good(base, k, s) && Admissible(s, Observe(name, status, error, observed))
    ensures Good(base, k, ApplyHost(s, name, status, error, observed))
  {
    if name in s.m.hosts {
      var view := HostView(name, status, error);
      var s1 := SetStatus(s, name, view);
      if view != s.m.hosts[name].view { SetHostViewGood(base, k, s, name, view); }
      if status == Ok {
        var current := Current(observed);
        var ids := Sorted(s1.m.hosts[name].tasks.Keys);
        var s2 := RemoveTasks(s1, name, ids, current.Keys);
        RemoveTasksGood(base, k, s1, name, ids, current.Keys);
        RemoveTasksKeepsHost(s1, name, ids, current.Keys);
        assert TasksFor(s2.m, name, current) by {
          forall id | id in current ensures TaskFor(s2.m, name, current[id]) {
            assert current[id] in observed;
          }
        }
        PutTasksGood(base, k, s2, name, Sorted(current.Keys), current);
      }
    }
  }

  lemma {:induction false} StepGood(base: Store, k: nat, s: Stream, op: Op)
    requires Good(base, k, s) && Admissible(s, op)
    ensures Good(base, k, Step(s, op))
  {
    match op
    case Sync(names) => SyncHostsGood(base, k, s, names);
    case Mark => MarkHostsGood(base, k, s, Sorted(s.m.hosts.Keys));
    case Observe(name, status, error, observed) => ApplyHostGood(base, k, s, name, status, error, observed);
  }

  lemma {:induction false} ExecGood(base: Store, k: nat, s: Stream, ops: seq<Op>)
    requires Good(base, k, s) && AdmissibleRun(s, ops)
    ensures Good(base, k, Exec(s, ops))
    decreases ops
  {
    if ops != [] {
      StepGood(base, k, s, ops[0]);
      ExecGood(base, k, Step(s, ops[0]), ops[1..]);
    }
  }

  // -------------------------------------------------------------- snapshots

  lemma {:induction false} HostViewsGive(m: Model, names: seq<string>)
    requires forall n :: n in names ==> n in m.hosts
    ensures forall v :: v in HostViews(m, names) <==> exists n :: n in names && v == m.hosts[n].view
  {
    if names != [] {
      HostViewsGive(m, names[1..]);
      assert forall n :: n in names <==> n == names[0] || n in names[1..];
    }
  }

  lemma {:induction false} HostMapGives(views: seq<HostView>)
    ensures forall v :: v in views ==> v.name in HostMap(views)
    ensures forall n :: n in HostMap(views) ==> HostMap(views)[n] in views && HostMap(views)[n].name == n
  {
    if views != [] {
      var n := |views| - 1;
      HostMapGives(views[..n]);
      assert views == views[..n] + [views[n]];
    }
  }

  lemma {:induction false} TaskMapGives(views: seq<TaskView>)
    ensures forall v :: v in views ==> v.id in TaskMap(views)
    ensures forall i :: i in TaskMap(views) ==> TaskMap(views)[i] in views && TaskMap(views)[i].id == i
  {
    if views != [] {
      var n := |views| - 1;
      TaskMapGives(views[..n]);
      assert views == views[..n] + [views[n]];
    }
  }

  lemma {:induction false} ViewsGive(tasks: map<string, TaskView>, ids: seq<string>)
    requires forall id :: id in ids ==> id in tasks
    ensures forall v :: v in Views(tasks, ids) <==> exists id :: id in ids && v == tasks[id]
  {
    if ids != [] {
      ViewsGive(tasks, ids[1..]);
      assert forall id :: id in ids <==> id == ids[0] || id in ids[1..];
    }
  }

  ghost predicate IsTaskOf(m: Model, names: seq<string>, v: TaskView) {
    exists n, id :: n in names && HasTask(m, n, id) && v == TaskAt(m, n, id)
  }

  lemma {:induction false} TaskViewsGive(m: Model, names: seq<string>)
    requires forall n :: n in names ==> n in m.hosts
    ensures forall v :: v in TaskViews(m, names) <==> IsTaskOf(m, names, v)
  {
    if names != [] {
      var tasks := m.hosts[names[0]].tasks;
      ViewsGive(tasks, Sorted(tasks.Keys));
      TaskViewsGive(m, names[1..]);
      forall v ensures v in TaskViews(m, names) <==> IsTaskOf(m, names, v) {
        if v in Views(tasks, Sorted(tasks.Keys)) {
          var id :| id in Sorted(tasks.Keys) && v == tasks[id];
          assert HasTask(m, names[0], id) && v == TaskAt(m, names[0], id);
        }
        if IsTaskOf(m, names[1..], v) {
          var n, id :| n in names[1..] && HasTask(m, n, id) && v == TaskAt(m, n, id);
          assert n in names;
        }
        if IsTaskOf(m, names, v) {
          var n, id :| n in names && HasTask(m, n, id) && v == TaskAt(m, n, id);
          if n == names[0] { assert id in Sorted(tasks.Keys); } else { assert n in names[1..]; }
        }
      }
    }
  }

  lemma {:induction false} SnapshotHosts(m: Model)
    requires Inv(m)
    ensures var hosts := FromSnapshot(Snapshot(m)).hosts;
      hosts.Keys == m.hosts.Keys && forall n :: n in m.hosts ==> hosts[n] == m.hosts[n].view
  {
    var names := Sorted(m.hosts.Keys);
    var hosts := HostViews(m, names);
    HostViewsGive(m, names);
    HostMapGives(hosts);
    forall n | n in m.hosts ensures n in HostMap(hosts) {
      assert n in names;
      assert m.hosts[n].view in hosts;
    }
  }

  lemma {:induction false} SnapshotTasks(m: Model)
    ensures forall v :: v in Snapshot(m).tasks <==> IsTaskOf(m, Sorted(m.hosts.Keys), v)
  {
    var names := Sorted(m.hosts.Keys);
    TaskViewsGive(m, names);
    var views := SortedByID(TaskViews(m, names));
    forall v ensures v in views <==> v in TaskViews(m, names) {
      assert v in views <==> v in multiset(views);
    }
  }

  /** A snapshot gives exactly what the model holds. */
  lemma {:induction false} SnapshotMirrors(m: Model)
    requires Inv(m)
    ensures Mirrors(FromSnapshot(Snapshot(m)), m)
  {
    var names := Sorted(m.hosts.Keys);
    SnapshotHosts(m);
    SnapshotTasks(m);
    var views := Snapshot(m).tasks;
    TaskMapGives(views);
    var tasks := TaskMap(views);
    forall n, id | HasTask(m, n, id) ensures id in tasks && tasks[id] == TaskAt(m, n, id) {
      assert n in names;
      assert IsTaskOf(m, names, TaskAt(m, n, id));
      assert TaskAt(m, n, id) in views;
      assert IsTaskOf(m, names, tasks[id]);
    }
    forall id | id in tasks ensures HasTask(m, tasks[id].host, id) {
      assert IsTaskOf(m, names, tasks[id]);
    }
  }

  ghost predicate AscendingIDs(views: seq<TaskView>) {
    forall i, j :: 0 <= i < j < |views| ==> views[i].id != views[j].id && Le(views[i].id, views[j].id)
  }

  ghost predicate OwnIDs(views: seq<TaskView>) {
    forall i, j :: 0 <= i < j < |views| ==> views[i].id != views[j].id
  }

  lemma {:induction false} AscendingCons(v: TaskView, rest: seq<TaskView>)
    requires AscendingIDs(rest) && forall w :: w in rest ==> v.id != w.id && Le(v.id, w.id)
    ensures AscendingIDs([v] + rest)
  {
    var all := [v] + rest;
    forall i, j | 0 <= i < j < |all| ensures all[i].id != all[j].id && Le(all[i].id, all[j].id) {
      assert all[j] == rest[j - 1] && rest[j - 1] in rest;
      if i > 0 { assert all[i] == rest[i - 1]; }
    }
  }

  lemma {:induction false} InsertedByIDElements(v: TaskView, sorted: seq<TaskView>)
    ensures forall w :: w in InsertedByID(v, sorted) ==> w == v || w in sorted
  {
    forall w | w in InsertedByID(v, sorted) ensures w == v || w in sorted {
      assert w in multiset(InsertedByID(v, sorted));
      if w != v { assert w in multiset(sorted); }
    }
  }

  lemma {:induction false} InsertedByIDAscends(v: TaskView, sorted: seq<TaskView>)
    requires AscendingIDs(sorted) && forall w :: w in sorted ==> w.id != v.id
    ensures AscendingIDs(InsertedByID(v, sorted))
  {
    if sorted != [] {
      LeTotal(v.id, sorted[0].id);
      if Le(v.id, sorted[0].id) {
        forall w | w in sorted ensures v.id != w.id && Le(v.id, w.id) {
          var i :| 0 <= i < |sorted| && sorted[i] == w;
          if i > 0 { LeTransitive(v.id, sorted[0].id, w.id); }
        }
        AscendingCons(v, sorted);
      } else {
        InsertedByIDAscends(v, sorted[1..]);
        InsertedByIDElements(v, sorted[1..]);
        FirstIsLeast(sorted);
        AscendingCons(sorted[0], InsertedByID(v, sorted[1..]));
      }
    }
  }

  lemma {:induction false} FirstIsLeast(sorted: seq<TaskView>)
    requires AscendingIDs(sorted) && sorted != []
    ensures forall w :: w in sorted[1..] ==> sorted[0].id != w.id && Le(sorted[0].id, w.id)
  {
    forall w | w in sorted[1..] ensures sorted[0].id != w.id && Le(sorted[0].id, w.id) {
      var i :| 1 <= i < |sorted| && sorted[i] == w;
    }
  }

  lemma {:induction false} SortedByIDAscends(views: seq<TaskView>)
    requires OwnIDs(views)
    ensures AscendingIDs(SortedByID(views))
  {
    if views != [] {
      SortedByIDAscends(views[1..]);
      forall w | w in SortedByID(views[1..]) ensures w.id != views[0].id {
        assert w in multiset(SortedByID(views[1..])) && w in multiset(views[1..]);
        var i :| 1 <= i < |views| && views[i] == w;
      }
      InsertedByIDAscends(views[0], SortedByID(views[1..]));
    }
  }

  lemma {:induction false} ViewsInOrder(tasks: map<string, TaskView>, ids: seq<string>)
    requires forall id :: id in ids ==> id in tasks && tasks[id].id == id
    ensures |Views(tasks, ids)| == |ids| && forall i :: 0 <= i < |ids| ==> Views(tasks, ids)[i].id == ids[i]
  {
    if ids != [] { ViewsInOrder(tasks, ids[1..]); }
  }

  /** The views of one host first, then those of the others: all have IDs of
      their own. */
  lemma {:induction false} TaskViewsOwnIDs(m: Model, names: seq<string>)
    requires Inv(m) && Ascending(names) && forall n :: n in names ==> n in m.hosts
    ensures OwnIDs(TaskViews(m, names))
  {
    if names != [] {
      TaskViewsOwnIDs(m, names[1..]);
      var tasks := m.hosts[names[0]].tasks;
      forall id | id in tasks ensures tasks[id].id == id {
        assert HasTask(m, names[0], id) && TaskAt(m, names[0], id).id == id;
      }
      SortedAscending(tasks.Keys);
      ViewsInOrder(tasks, Sorted(tasks.Keys));
      TaskViewsGive(m, names[1..]);
      var mine := Views(tasks, Sorted(tasks.Keys));
      var others := TaskViews(m, names[1..]);
      forall i, j | 0 <= i < |mine| && 0 <= j < |others| ensures mine[i].id != others[j].id {
        assert mine[i].id in tasks && others[j] in others && IsTaskOf(m, names[1..], others[j]);
        OtherHostsTask(m, names, mine[i].id, others[j]);
      }
    }
  }

  lemma {:induction false} OtherHostsTask(m: Model, names: seq<string>, id: string, other: TaskView)
    requires Inv(m) && names != [] && Ascending(names) && HasTask(m, names[0], id) && IsTaskOf(m, names[1..], other)
    ensures other.id != id
  {
    var n, i :| n in names[1..] && HasTask(m, n, i) && other == TaskAt(m, n, i);
    assert n != names[0];
  }

  lemma {:induction false} HostViewsInOrder(m: Model, names: seq<string>)
    requires Inv(m) && forall n :: n in names ==> n in m.hosts
    ensures |HostViews(m, names)| == |names|
    ensures forall i :: 0 <= i < |names| ==> HostViews(m, names)[i].name == names[i]
  {
    if names != [] { HostViewsInOrder(m, names[1..]); }
  }

  /** A snapshot lists its hosts by name and its tasks by ID, each once. */
  lemma {:induction false} SnapshotInOrder(m: Model)
    requires Inv(m)
    ensures AscendingIDs(Snapshot(m).tasks)
    ensures var hosts := Snapshot(m).hosts;
      forall i, j :: 0 <= i < j < |hosts| ==> hosts[i].name != hosts[j].name && Le(hosts[i].name, hosts[j].name)
  {
    var names := Sorted(m.hosts.Keys);
    SortedAscending(m.hosts.Keys);
    HostViewsInOrder(m, names);
    TaskViewsOwnIDs(m, names);
    SortedByIDAscends(TaskViews(m, names));
  }

  // ----------------------------------------------------------- main results

  lemma {:induction false} RemoveTasksAppends(s: Stream, name: string, ids: seq<string>, keep: set<string>)
    requires name in s.m.hosts
    ensures s.log <= RemoveTasks(s, name, ids, keep).log
    decreases ids
  {
    if ids != [] { RemoveTasksAppends(RemoveTaskUnless(s, name, ids[0], keep), name, ids[1..], keep); }
  }

  lemma {:induction false} RemoveHostsAppends(s: Stream, names: seq<string>, keep: set<string>)
    ensures s.log <= RemoveHosts(s, names, keep).log
    decreases names
  {
    if names != [] {
      if names[0] in s.m.hosts { RemoveTasksAppends(s, names[0], Sorted(s.m.hosts[names[0]].tasks.Keys), {}); }
      RemoveHostsAppends(RemoveHostUnless(s, names[0], keep), names[1..], keep);
    }
  }

  lemma {:induction false} AddHostsAppends(s: Stream, names: seq<string>)
    ensures s.log <= AddHosts(s, names).log
    decreases names
  {
    if names != [] { AddHostsAppends(AddHost(s, names[0]), names[1..]); }
  }

  lemma {:induction false} MarkHostsAppends(s: Stream, names: seq<string>)
    ensures s.log <= MarkHosts(s, names).log
    decreases names
  {
    if names != [] { MarkHostsAppends(MarkHost(s, names[0]), names[1..]); }
  }

  lemma {:induction false} PutTasksAppends(s: Stream, name: string, ids: seq<string>, current: map<string, Task>)
    requires name in s.m.hosts && forall id :: id in ids ==> id in current
    ensures s.log <= PutTasks(s, name, ids, current).log
    decreases ids
  {
    if ids != [] { PutTasksAppends(PutTask(s, name, current[ids[0]]), name, ids[1..], current); }
  }

  lemma {:induction false} StepAppends(s: Stream, op: Op)
    ensures s.log <= Step(s, op).log
  {
    match op
    case Sync(names) =>
      var keep := set n | n in names;
      RemoveHostsAppends(s, Sorted(s.m.hosts.Keys), keep);
      AddHostsAppends(RemoveHosts(s, Sorted(s.m.hosts.Keys), keep), SortedList(names));
    case Mark => MarkHostsAppends(s, Sorted(s.m.hosts.Keys));
    case Observe(name, status, error, observed) =>
      if name in s.m.hosts {
        var s1 := SetStatus(s, name, HostView(name, status, error));
        var current := Current(observed);
        var ids := Sorted(s1.m.hosts[name].tasks.Keys);
        RemoveTasksAppends(s1, name, ids, current.Keys);
        RemoveTasksKeepsHost(s1, name, ids, current.Keys);
        PutTasksAppends(RemoveTasks(s1, name, ids, current.Keys), name, Sorted(current.Keys), current);
      }
  }

  /** Publishing only appends: what was sent is never taken back or changed. */
  lemma {:induction false} LogGrows(s: Stream, ops: seq<Op>)
    ensures s.log <= Exec(s, ops).log
    decreases ops
  {
    if ops != [] {
      StepAppends(s, ops[0]);
      LogGrows(Step(s, ops[0]), ops[1..]);
    }
  }

  /** Every model a server can reach satisfies the model invariant. */
  lemma {:induction false} ReachableInv(epoch: string, ops: seq<Op>)
    requires AdmissibleRun(Initial(epoch), ops)
    ensures Inv(Exec(Initial(epoch), ops).m)
  {
    var s := Initial(epoch);
    SnapshotMirrors(s.m);
    assert s.log[0..] == [];
    ExecGood(FromSnapshot(Snapshot(s.m)), 0, s, ops);
  }

  /** Replay: at any reachable point, a receiver that took the snapshot and
      folds in every frame published afterwards accepts all of them and holds
      what a later snapshot gives, up to StatusSince. */
  lemma {:induction false} Replay(epoch: string, before: seq<Op>, after: seq<Op>)
    requires AdmissibleRun(Initial(epoch), before)
    requires AdmissibleRun(Exec(Initial(epoch), before), after)
    ensures var s := Exec(Initial(epoch), before);
            var s' := Exec(s, after);
      && s.log <= s'.log
      && var got := Fold(FromSnapshot(Snapshot(s.m)), s'.log[|s.log|..]);
      && got.Some?
      && SameStore(got.value, FromSnapshot(Snapshot(s'.m)))
  {
    var s := Exec(Initial(epoch), before);
    ReachableInv(epoch, before);
    var base := FromSnapshot(Snapshot(s.m));
    SnapshotMirrors(s.m);
    assert s.log[|s.log|..] == [];
    LogGrows(s, after);
    ExecGood(base, |s.log|, s, after);
    var s' := Exec(s, after);
    SnapshotMirrors(s'.m);
    MirrorsUnique(Fold(base, s'.log[|s.log|..]).value, FromSnapshot(Snapshot(s'.m)), s'.m);
  }
}
