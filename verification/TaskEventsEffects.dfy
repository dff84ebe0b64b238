/** What each observation leaves behind. */
module TaskEventsEffects {
  // What single steps of the event model make of the hosts and tasks it
  // holds, that a repeated step publishes nothing, and that an unsigned wait
  // keeps its ID while it lasts.

  import opened Text
  import opened TaskEvents
  import opened TaskEventsReplay

  // ------------------------------------------------------------------ hosts

  lemma {:induction false} RemoveHostEffect(s: Stream, name: string)
    requires name in s.m.hosts
    ensures RemoveHost(s, name).m.hosts == s.m.hosts - {name}
  {
    RemoveTasksKeepsHost(s, name, Sorted(s.m.hosts[name].tasks.Keys), {});
  }

  lemma {:induction false} RemoveHostsEffect(s: Stream, names: seq<string>, keep: set<string>)
    ensures var hosts := RemoveHosts(s, names, keep).m.hosts;
      && (forall n :: n in hosts <==> n in s.m.hosts && (n in names ==> n in keep))
      && (forall n :: n in hosts ==> hosts[n] == s.m.hosts[n])
    decreases names
  {
    if names != [] {
      assert forall n :: n in names <==> n == names[0] || n in names[1..];
      if names[0] in s.m.hosts && names[0] !in keep {
        RemoveHostEffect(s, names[0]);
        RemoveHostsEffect(RemoveHost(s, names[0]), names[1..], keep);
      } else {
        RemoveHostsEffect(s, names[1..], keep);
      }
    }
  }

  lemma {:induction false} RemoveNoHosts(s: Stream, names: seq<string>, keep: set<string>)
    requires forall n :: n in names ==> n in keep
    ensures RemoveHosts(s, names, keep) == s
    decreases names
  {
    if names != [] { RemoveNoHosts(s, names[1..], keep); }
  }

  lemma {:induction false} AddHostsEffect(s: Stream, names: seq<string>)
    ensures var hosts := AddHosts(s, names).m.hosts;
      && (forall n :: n in hosts <==> n in s.m.hosts || n in names)
      && (forall n :: n in s.m.hosts ==> hosts[n] == s.m.hosts[n])
      && (forall n :: n in names && n !in s.m.hosts ==> hosts[n] == EventHost(HostView(n, Pending, ""), map[]))
    decreases names
  {
    if names != [] {
      assert forall n :: n in names <==> n == names[0] || n in names[1..];
      if names[0] in s.m.hosts {
        AddHostsEffect(s, names[1..]);
      } else {
        var view := HostView(names[0], Pending, "");
        AddHostsEffect(PublishHost(WithHost(s, names[0], EventHost(view, map[])), Added, view), names[1..]);
      }
    }
  }

  lemma {:induction false} AddNoHosts(s: Stream, names: seq<string>)
    requires forall n :: n in names ==> n in s.m.hosts
    ensures AddHosts(s, names) == s
    decreases names
  {
    if names != [] { AddNoHosts(s, names[1..]); }
  }

  lemma {:induction false} SortedListElements(names: seq<string>)
    ensures forall n :: n in SortedList(names) <==> n in names
  {
    SortedListSorts(names);
    forall n ensures n in SortedList(names) <==> n in names {
      assert n in SortedList(names) <==> n in multiset(SortedList(names));
    }
  }

  /** After a sync the hosts are exactly those named: the ones kept with their
      tasks as they were, the new ones pending and empty. */
  lemma {:induction false} SyncHostsEffect(s: Stream, names: seq<string>)
    ensures var hosts := SyncHosts(s, names).m.hosts;
      && (forall n :: n in hosts <==> n in names)
      && (forall n :: n in names && n in s.m.hosts ==> hosts[n] == s.m.hosts[n])
      && (forall n :: n in names && n !in s.m.hosts ==> hosts[n] == EventHost(HostView(n, Pending, ""), map[]))
  {
    var keep := set n | n in names;
    RemoveHostsEffect(s, Sorted(s.m.hosts.Keys), keep);
    SortedListElements(names);
    AddHostsEffect(RemoveHosts(s, Sorted(s.m.hosts.Keys), keep), SortedList(names));
  }

  lemma {:induction false} SyncNothing(s: Stream, names: seq<string>)
    requires forall n :: n in s.m.hosts <==> n in names
    ensures SyncHosts(s, names) == s
  {
    RemoveNoHosts(s, Sorted(s.m.hosts.Keys), set n | n in names);
    SortedListElements(names);
    AddNoHosts(s, SortedList(names));
  }

  /** Exactly the listed hosts that were not pending become so, without error. */
  lemma {:induction false} MarkHostsEffect(s: Stream, names: seq<string>)
    ensures var hosts := MarkHosts(s, names).m.hosts;
      && hosts.Keys == s.m.hosts.Keys
      && (forall n :: n in hosts ==> hosts[n].tasks == s.m.hosts[n].tasks)
      && (forall n :: n in hosts ==>
            hosts[n].view == (if n in names && s.m.hosts[n].view.status != Pending then HostView(n, Pending, "")
                              else s.m.hosts[n].view))
    ensures (forall n :: n in names && n in s.m.hosts ==> s.m.hosts[n].view.status == Pending) ==>
      MarkHosts(s, names) == s
    decreases names
  {
    if names != [] {
      assert forall n :: n in names <==> n == names[0] || n in names[1..];
      if names[0] in s.m.hosts && s.m.hosts[names[0]].view.status != Pending {
        MarkHostsEffect(SetHostView(s, names[0], HostView(names[0], Pending, "")), names[1..]);
      } else {
        MarkHostsEffect(s, names[1..]);
      }
    }
  }

  // ------------------------------------------------------------------ tasks

  /** Observing `task` again would give the view `v` unchanged. */
  predicate Settled(task: Task, v: TaskView) {
    && v == ViewOf(task, Some(v), "")
    && (task.state == Wait && task.waitSignature == "" ==> IsUnsignedWaitID(v.waitID))
  }

  /** The observation continues the unsigned wait that `prev` is in. */
  predicate SameUnsignedWait(prev: TaskView, task: Task) {
    && prev.state == Wait && IsUnsignedWaitID(prev.waitID)
    && task.state == Wait && task.waitSignature == "" && task.waitingFor == prev.waitingFor
  }

  lemma {:induction false} PutTaskEffect(s: Stream, name: string, task: Task)
    requires name in s.m.hosts
    ensures var s' := PutTask(s, name, task);
      && name in s'.m.hosts && task.id in s'.m.hosts[name].tasks
      && s'.m.hosts == s.m.hosts[name := s.m.hosts[name].(tasks :=
                         s.m.hosts[name].tasks[task.id := s'.m.hosts[name].tasks[task.id]])]
      && Settled(task, s'.m.hosts[name].tasks[task.id])
      && (task.id in s.m.hosts[name].tasks && SameUnsignedWait(s.m.hosts[name].tasks[task.id], task) ==>
            s'.m.hosts[name].tasks[task.id].waitID == s.m.hosts[name].tasks[task.id].waitID)
      && (task.id in s.m.hosts[name].tasks && Settled(task, s.m.hosts[name].tasks[task.id]) ==> s' == s)
  {
    NotSentinel(s.m.epoch, s.m.seqNo + 1);
    var h := s.m.hosts[name];
    if task.id in h.tasks && Settled(task, h.tasks[task.id]) {
      assert h.tasks[task.id := h.tasks[task.id]] == h.tasks;
      assert s.m.hosts[name := h] == s.m.hosts;
    }
  }

  ghost predicate AllSettled(tasks: map<string, TaskView>, ids: seq<string>, current: map<string, Task>)
    requires forall id :: id in ids ==> id in current
  {
    forall id :: id in ids ==> id in tasks && Settled(current[id], tasks[id])
  }

  /** Only the tasks of the host `name` differ. */
  ghost predicate OnlyTasksOf(s: Stream, name: string, s': Stream)
    requires name in s.m.hosts
  {
    name in s'.m.hosts && s'.m.hosts == s.m.hosts[name := s.m.hosts[name].(tasks := s'.m.hosts[name].tasks)]
  }

  /** How the tasks `after` came from `before` by recording those in `ids`. */
  ghost predicate Recorded(before: map<string, TaskView>, after: map<string, TaskView>, ids: seq<string>,
      current: map<string, Task>)
    requires forall id :: id in ids ==> id in current
  {
    && (forall id :: id in after <==> id in before || id in ids)
    && AllSettled(after, ids, current)
    && (forall id :: id in before && id !in ids ==> after[id] == before[id])
    && (forall id :: id in before && id in ids && SameUnsignedWait(before[id], current[id]) ==>
          after[id].waitID == before[id].waitID)
  }

  lemma {:induction false} PutTasksKeepsHosts(s: Stream, name: string, ids: seq<string>, current: map<string, Task>)
    requires name in s.m.hosts
    requires forall id :: id in ids ==> id in current && current[id].id == id
    ensures var s' := PutTasks(s, name, ids, current);
      OnlyTasksOf(s, name, s')
    decreases ids
  {
    if ids != [] {
      PutTaskEffect(s, name, current[ids[0]]);
      PutTasksKeepsHosts(PutTask(s, name, current[ids[0]]), name, ids[1..], current);
    }
  }

  lemma {:induction false} RecordedCons(before: map<string, TaskView>, next: TaskView, after: map<string, TaskView>,
      ids: seq<string>, current: map<string, Task>)
    requires ids != [] && forall id :: id in ids ==> id in current
    requires Settled(current[ids[0]], next)
    requires ids[0] in before && SameUnsignedWait(before[ids[0]], current[ids[0]]) ==>
      next.waitID == before[ids[0]].waitID
    requires Recorded(before[ids[0] := next], after, ids[1..], current)
    requires ids[0] !in ids[1..]
    ensures Recorded(before, after, ids, current)
  {
    assert forall id :: id in ids <==> id == ids[0] || id in ids[1..];
    var mid := before[ids[0] := next];
    forall id | id in before && id in ids && SameUnsignedWait(before[id], current[id])
      ensures after[id].waitID == before[id].waitID
    {
      if id in ids[1..] { assert mid[id] == before[id]; } else { assert after[id] == mid[id]; }
    }
  }

  lemma {:induction false} PutTasksEffect(s: Stream, name: string, ids: seq<string>, current: map<string, Task>)
    requires name in s.m.hosts && Ascending(ids)
    requires forall id :: id in ids ==> id in current && current[id].id == id
    ensures name in PutTasks(s, name, ids, current).m.hosts
    ensures Recorded(s.m.hosts[name].tasks, PutTasks(s, name, ids, current).m.hosts[name].tasks, ids, current)
    decreases ids
  {
    if ids != [] {
      var s1 := PutTask(s, name, current[ids[0]]);
      PutTaskEffect(s, name, current[ids[0]]);
      PutTasksEffect(s1, name, ids[1..], current);
      RecordedCons(s.m.hosts[name].tasks, s1.m.hosts[name].tasks[ids[0]],
                   PutTasks(s1, name, ids[1..], current).m.hosts[name].tasks, ids, current);
    }
  }

  lemma {:induction false} PutSettled(s: Stream, name: string, ids: seq<string>, current: map<string, Task>)
    requires name in s.m.hosts
    requires forall id :: id in ids ==> id in current && current[id].id == id
    requires AllSettled(s.m.hosts[name].tasks, ids, current)
    ensures PutTasks(s, name, ids, current) == s
    decreases ids
  {
    if ids != [] {
      PutTaskEffect(s, name, current[ids[0]]);
      PutSettled(s, name, ids[1..], current);
    }
  }

  /** The view says of the task what was observed: of a waiting one also for
      what, under the ID it was given if it was given one; of any other nothing
      of the kind. */
  predicate Shows(v: TaskView, task: Task) {
    && v.id == task.id && v.host == task.host && v.agent == task.agent && v.sessionID == task.sessionID
    && v.cwd == task.cwd && v.state == task.state && v.location == task.location && v.statusSince == task.statusSince
    && (task.state != Wait ==> v.waitingFor == "" && v.waitID == "")
    && (task.state == Wait ==>
          v.waitingFor == task.waitingFor && (task.waitSignature != "" ==> v.waitID == task.waitSignature))
  }

  lemma {:induction false} SettledShows(task: Task, v: TaskView)
    requires Settled(task, v)
    ensures Shows(v, task)
  {
  }

  /** The host's tasks after an observation that succeeded: exactly the
      running ones observed, each as observed. */
  ghost predicate Observed(before: map<string, TaskView>, after: map<string, TaskView>, current: map<string, Task>) {
    && after.Keys == current.Keys
    && (forall id :: id in current ==> Settled(current[id], after[id]) && Shows(after[id], current[id]))
    && (forall id :: id in current && id in before && SameUnsignedWait(before[id], current[id]) ==>
          after[id].waitID == before[id].waitID)
  }

  lemma {:induction false} RecordedObserved(before: map<string, TaskView>, mid: map<string, TaskView>,
                                            after: map<string, TaskView>, ids: seq<string>, current: map<string, Task>)
    requires Lists(ids, current.Keys)
    requires forall id :: id in mid <==> id in before && id in current
    requires forall id :: id in mid ==> mid[id] == before[id]
    requires Recorded(mid, after, ids, current)
    ensures Observed(before, after, current)
  {
    forall id | id in current ensures Settled(current[id], after[id]) && Shows(after[id], current[id]) {
      SettledShows(current[id], after[id]);
    }
  }

  lemma {:induction false} RemoveTasksEffect(s: Stream, name: string, keep: set<string>)
    requires name in s.m.hosts
    ensures var before := s.m.hosts[name].tasks;
            var s' := RemoveTasks(s, name, Sorted(before.Keys), keep);
      && OnlyTasksOf(s, name, s')
      && (forall id :: id in s'.m.hosts[name].tasks <==> id in before && id in keep)
      && (forall id :: id in s'.m.hosts[name].tasks ==> s'.m.hosts[name].tasks[id] == before[id])
  {
    var before := s.m.hosts[name].tasks;
    var ids := Sorted(before.Keys);
    RemoveTasksKeepsHost(s, name, ids, keep);
    var gone := set id | id in ids && id !in keep;
    assert RemoveTasks(s, name, ids, keep).m.hosts[name].tasks == before - gone;
  }

  lemma {:induction false} OnlyTasksTransitive(s: Stream, s1: Stream, name: string, s2: Stream)
    requires name in s.m.hosts && OnlyTasksOf(s, name, s1) && OnlyTasksOf(s1, name, s2)
    ensures OnlyTasksOf(s, name, s2)
  {
  }

  lemma {:induction false} ReplaceTasksEffect(s: Stream, name: string, current: map<string, Task>)
    requires name in s.m.hosts && forall id :: id in current ==> current[id].id == id
    ensures OnlyTasksOf(s, name, ReplaceTasks(s, name, current))
    ensures Observed(s.m.hosts[name].tasks, ReplaceTasks(s, name, current).m.hosts[name].tasks, current)
  {
    RemoveTasksEffect(s, name, current.Keys);
    var s1 := RemoveTasks(s, name, Sorted(s.m.hosts[name].tasks.Keys), current.Keys);
    var ids := Sorted(current.Keys);
    PutTasksKeepsHosts(s1, name, ids, current);
    SortedAscending(current.Keys);
    PutTasksEffect(s1, name, ids, current);
    var s2 := PutTasks(s1, name, ids, current);
    OnlyTasksTransitive(s, s1, name, s2);
    RecordedObserved(s.m.hosts[name].tasks, s1.m.hosts[name].tasks, s2.m.hosts[name].tasks, ids, current);
  }

  lemma {:induction false} SetStatusEffect(s: Stream, name: string, view: HostView)
    requires name in s.m.hosts
    ensures var s' := SetStatus(s, name, view);
      && s'.m.hosts.Keys == s.m.hosts.Keys
      && (forall n :: n in s.m.hosts && n != name ==> s'.m.hosts[n] == s.m.hosts[n])
      && s'.m.hosts[name] == EventHost(view, s.m.hosts[name].tasks)
  {
  }

  /** The first running task of this ID. */
  predicate FirstRunning(observed: seq<Task>, i: nat, id: string) {
    && i < |observed| && observed[i].id == id && observed[i].state != Stop
    && forall j :: 0 <= j < i ==> observed[j].id != id || observed[j].state == Stop
  }

  lemma {:induction false} CountedIsFirst(observed: seq<Task>, id: string) returns (i: nat)
    requires id in Current(observed)
    ensures FirstRunning(observed, i, id)
  {
    var n := |observed| - 1;
    var before := observed[..n];
    if id in Current(before) {
      i := CountedIsFirst(before, id);
      assert observed[i] == before[i] && forall j :: 0 <= j < i ==> observed[j] == before[j];
    } else {
      i := n;
      forall j | 0 <= j < n ensures observed[j].id != id || observed[j].state == Stop {
        if before[j].id == id && before[j].state != Stop { RunningCounts(before, j); }
      }
    }
  }

  lemma {:induction false} RunningCounts(observed: seq<Task>, i: nat)
    requires i < |observed| && observed[i].state != Stop
    ensures observed[i].id in Current(observed)
  {
    var n := |observed| - 1;
    if i < n {
      assert observed[..n][i] == observed[i];
      RunningCounts(observed[..n], i);
    }
  }

  /** An observation counts for an ID exactly if a running task has it, and then
      the first of those counts. */
  lemma {:induction false} FirstCounts(observed: seq<Task>, id: string)
    ensures id in Current(observed) <==> exists i: nat :: FirstRunning(observed, i, id)
    ensures forall i: nat :: FirstRunning(observed, i, id) ==>
      id in Current(observed) && Current(observed)[id] == observed[i]
  {
    if id in Current(observed) { var i := CountedIsFirst(observed, id); }
    forall i: nat | FirstRunning(observed, i, id)
      ensures id in Current(observed) && Current(observed)[id] == observed[i]
    {
      FirstCountsAt(observed, i, id);
    }
  }

  lemma {:induction false} FirstCountsAt(observed: seq<Task>, i: nat, id: string)
    requires FirstRunning(observed, i, id)
    ensures id in Current(observed) && Current(observed)[id] == observed[i]
  {
    var n := |observed| - 1;
    if i < n {
      FirstInPrefix(observed, n, i, id);
      FirstCountsAt(observed[..n], i, id);
    } else {
      NotBefore(observed, n, id);
    }
  }

  lemma {:induction false} NotBefore(observed: seq<Task>, n: nat, id: string)
    requires FirstRunning(observed, n, id)
    ensures id !in Current(observed[..n])
  {
    var before := observed[..n];
    assert forall j :: 0 <= j < n ==> before[j] == observed[j];
  }

  lemma {:induction false} FirstInPrefix(observed: seq<Task>, n: nat, i: nat, id: string)
    requires i < n <= |observed|
    ensures FirstRunning(observed[..n], i, id) <==> FirstRunning(observed, i, id)
  {
    assert forall j :: 0 <= j < n ==> observed[..n][j] == observed[j];
  }

  /** An observation of one host leaves every other host as it is, and one of an
      unknown host all of them. One that failed leaves the host's tasks too; one
      that succeeded leaves exactly the running tasks observed, each as
      observed. */
  lemma {:induction false} ApplyHostEffect(s: Stream, name: string, status: HostStatus, error: string,
      observed: seq<Task>)
    ensures name !in s.m.hosts ==> ApplyHost(s, name, status, error, observed) == s
    ensures name in s.m.hosts ==>
      var s' := ApplyHost(s, name, status, error, observed);
      && s'.m.hosts.Keys == s.m.hosts.Keys
      && (forall n :: n in s.m.hosts && n != name ==> s'.m.hosts[n] == s.m.hosts[n])
      && s'.m.hosts[name].view == HostView(name, status, error)
      && (status != Ok ==> s'.m.hosts[name].tasks == s.m.hosts[name].tasks)
      && (status == Ok ==> Observed(s.m.hosts[name].tasks, s'.m.hosts[name].tasks, Current(observed)))
  {
    if name in s.m.hosts {
      var s1 := SetStatus(s, name, HostView(name, status, error));
      SetStatusEffect(s, name, HostView(name, status, error));
      if status == Ok {
        ReplaceTasksEffect(s1, name, Current(observed));
        assert ApplyHost(s, name, status, error, observed) == ReplaceTasks(s1, name, Current(observed));
      }
    }
  }

  lemma {:induction false} RemoveNone(s: Stream, name: string, ids: seq<string>, keep: set<string>)
    requires name in s.m.hosts && forall id :: id in ids ==> id in keep
    ensures RemoveTasks(s, name, ids, keep) == s
    decreases ids
  {
    if ids != [] { RemoveNone(s, name, ids[1..], keep); }
  }

  // ----------------------------------------------------------- main results

  /** Repeating a step at once changes nothing and publishes nothing. */
  lemma {:induction false} RepeatIsSilent(s: Stream, op: Op)
    ensures Step(Step(s, op), op) == Step(s, op)
  {
    var s1 := Step(s, op);
    match op
    case Sync(names) =>
      SyncHostsEffect(s, names);
      SyncNothing(s1, names);
    case Mark =>
      MarkHostsEffect(s, Sorted(s.m.hosts.Keys));
      MarkHostsEffect(s1, Sorted(s1.m.hosts.Keys));
    case Observe(name, status, error, observed) =>
      if name in s.m.hosts {
        ApplyHostEffect(s, name, status, error, observed);
        if status == Ok {
          var current := Current(observed);
          RemoveNone(s1, name, Sorted(s1.m.hosts[name].tasks.Keys), current.Keys);
          PutSettled(s1, name, Sorted(current.Keys), current);
        }
      }
  }

  /** The step observes the unsigned wait of a task unchanged, or does not
      observe it at all: another host's turn, a failed collection, observation
      stopping and starting again. */
  predicate LeavesWait(op: Op, name: string, v: TaskView) {
    match op
    case Sync(names) => name in names
    case Mark => true
    case Observe(n, status, _, observed) =>
      n == name && status == Ok ==> v.id in Current(observed) && SameUnsignedWait(v, Current(observed)[v.id])
  }

  predicate InUnsignedWait(s: Stream, name: string, id: string, waitID: string, reason: string) {
    && HasTask(s.m, name, id)
    && var v := TaskAt(s.m, name, id);
    && v.id == id && v.state == Wait && v.waitID == waitID && v.waitingFor == reason && IsUnsignedWaitID(waitID)
  }

  lemma {:induction false} StepKeepsWait(s: Stream, op: Op, name: string, id: string, waitID: string, reason: string)
    requires InUnsignedWait(s, name, id, waitID, reason) && LeavesWait(op, name, TaskAt(s.m, name, id))
    ensures InUnsignedWait(Step(s, op), name, id, waitID, reason)
  {
    match op
    case Sync(names) => SyncHostsEffect(s, names);
    case Mark => MarkHostsEffect(s, Sorted(s.m.hosts.Keys));
    case Observe(n, status, error, observed) =>
      if n in s.m.hosts { ApplyHostEffect(s, n, status, error, observed); }
  }

  ghost predicate RunLeavesWait(s: Stream, ops: seq<Op>, name: string, id: string)
    decreases ops
  {
    ops == [] || (HasTask(s.m, name, id) && LeavesWait(ops[0], name, TaskAt(s.m, name, id))
                  && RunLeavesWait(Step(s, ops[0]), ops[1..], name, id))
  }

  /** An unsigned wait ID stays fixed for as long as every step leaves the
      wait, through any number of failed collections and restarts. */
  lemma {:induction false} WaitKeepsID(s: Stream, ops: seq<Op>, name: string, id: string, waitID: string,
      reason: string)
    requires InUnsignedWait(s, name, id, waitID, reason) && RunLeavesWait(s, ops, name, id)
    ensures InUnsignedWait(Exec(s, ops), name, id, waitID, reason)
    decreases ops
  {
    if ops != [] {
      StepKeepsWait(s, ops[0], name, id, waitID, reason);
      WaitKeepsID(Step(s, ops[0]), ops[1..], name, id, waitID, reason);
    }
  }
}
