/** The event model as the server keeps it: fields changed step by step, and a
    new unsigned wait ID patched into its frame once that frame has its
    number. Every method does what its specification says. */
module TaskEventsModel {
  import opened Text
  import TE = TaskEvents
  import opened TaskEventsReplay

  // One round of each loop, on the rest of its list.

  lemma {:induction false} MarkHostsRound(s: TE.Stream, names: seq<string>, i: nat)
    requires i < |names|
    ensures TE.MarkHosts(s, names[i..]) == TE.MarkHosts(TE.MarkHost(s, names[i]), names[i + 1..])
  {
    assert names[i..][1..] == names[i + 1..];
  }

  lemma {:induction false} AddHostsRound(s: TE.Stream, names: seq<string>, i: nat)
    requires i < |names|
    ensures TE.AddHosts(s, names[i..]) == TE.AddHosts(TE.AddHost(s, names[i]), names[i + 1..])
  {
    assert names[i..][1..] == names[i + 1..];
  }

  lemma {:induction false} RemoveHostsRound(s: TE.Stream, names: seq<string>, keep: set<string>, i: nat)
    requires i < |names|
    ensures TE.RemoveHosts(s, names[i..], keep)
         == TE.RemoveHosts(TE.RemoveHostUnless(s, names[i], keep), names[i + 1..], keep)
  {
    assert names[i..][1..] == names[i + 1..];
  }

  lemma {:induction false} RemoveTasksRound(s: TE.Stream, name: string, ids: seq<string>, keep: set<string>, i: nat)
    requires i < |ids| && name in s.m.hosts
    ensures TE.RemoveTasks(s, name, ids[i..], keep)
         == TE.RemoveTasks(TE.RemoveTaskUnless(s, name, ids[i], keep), name, ids[i + 1..], keep)
  {
    assert ids[i..][1..] == ids[i + 1..];
  }

  lemma {:induction false} RemovalsRound(s: TE.Stream, name: string, h: TE.EventHost, ids: seq<string>, i: nat)
    requires i < |ids| && ids[i] in h.tasks
    ensures TE.RemoveTasks(TE.WithHost(s, name, h), name, ids[i..], {})
      == TE.RemoveTasks(TE.WithHost(TE.PublishTask(s, TE.Removed, h.tasks[ids[i]].state, h.tasks[ids[i]]),
                                    name, h.(tasks := h.tasks - {ids[i]})), name, ids[i + 1..], {})
  {
    var s0 := TE.WithHost(s, name, h);
    var view := h.tasks[ids[i]];
    RemoveTasksRound(s0, name, ids, {}, i);
    assert TE.RemoveTask(s0, name, ids[i])
        == TE.WithHost(TE.PublishTask(s, TE.Removed, view.state, view), name, h.(tasks := h.tasks - {ids[i]}));
  }

  lemma {:induction false} DropAfterRemovals(s: TE.Stream, name: string, ids: seq<string>)
    requires name in s.m.hosts
    ensures TE.RemoveTasks(s, name, ids, {}).m.hosts - {name} == s.m.hosts - {name}
  {
    TE.RemoveTasksKeepsHost(s, name, ids, {});
  }

  lemma {:induction false} PutTasksRound(s: TE.Stream, name: string, ids: seq<string>, current: map<string, TE.Task>,
      i: nat)
    requires i < |ids| && name in s.m.hosts && forall id :: id in ids ==> id in current
    ensures TE.PutTasks(s, name, ids[i..], current)
         == TE.PutTasks(TE.PutTask(s, name, current[ids[i]]), name, ids[i + 1..], current)
  {
    assert ids[i..][1..] == ids[i + 1..];
  }

  lemma {:induction false} CollectRound(m: TE.Model, names: seq<string>, i: nat, hostViews: seq<TE.HostView>,
      tasks: seq<TE.TaskView>)
    requires i < |names| && forall n :: n in names ==> n in m.hosts
    ensures var h := m.hosts[names[i]];
      && hostViews + [h.view] + TE.HostViews(m, names[i + 1..]) == hostViews + TE.HostViews(m, names[i..])
      && tasks + TE.Views(h.tasks, Sorted(h.tasks.Keys)) + TE.TaskViews(m, names[i + 1..])
           == tasks + TE.TaskViews(m, names[i..])
  {
    assert names[i..][1..] == names[i + 1..];
  }

  lemma {:induction false} ObservedSignatures(s: TE.Stream, name: string, status: TE.HostStatus, error: string,
      observed: seq<TE.Task>)
    requires TE.Admissible(s, TE.Observe(name, status, error, observed))
    ensures var current := TE.Current(observed);
      forall id :: id in current ==> current[id].id == id && TE.ValidSignature(current[id].waitSignature)
  {
  }

  lemma {:induction false} StoredWaitIDs(m: TE.Model, name: string)
    requires Inv(m) && name in m.hosts
    ensures forall id :: id in m.hosts[name].tasks ==> m.hosts[name].tasks[id].waitID != TE.PENDING_WAIT_ID
  {
    forall id | id in m.hosts[name].tasks ensures m.hosts[name].tasks[id].waitID != TE.PENDING_WAIT_ID {
      assert HasTask(m, name, id) && WaitIDFits(TaskAt(m, name, id));
    }
  }

  class EventModel {
    const epoch: string
    var hosts: map<string, TE.EventHost>
    var seqNo: nat
    /** Every frame published so far. */
    ghost var log: seq<TE.Frame>

    ghost function View(): TE.Stream
      reads this
    {
      TE.Stream(TE.Model(epoch, seqNo, hosts), log)
    }

    constructor (epoch: string)
      ensures View() == TE.Initial(epoch)
    {
      this.epoch := epoch;
      hosts := map[];
      seqNo := 0;
      log := [];
    }

    method PublishHost(op: TE.FrameOp, view: TE.HostView) returns (f: TE.Frame)
      modifies this
      ensures View() == TE.PublishHost(old(View()), op, view)
      ensures log == old(log) + [f]
    {
      seqNo := seqNo + 1;
      f := TE.HostFrame(epoch, seqNo, op, view);
      log := log + [f];
    }

    method PublishTask(op: TE.FrameOp, prev: TE.State, view: TE.TaskView) returns (f: TE.Frame)
      modifies this
      ensures View() == TE.PublishTask(old(View()), op, prev, view)
      ensures log == old(log) + [f]
    {
      seqNo := seqNo + 1;
      f := TE.TaskFrame(epoch, seqNo, op, prev, view);
      log := log + [f];
    }

    method SyncHosts(names: seq<string>) returns (frames: seq<TE.Frame>)
      modifies this
      ensures View() == TE.SyncHosts(old(View()), names)
      ensures log == old(log) + frames
    {
      var removed := RemoveHosts(Sorted(hosts.Keys), set n | n in names);
      var added := AddHosts(SortedList(names));
      frames := removed + added;
    }

    method RemoveHosts(names: seq<string>, keep: set<string>) returns (frames: seq<TE.Frame>)
      modifies this
      ensures View() == TE.RemoveHosts(old(View()), names, keep)
      ensures log == old(log) + frames
    {
      frames := [];
      ghost var target := TE.RemoveHosts(View(), names, keep);
      assert names[0..] == names;
      for i := 0 to |names|
        invariant TE.RemoveHosts(View(), names[i..], keep) == target
        invariant log == old(log) + frames
      {
        RemoveHostsRound(View(), names, keep, i);
        if names[i] in hosts && names[i] !in keep {
          var round := RemoveHost(names[i]);
          Associates(old(log), frames, round);
          frames := frames + round;
        }
      }
    }

    /** Publishes the removal of each task of the host, then of the host. */
    method RemoveHost(name: string) returns (frames: seq<TE.Frame>)
      requires name in hosts
      modifies this
      ensures View() == TE.RemoveHost(old(View()), name)
      ensures log == old(log) + frames
    {
      var h := hosts[name];
      SortedAscending(h.tasks.Keys);
      DropAfterRemovals(View(), name, Sorted(h.tasks.Keys));
      frames := PublishRemovals(name, Sorted(h.tasks.Keys));
      hosts := hosts - {name};
      var f := PublishHost(TE.Removed, h.view);
      frames := frames + [f];
    }

    /** The tasks go with the host, so they are published as removed but not
        deleted one by one: only the host's tasks differ from the
        specification until the host is deleted. */
    method PublishRemovals(name: string, ids: seq<string>) returns (frames: seq<TE.Frame>)
      requires name in hosts && Ascending(ids) && forall id :: id in ids ==> id in hosts[name].tasks
      modifies this
      ensures hosts == old(hosts) && log == old(log) + frames
      ensures var s := TE.RemoveTasks(old(View()), name, ids, {});
        s.log == log && s.m.seqNo == seqNo && s.m.epoch == epoch
    {
      frames := [];
      ghost var target := TE.RemoveTasks(View(), name, ids, {});
      var h := hosts[name];
      ghost var left := h.tasks;
      assert hosts[name := h] == hosts && ids[0..] == ids;
      for i := 0 to |ids|
        invariant hosts == old(hosts) && log == old(log) + frames
        invariant forall j :: i <= j < |ids| ==> ids[j] in left && left[ids[j]] == h.tasks[ids[j]]
        invariant TE.RemoveTasks(TE.WithHost(View(), name, h.(tasks := left)), name, ids[i..], {}) == target
      {
        RemovalsRound(View(), name, h.(tasks := left), ids, i);
        assert h.tasks[ids[i]] == left[ids[i]];
        var f := PublishTask(TE.Removed, h.tasks[ids[i]].state, h.tasks[ids[i]]);
        frames := frames + [f];
        left := left - {ids[i]};
      }
    }

    method AddHosts(names: seq<string>) returns (frames: seq<TE.Frame>)
      modifies this
      ensures View() == TE.AddHosts(old(View()), names)
      ensures log == old(log) + frames
    {
      frames := [];
      ghost var target := TE.AddHosts(View(), names);
      assert names[0..] == names;
      for i := 0 to |names|
        invariant TE.AddHosts(View(), names[i..]) == target
        invariant log == old(log) + frames
      {
        AddHostsRound(View(), names, i);
        var round := AddHost(names[i]);
        Associates(old(log), frames, round);
        frames := frames + round;
      }
    }

    method AddHost(name: string) returns (frames: seq<TE.Frame>)
      modifies this
      ensures View() == TE.AddHost(old(View()), name)
      ensures log == old(log) + frames
    {
      frames := [];
      if name !in hosts {
        var view := TE.HostView(name, TE.Pending, "");
        hosts := hosts[name := TE.EventHost(view, map[])];
        var f := PublishHost(TE.Added, view);
        frames := [f];
      }
    }

    method MarkHost(name: string) returns (frames: seq<TE.Frame>)
      modifies this
      ensures View() == TE.MarkHost(old(View()), name)
      ensures log == old(log) + frames
    {
      frames := [];
      if name in hosts && hosts[name].view.status != TE.Pending {
        var view := TE.HostView(name, TE.Pending, "");
        hosts := hosts[name := hosts[name].(view := view)];
        var f := PublishHost(TE.Changed, view);
        frames := [f];
      }
    }

    method MarkPending() returns (frames: seq<TE.Frame>)
      modifies this
      ensures View() == TE.MarkPending(old(View()))
      ensures log == old(log) + frames
    {
      frames := MarkHosts(Sorted(hosts.Keys));
    }

    method MarkHosts(names: seq<string>) returns (frames: seq<TE.Frame>)
      modifies this
      ensures View() == TE.MarkHosts(old(View()), names)
      ensures log == old(log) + frames
    {
      frames := [];
      ghost var target := TE.MarkHosts(View(), names);
      assert names[0..] == names;
      for i := 0 to |names|
        invariant TE.MarkHosts(View(), names[i..]) == target
        invariant log == old(log) + frames
      {
        MarkHostsRound(View(), names, i);
        var round := MarkHost(names[i]);
        Associates(old(log), frames, round);
        frames := frames + round;
      }
    }

    method ApplyHost(name: string, status: TE.HostStatus, error: string, observed: seq<TE.Task>)
      returns (frames: seq<TE.Frame>)
      requires Inv(View().m) && TE.Admissible(View(), TE.Observe(name, status, error, observed))
      modifies this
      ensures View() == TE.ApplyHost(old(View()), name, status, error, observed)
      ensures log == old(log) + frames
    {
      if name !in hosts { return []; }
      StoredWaitIDs(View().m, name);
      ObservedSignatures(View(), name, status, error, observed);
      frames := Observe(name, status, error, observed);
    }

    method Observe(name: string, status: TE.HostStatus, error: string, observed: seq<TE.Task>)
      returns (frames: seq<TE.Frame>)
      requires NoSentinel(name)
      requires var current := TE.Current(observed);
        forall id :: id in current ==> current[id].id == id && TE.ValidSignature(current[id].waitSignature)
      modifies this
      ensures View() == TE.ApplyHost(old(View()), name, status, error, observed)
      ensures log == old(log) + frames
    {
      frames := SetStatus(name, TE.HostView(name, status, error));
      if status == TE.Ok {
        var current := RunningTasks(observed);
        var replaced := ReplaceTasks(name, current);
        Associates(old(log), frames, replaced);
        frames := frames + replaced;
      }
    }

    method SetStatus(name: string, view: TE.HostView) returns (frames: seq<TE.Frame>)
      requires name in hosts
      modifies this
      ensures View() == TE.SetStatus(old(View()), name, view)
      ensures log == old(log) + frames && name in hosts && hosts[name].tasks == old(hosts[name].tasks)
    {
      frames := [];
      if view != hosts[name].view {
        hosts := hosts[name := hosts[name].(view := view)];
        var f := PublishHost(TE.Changed, view);
        frames := [f];
      }
    }

    method ReplaceTasks(name: string, current: map<string, TE.Task>) returns (frames: seq<TE.Frame>)
      requires NoSentinel(name)
      requires forall id :: id in current ==> current[id].id == id && TE.ValidSignature(current[id].waitSignature)
      modifies this
      ensures View() == TE.ReplaceTasks(old(View()), name, current)
      ensures log == old(log) + frames
    {
      var gone := RemoveGone(name, Sorted(hosts[name].tasks.Keys), current);
      var put := PutAll(name, Sorted(current.Keys), current);
      Associates(old(log), gone, put);
      frames := gone + put;
    }

    ghost predicate NoSentinel(name: string)
      reads this
    {
      name in hosts && forall id :: id in hosts[name].tasks ==> hosts[name].tasks[id].waitID != TE.PENDING_WAIT_ID
    }

    method RunningTasks(observed: seq<TE.Task>) returns (current: map<string, TE.Task>)
      ensures current == TE.Current(observed)
    {
      current := map[];
      for i := 0 to |observed|
        invariant current == TE.Current(observed[..i])
      {
        var task := observed[i];
        assert observed[..i + 1][..i] == observed[..i];
        if task.state != TE.Stop && task.id !in current {
          current := current[task.id := task];
        }
      }
      assert observed[..|observed|] == observed;
    }

    method RemoveGone(name: string, ids: seq<string>, current: map<string, TE.Task>) returns (frames: seq<TE.Frame>)
      requires NoSentinel(name)
      modifies this
      ensures View() == TE.RemoveTasks(old(View()), name, ids, current.Keys)
      ensures NoSentinel(name) && log == old(log) + frames
    {
      frames := [];
      ghost var target := TE.RemoveTasks(View(), name, ids, current.Keys);
      assert ids[0..] == ids;
      for i := 0 to |ids|
        invariant NoSentinel(name) && log == old(log) + frames
        invariant TE.RemoveTasks(View(), name, ids[i..], current.Keys) == target
      {
        RemoveTasksRound(View(), name, ids, current.Keys, i);
        var round := RemoveUnless(name, ids[i], current.Keys);
        Associates(old(log), frames, round);
        frames := frames + round;
      }
    }

    method RemoveUnless(name: string, id: string, keep: set<string>) returns (frames: seq<TE.Frame>)
      requires NoSentinel(name)
      modifies this
      ensures View() == TE.RemoveTaskUnless(old(View()), name, id, keep)
      ensures NoSentinel(name) && log == old(log) + frames
    {
      frames := [];
      var h := hosts[name];
      if id in h.tasks && id !in keep {
        var prev := h.tasks[id];
        hosts := hosts[name := h.(tasks := h.tasks - {id})];
        var f := PublishTask(TE.Removed, prev.state, prev);
        frames := [f];
      }
    }

    method PutAll(name: string, ids: seq<string>, current: map<string, TE.Task>) returns (frames: seq<TE.Frame>)
      requires NoSentinel(name) && forall id :: id in ids ==> id in current
      requires forall id :: id in current ==> current[id].id == id && TE.ValidSignature(current[id].waitSignature)
      modifies this
      ensures View() == TE.PutTasks(old(View()), name, ids, current)
      ensures log == old(log) + frames
    {
      frames := [];
      ghost var target := TE.PutTasks(View(), name, ids, current);
      assert ids[0..] == ids;
      for i := 0 to |ids|
        invariant NoSentinel(name) && log == old(log) + frames
        invariant TE.PutTasks(View(), name, ids[i..], current) == target
      {
        PutTasksRound(View(), name, ids, current, i);
        var round := Put(name, current[ids[i]]);
        Associates(old(log), frames, round);
        frames := frames + round;
      }
    }

    /** Publishes first and names afterwards: a wait that still needs an ID is
        stored and sent with the sentinel, and both copies are then corrected
        to the ID made of the frame's number. */
    method Put(name: string, task: TE.Task) returns (frames: seq<TE.Frame>)
      requires NoSentinel(name) && TE.ValidSignature(task.waitSignature)
      modifies this
      ensures View() == TE.PutTask(old(View()), name, task)
      ensures NoSentinel(name) && log == old(log) + frames
    {
      frames := [];
      var h := hosts[name];
      var known := task.id in h.tasks;
      var prev := if known then Some(h.tasks[task.id]) else None;
      var next := TE.ViewOf(task, prev, TE.PENDING_WAIT_ID);
      NotSentinel(epoch, seqNo + 1);
      hosts := hosts[name := h.(tasks := h.tasks[task.id := next])];
      if !known {
        var f := PublishTask(TE.Added, TE.NoState, next);
        frames := [f];
      } else if !TE.SameView(prev.value, next) {
        var f := PublishTask(TE.Changed, prev.value.state, next);
        frames := [f];
      }
      if next.waitID == TE.PENDING_WAIT_ID {
        assert frames != [];
        next := next.(waitID := TE.UnsignedWaitID(epoch, seqNo));
        hosts := hosts[name := h.(tasks := h.tasks[task.id := next])];
        log := log[|log| - 1 := log[|log| - 1].(task := next)];
        frames := frames[|frames| - 1 := frames[|frames| - 1].(task := next)];
      }
      assert old(hosts)[name := h.(tasks := h.tasks[task.id := next])] == hosts;
    }

    method Snapshot() returns (f: TE.Frame)
      ensures f == TE.Snapshot(View().m)
    {
      var hostViews, tasks := Collect(Sorted(hosts.Keys));
      f := TE.SnapshotFrame(epoch, seqNo, hostViews, TE.SortedByID(tasks));
    }

    method Collect(names: seq<string>) returns (hostViews: seq<TE.HostView>, tasks: seq<TE.TaskView>)
      requires forall n :: n in names ==> n in hosts
      ensures hostViews == TE.HostViews(View().m, names) && tasks == TE.TaskViews(View().m, names)
    {
      hostViews, tasks := [], [];
      ghost var m := View().m;
      assert names[0..] == names;
      for i := 0 to |names|
        invariant hostViews + TE.HostViews(m, names[i..]) == TE.HostViews(m, names)
        invariant tasks + TE.TaskViews(m, names[i..]) == TE.TaskViews(m, names)
      {
        var h := hosts[names[i]];
        CollectRound(m, names, i, hostViews, tasks);
        hostViews := hostViews + [h.view];
        var views := CollectTasks(h.tasks, Sorted(h.tasks.Keys));
        tasks := tasks + views;
      }
    }

    static method CollectTasks(tasks: map<string, TE.TaskView>, ids: seq<string>) returns (views: seq<TE.TaskView>)
      requires forall id :: id in ids ==> id in tasks
      ensures views == TE.Views(tasks, ids)
    {
      views := [];
      assert ids[0..] == ids;
      for i := 0 to |ids|
        invariant views + TE.Views(tasks, ids[i..]) == TE.Views(tasks, ids)
      {
        assert ids[i..][1..] == ids[i + 1..];
        views := views + [tasks[ids[i]]];
      }
    }
  }
}
