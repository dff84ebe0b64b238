/** Subscribers and count watchers. */
module Subscriptions {
  // Each subscriber of a session gets the replay window and then the live
  // stream, unless it reads too slowly, and a watcher hears the subscriber
  // count through notifications that run in any order.
  //
  // Subscribers, watchers, chunks and count changes are numbered as they come;
  // one step is one lock scope, or a reader taking one chunk.

  import opened Text
  import opened ReplayBuffer

  const QUEUE: nat := 64

  /** `at` chunks had been published at the subscription, `end` at its end;
      `got` are the chunks queued for it, `unread` those still in the queue. */
  datatype Sub = Sub(at: nat, got: seq<nat>, unread: nat, end: Option<nat>)

  /** A change's count, and the watcher that was set when it was numbered. */
  datatype Change = Change(count: nat, watch: Option<nat>)

  /** `watches[w]` is the number of changes when watcher w was set; `log[c - 1]`
      is change c; `heard` are the changes watchers were told, in that order. */
  datatype Session = Session(
    chunks: seq<seq<byte>>, limit: nat, subs: seq<Sub>, active: set<nat>, closed: bool,
    watches: seq<nat>, log: seq<Change>, pending: set<nat>, delivered: nat, heard: seq<nat>)

  // ----------------------------------------------------------------- steps

  /** A full queue loses the chunk. */
  function Queued(s: Sub, chunk: nat): Sub {
    if s.unread < QUEUE then s.(got := s.got + [chunk], unread := s.unread + 1) else s
  }

  function QueuedAll(subs: seq<Sub>, active: set<nat>, chunk: nat): seq<Sub> {
    seq(|subs|, i requires 0 <= i < |subs| => if i in active then Queued(subs[i], chunk) else subs[i])
  }

  function EndedAll(subs: seq<Sub>, active: set<nat>, n: nat): seq<Sub> {
    seq(|subs|, i requires 0 <= i < |subs| => if i in active then subs[i].(end := Some(n)) else subs[i])
  }

  function Publish(s: Session, chunk: seq<byte>): Session {
    s.(chunks := s.chunks + [chunk], subs := QueuedAll(s.subs, s.active, |s.chunks|))
  }

  /** Numbers a change of the count and leaves its notification pending. */
  function Changed(s: Session): Session {
    var watch := if s.watches == [] then None else Some(|s.watches| - 1);
    s.(log := s.log + [Change(|s.active|, watch)], pending := s.pending + {|s.log| + 1})
  }

  /** After the output's end there is nothing to subscribe to. */
  function Subscribe(s: Session): Session {
    if s.closed then s
    else Changed(s.(subs := s.subs + [Sub(|s.chunks|, [], 0, None)], active := s.active + {|s.subs|}))
  }

  function Ended(s: Session, i: nat): Sub
    requires i < |s.subs|
  {
    s.subs[i].(end := Some(|s.chunks|))
  }

  function Unsubscribe(s: Session, i: nat): Session
    requires i < |s.subs|
  {
    if i !in s.active then s
    else Changed(s.(subs := s.subs[i := Ended(s, i)], active := s.active - {i}))
  }

  function CloseSubscribers(s: Session): Session {
    if s.closed then s
    else
      var s1 := s.(closed := true, active := {}, subs := EndedAll(s.subs, s.active, |s.chunks|));
      if s.active == {} then s1 else Changed(s1)
  }

  /** A notification runs: one without a watcher, or older than one that was
      heard, is dropped. */
  function Notify(s: Session, c: nat): Session
    requires 1 <= c <= |s.log|
  {
    var s1 := s.(pending := s.pending - {c});
    if s.log[c - 1].watch.None? || c <= s.delivered then s1
    else s1.(delivered := c, heard := s.heard + [c])
  }

  datatype Step =
    | DoPublish(chunk: seq<byte>)
    | DoSubscribe
    | DoUnsubscribe(sub: nat)
    | DoRead(sub: nat)
    | DoClose
    | DoWatch
    | DoNotify(change: nat)

  predicate Enabled(s: Session, step: Step) {
    match step
    case DoUnsubscribe(i) => i < |s.subs|
    case DoRead(i) => i < |s.subs| && s.subs[i].unread > 0
    case DoNotify(c) => c in s.pending && 1 <= c <= |s.log|
    case _ => true
  }

  function Next(s: Session, step: Step): Session
    requires Enabled(s, step)
  {
    match step
    case DoPublish(chunk) => Publish(s, chunk)
    case DoSubscribe => Subscribe(s)
    case DoUnsubscribe(i) => Unsubscribe(s, i)
    case DoRead(i) => s.(subs := s.subs[i := s.subs[i].(unread := s.subs[i].unread - 1)])
    case DoClose => CloseSubscribers(s)
    case DoWatch => s.(watches := s.watches + [|s.log|])
    case DoNotify(c) => Notify(s, c)
  }

  // ------------------------------------------------------------- invariant

  predicate Increasing(xs: seq<nat>) {
    forall i, j :: 0 <= i < j < |xs| ==> xs[i] < xs[j]
  }

  function LastOf(s: Session, i: nat): nat
    requires i < |s.subs|
  {
    if s.subs[i].end.Some? then s.subs[i].end.value else |s.chunks|
  }

  predicate SubOK(s: Session, i: nat)
    requires i < |s.subs|
  {
    var sub := s.subs[i];
    && sub.at <= LastOf(s, i) <= |s.chunks|
    && (i in s.active <==> sub.end.None?)
    && sub.unread <= QUEUE && sub.unread <= |sub.got|
    && Increasing(sub.got)
    && (forall k :: 0 <= k < |sub.got| ==> sub.at <= sub.got[k] < LastOf(s, i))
  }

  ghost predicate SubsOK(s: Session) {
    && (forall i: nat :: i < |s.subs| ==> SubOK(s, i))
    && (forall i :: i in s.active ==> i < |s.subs|)
    && |s.active| == (if s.log == [] then 0 else s.log[|s.log| - 1].count)
    && (s.closed ==> s.active == {})
  }

  /** The watcher a change is told to is the last one set before it. */
  predicate WatchOK(s: Session, c: nat)
    requires 1 <= c <= |s.log|
  {
    match s.log[c - 1].watch
    case None => forall w :: 0 <= w < |s.watches| ==> c <= s.watches[w]
    case Some(v) =>
      && v < |s.watches| && s.watches[v] < c
      && forall w :: v < w < |s.watches| ==> c <= s.watches[w]
  }

  ghost predicate WatchesOK(s: Session) {
    && (forall w :: 0 <= w < |s.watches| ==> s.watches[w] <= |s.log|)
    && (forall c: nat :: 1 <= c <= |s.log| ==> WatchOK(s, c))
  }

  /** A watched change that was not heard is pending or overtaken. */
  predicate SettledOrPending(s: Session, c: nat)
    requires 1 <= c <= |s.log|
  {
    s.log[c - 1].watch.Some? ==> c in s.pending || c <= s.delivered
  }

  predicate HeardChange(s: Session, c: nat) {
    1 <= c <= |s.log| && c <= s.delivered && s.log[c - 1].watch.Some? && c !in s.pending
  }

  ghost predicate HeardOK(s: Session) {
    && (forall c :: c in s.pending ==> 1 <= c <= |s.log|)
    && Increasing(s.heard)
    && (forall k :: 0 <= k < |s.heard| ==> HeardChange(s, s.heard[k]))
    && s.delivered == (if s.heard == [] then 0 else s.heard[|s.heard| - 1])
    && (forall c: nat :: 1 <= c <= |s.log| ==> SettledOrPending(s, c))
  }

  ghost predicate Inv(s: Session) {
    SubsOK(s) && WatchesOK(s) && HeardOK(s)
  }

  lemma {:induction false} ChangedWatches(s: Session)
    requires WatchesOK(s)
    ensures WatchesOK(Changed(s))
  {
    var s' := Changed(s);
    assert forall k: nat :: k < |s.log| ==> s'.log[k] == s.log[k];
    forall c: nat | 1 <= c <= |s'.log| ensures WatchOK(s', c) {
      if c <= |s.log| { assert WatchOK(s, c); }
    }
  }

  lemma {:induction false} ChangedHeard(s: Session)
    requires HeardOK(s)
    ensures HeardOK(Changed(s))
  {
    var s' := Changed(s);
    assert forall k: nat :: k < |s.log| ==> s'.log[k] == s.log[k];
    forall k | 0 <= k < |s'.heard| ensures HeardChange(s', s'.heard[k]) { assert HeardChange(s, s.heard[k]); }
    forall c: nat | 1 <= c <= |s'.log| ensures SettledOrPending(s', c) {
      if c <= |s.log| { assert SettledOrPending(s, c); }
    }
  }

  lemma {:induction false} ChangedSubs(s: Session)
    requires forall i: nat :: i < |s.subs| ==> SubOK(s, i)
    requires (forall i :: i in s.active ==> i < |s.subs|) && (s.closed ==> s.active == {})
    ensures SubsOK(Changed(s))
  {
    forall i: nat | i < |s.subs| ensures SubOK(Changed(s), i) { assert SubOK(s, i); }
  }

  /** A numbered change on top of a session whose subscribers just changed. */
  lemma {:induction false} ChangedInv(s: Session, s1: Session)
    requires WatchesOK(s) && HeardOK(s)
    requires s1 == s.(subs := s1.subs, active := s1.active, closed := s1.closed)
    requires forall i: nat :: i < |s1.subs| ==> SubOK(s1, i)
    requires (forall i :: i in s1.active ==> i < |s1.subs|) && (s1.closed ==> s1.active == {})
    ensures Inv(Changed(s1))
  {
    TalkStays(s, s1);
    ChangedWatches(s1);
    ChangedHeard(s1);
    ChangedSubs(s1);
  }

  /** What watchers hear depends on the changes and notifications alone. */
  lemma {:induction false} TalkStays(s: Session, s': Session)
    requires WatchesOK(s) && HeardOK(s)
    requires s'.watches == s.watches && s'.log == s.log && s'.pending == s.pending
    requires s'.delivered == s.delivered && s'.heard == s.heard
    ensures WatchesOK(s') && HeardOK(s')
  {
    forall c: nat | 1 <= c <= |s'.log| ensures WatchOK(s', c) && SettledOrPending(s', c) {
      assert WatchOK(s, c) && SettledOrPending(s, c);
    }
    forall k | 0 <= k < |s'.heard| ensures HeardChange(s', s'.heard[k]) { assert HeardChange(s, s.heard[k]); }
  }

  lemma {:induction false} SubsStay(s: Session, s': Session)
    requires SubsOK(s) && s'.subs == s.subs && s'.active == s.active && s'.closed == s.closed && s'.log == s.log
    requires s'.chunks == s.chunks
    ensures SubsOK(s')
  {
    forall i: nat | i < |s'.subs| ensures SubOK(s', i) { assert SubOK(s, i); }
  }

  lemma {:induction false} PublishInv(s: Session, chunk: seq<byte>)
    requires Inv(s)
    ensures Inv(Publish(s, chunk))
  {
    var s' := Publish(s, chunk);
    TalkStays(s, s');
    forall i: nat | i < |s'.subs| ensures SubOK(s', i) { assert SubOK(s, i); }
  }

  lemma {:induction false} ReadInv(s: Session, i: nat)
    requires Inv(s) && Enabled(s, DoRead(i))
    ensures Inv(Next(s, DoRead(i)))
  {
    var s' := Next(s, DoRead(i));
    TalkStays(s, s');
    forall j: nat | j < |s'.subs| ensures SubOK(s', j) { assert SubOK(s, j); }
  }

  lemma {:induction false} WatchInv(s: Session)
    requires Inv(s)
    ensures Inv(Next(s, DoWatch))
  {
    var s' := Next(s, DoWatch);
    SubsStay(s, s');
    forall c: nat | 1 <= c <= |s'.log| ensures WatchOK(s', c) && SettledOrPending(s', c) {
      assert WatchOK(s, c) && SettledOrPending(s, c);
    }
    forall k | 0 <= k < |s'.heard| ensures HeardChange(s', s'.heard[k]) { assert HeardChange(s, s.heard[k]); }
  }

  lemma {:induction false} NotifyInv(s: Session, c: nat)
    requires Inv(s) && Enabled(s, DoNotify(c))
    ensures Inv(Notify(s, c))
  {
    var s' := Notify(s, c);
    SubsStay(s, s');
    forall b: nat | 1 <= b <= |s'.log| ensures WatchOK(s', b) && SettledOrPending(s', b) {
      assert WatchOK(s, b) && SettledOrPending(s, b);
    }
    assert forall k :: 0 <= k < |s.heard| ==> HeardChange(s, s.heard[k]);
    forall k | 0 <= k < |s'.heard| ensures HeardChange(s', s'.heard[k]) {
      if k < |s.heard| { assert s'.heard[k] == s.heard[k]; }
    }
  }

  lemma {:induction false} StepInv(s: Session, step: Step)
    requires Inv(s) && Enabled(s, step)
    ensures Inv(Next(s, step))
  {
    match step
    case DoPublish(chunk) => PublishInv(s, chunk);
    case DoSubscribe => SubscribeInv(s);
    case DoUnsubscribe(i) => UnsubscribeInv(s, i);
    case DoRead(i) => ReadInv(s, i);
    case DoClose => CloseInv(s);
    case DoWatch => WatchInv(s);
    case DoNotify(c) => NotifyInv(s, c);
  }

  lemma {:induction false} SubscribeInv(s: Session)
    requires Inv(s)
    ensures Inv(Subscribe(s))
  {
    if !s.closed {
      var s1 := s.(subs := s.subs + [Sub(|s.chunks|, [], 0, None)], active := s.active + {|s.subs|});
      forall i: nat | i < |s1.subs| ensures SubOK(s1, i) { if i < |s.subs| { assert SubOK(s, i); } }
      ChangedInv(s, s1);
    }
  }

  lemma {:induction false} UnsubscribeInv(s: Session, i: nat)
    requires Inv(s) && i < |s.subs|
    ensures Inv(Unsubscribe(s, i))
  {
    if i in s.active {
      var s1 := s.(subs := s.subs[i := Ended(s, i)], active := s.active - {i});
      forall j: nat | j < |s1.subs| ensures SubOK(s1, j) { assert SubOK(s, j); }
      ChangedInv(s, s1);
    }
  }

  lemma {:induction false} CloseInv(s: Session)
    requires Inv(s)
    ensures Inv(CloseSubscribers(s))
  {
    if !s.closed {
      var s1 := s.(closed := true, active := {}, subs := EndedAll(s.subs, s.active, |s.chunks|));
      forall j: nat | j < |s1.subs| ensures SubOK(s1, j) { assert SubOK(s, j); }
      if s.active != {} { ChangedInv(s, s1); } else { TalkStays(s, s1); }
    }
  }

  // ------------------------------------------------------------------ runs

  predicate Allowed(s: Session, steps: seq<Step>)
    decreases steps
  {
    steps == [] || (Enabled(s, steps[0]) && Allowed(Next(s, steps[0]), steps[1..]))
  }

  function Run(s: Session, steps: seq<Step>): Session
    requires Allowed(s, steps)
    decreases steps
  {
    if steps == [] then s else Run(Next(s, steps[0]), steps[1..])
  }

  function NewSession(limit: nat): Session {
    Session([], limit, [], {}, false, [], [], {}, 0, [])
  }

  lemma {:induction false} RunInv(s: Session, steps: seq<Step>)
    requires Inv(s) && Allowed(s, steps)
    ensures Inv(Run(s, steps))
    decreases steps
  {
    if steps != [] {
      StepInv(s, steps[0]);
      RunInv(Next(s, steps[0]), steps[1..]);
    }
  }

  // -------------------------------------------------------------- watchers

  /** In every run, whatever the order the notifications run in, watchers hear
      strictly later changes, each with the count it was numbered with. */
  lemma {:induction false} HeardInOrder(limit: nat, steps: seq<Step>)
    requires Allowed(NewSession(limit), steps)
    ensures var s := Run(NewSession(limit), steps);
      && Increasing(s.heard)
      && forall k :: 0 <= k < |s.heard| ==> 1 <= s.heard[k] <= |s.log| && s.log[s.heard[k] - 1].watch.Some?
  {
    RunInv(NewSession(limit), steps);
    var s := Run(NewSession(limit), steps);
    forall k | 0 <= k < |s.heard| ensures 1 <= s.heard[k] <= |s.log| && s.log[s.heard[k] - 1].watch.Some? {
      assert HeardChange(s, s.heard[k]);
    }
  }

  /** The watcher set last hears of the last change, if it was set before it. */
  lemma {:induction false} LastChangeHeard(s: Session, w: nat)
    requires Inv(s) && s.pending == {} && w + 1 == |s.watches| && s.watches[w] < |s.log|
    ensures s.heard != [] && s.heard[|s.heard| - 1] == |s.log| && s.log[|s.log| - 1] == Change(|s.active|, Some(w))
  {
    assert WatchOK(s, |s.log|) && SettledOrPending(s, |s.log|);
    assert s.heard != [] ==> HeardChange(s, s.heard[|s.heard| - 1]);
  }

  lemma {:induction false} NothingHeard(s: Session, w: nat, k: nat)
    requires Inv(s) && w + 1 == |s.watches| && s.watches[w] == |s.log| && k < |s.heard|
    ensures 1 <= s.heard[k] <= |s.log| && s.log[s.heard[k] - 1].watch != Some(w)
  {
    assert HeardChange(s, s.heard[k]) && WatchOK(s, s.heard[k]);
  }

  /** What the current watcher w has heard. */
  ghost predicate Heard(s: Session, w: nat) {
    exists k :: 0 <= k < |s.heard| && 1 <= s.heard[k] <= |s.log| && s.log[s.heard[k] - 1].watch == Some(w)
  }

  /** The current watcher has heard something exactly if a change was numbered
      after it was set, and then the last it heard is the subscribers now. */
  ghost predicate Converged(s: Session) {
    s.watches != [] &&
      var w := |s.watches| - 1;
      && (Heard(s, w) <==> s.watches[w] < |s.log|)
      && (s.watches[w] < |s.log| ==>
            && s.heard != [] && s.heard[|s.heard| - 1] == |s.log|
            && s.log[|s.log| - 1] == Change(|s.active|, Some(w)))
  }

  lemma {:induction false} QuietIsConverged(s: Session)
    requires Inv(s) && s.pending == {} && s.watches != []
    ensures Converged(s)
  {
    var w := |s.watches| - 1;
    if s.watches[w] < |s.log| {
      LastChangeHeard(s, w);
    } else {
      forall k: nat | k < |s.heard| ensures 1 <= s.heard[k] <= |s.log| && s.log[s.heard[k] - 1].watch != Some(w) {
        NothingHeard(s, w, k);
      }
    }
  }

  /** In every run, once no notification is pending, whatever order they ran in,
      the watcher has converged. */
  lemma {:induction false} WatcherConverges(limit: nat, steps: seq<Step>)
    requires Allowed(NewSession(limit), steps)
    requires var s := Run(NewSession(limit), steps); s.pending == {} && s.watches != []
    ensures Converged(Run(NewSession(limit), steps))
  {
    RunInv(NewSession(limit), steps);
    QuietIsConverged(Run(NewSession(limit), steps));
  }

  /** A subscriber that came before the watcher, and no change after it, stays
      unheard: the watcher is not told the count it starts with. */
  lemma {:induction false} EarlySubscriberUnheard(limit: nat)
    ensures var steps := [DoSubscribe, DoNotify(1), DoWatch];
      && Allowed(NewSession(limit), steps)
      && var s := Run(NewSession(limit), steps); s.pending == {} && s.heard == [] && |s.active| == 1 && |s.watches| == 1
  {
    var s0 := NewSession(limit);
    var s1 := Next(s0, DoSubscribe);
    assert s1.log == [Change(1, None)] && s1.pending == {1};
    var s2 := Next(s1, DoNotify(1));
    var s3 := Next(s2, DoWatch);
    var steps := [DoSubscribe, DoNotify(1), DoWatch];
    assert steps[1..] == [DoNotify(1), DoWatch] && [DoNotify(1), DoWatch][1..] == [DoWatch] && [DoWatch][1..] == [];
    assert Allowed(s2, [DoWatch]) && Run(s2, [DoWatch]) == s3;
    assert Allowed(s1, [DoNotify(1), DoWatch]) && Run(s1, [DoNotify(1), DoWatch]) == s3;
  }

  // --------------------------------------------------------------- streams

  /** The bytes of the chunks with these numbers. */
  function Stream(chunks: seq<seq<byte>>, got: seq<nat>): seq<byte>
    requires forall k :: 0 <= k < |got| ==> got[k] < |chunks|
  {
    if got == [] then [] else Stream(chunks, got[..|got| - 1]) + chunks[got[|got| - 1]]
  }

  /** Increasing numbers of a range, as many as the range has, are the range. */
  lemma {:induction false} FullRange(xs: seq<nat>, lo: nat, hi: nat, k: nat)
    requires Increasing(xs) && k < |xs| == hi - lo
    requires forall i :: 0 <= i < |xs| ==> lo <= xs[i] < hi
    ensures xs[k] == lo + k
  {
    AtLeast(xs, lo, k);
    AtMost(xs, hi, k);
  }

  lemma {:induction false} WholeRange(xs: seq<nat>, lo: nat, hi: nat)
    requires lo <= hi && Increasing(xs) && |xs| == hi - lo && forall i :: 0 <= i < |xs| ==> lo <= xs[i] < hi
    ensures forall k :: 0 <= k < |xs| ==> xs[k] == lo + k
  {
    forall k: nat | k < |xs| ensures xs[k] == lo + k { FullRange(xs, lo, hi, k); }
  }

  lemma {:induction false} AtLeast(xs: seq<nat>, lo: nat, k: nat)
    requires Increasing(xs) && k < |xs| && forall i :: 0 <= i < |xs| ==> lo <= xs[i]
    ensures xs[k] >= lo + k
  {
    if k > 0 { AtLeast(xs, lo, k - 1); }
  }

  lemma {:induction false} AtMost(xs: seq<nat>, hi: nat, k: nat)
    requires Increasing(xs) && k < |xs| && forall i :: 0 <= i < |xs| ==> xs[i] < hi
    ensures xs[k] + (|xs| - k) <= hi
    decreases |xs| - k
  {
    if k + 1 < |xs| { AtMost(xs, hi, k + 1); }
  }

  lemma {:induction false} ConcatSnoc(chunks: seq<seq<byte>>, n: nat)
    requires n < |chunks|
    ensures Concat(chunks[..n + 1]) == Concat(chunks[..n]) + chunks[n]
  {
    assert chunks[..n + 1][..n] == chunks[..n];
  }

  lemma {:induction false} ConcatOneMore(chunks: seq<seq<byte>>, chunk: seq<byte>)
    ensures Concat(chunks + [chunk]) == Concat(chunks) + chunk
  {
    var all := chunks + [chunk];
    ConcatSnoc(all, |chunks|);
    assert all[..|chunks|] == chunks && all[..|all|] == all;
  }

  lemma {:induction false} StreamSnoc(chunks: seq<seq<byte>>, got: seq<nat>)
    requires got != [] && forall k :: 0 <= k < |got| ==> got[k] < |chunks|
    ensures Stream(chunks, got) == Stream(chunks, got[..|got| - 1]) + chunks[got[|got| - 1]]
  {
  }

  lemma {:induction false} StreamOfRange(chunks: seq<seq<byte>>, got: seq<nat>, lo: nat)
    requires lo + |got| <= |chunks| && forall k :: 0 <= k < |got| ==> got[k] == lo + k
    ensures Concat(chunks[..lo]) + Stream(chunks, got) == Concat(chunks[..lo + |got|])
  {
    if got == [] {
      assert Concat(chunks[..lo]) + [] == Concat(chunks[..lo]);
    } else {
      var n := |got| - 1;
      StreamOfRange(chunks, got[..n], lo);
      ConcatSnoc(chunks, lo + n);
      StreamSnoc(chunks, got);
      Associates(Concat(chunks[..lo]), Stream(chunks, got[..n]), chunks[lo + n]);
    }
  }

  function SnapshotAt(s: Session, at: nat): seq<byte>
    requires at <= |s.chunks|
  {
    Window(Concat(s.chunks[..at]), s.limit)
  }

  lemma {:induction false} WindowThenRest(before: seq<byte>, limit: nat, rest: seq<byte>, all: seq<byte>)
    requires before + rest == all
    ensures var snapshot := Window(before, limit);
      |snapshot| <= |before| && before[..|before| - |snapshot|] + snapshot + rest == all
  {
    WindowEnds(before, limit);
  }

  /** A stream of as many chunks as were published is all of them. */
  lemma {:induction false} WholeStream(chunks: seq<seq<byte>>, limit: nat, at: nat, last: nat, got: seq<nat>)
    requires at <= last <= |chunks| && Increasing(got) && |got| == last - at
    requires forall k :: 0 <= k < |got| ==> at <= got[k] < last
    ensures var before := Concat(chunks[..at]);
            var snapshot := Window(before, limit);
      && |snapshot| <= |before|
      && before[..|before| - |snapshot|] + snapshot + Stream(chunks, got) == Concat(chunks[..last])
  {
    WholeRange(got, at, last);
    StreamOfRange(chunks, got, at);
    WindowThenRest(Concat(chunks[..at]), limit, Stream(chunks, got), Concat(chunks[..last]));
  }

  /** The stream has its chunks in order, none twice and none from before the
      subscription or after its end. If it lost none, then the bytes before the
      window, the snapshot and the stream are everything published until the
      end: no gap and no repeat between the window and the stream. */
  ghost predicate Seamless(s: Session, i: nat)
    requires i < |s.subs|
  {
    var sub := s.subs[i];
    && sub.at <= LastOf(s, i) <= |s.chunks|
    && Increasing(sub.got) && (forall k :: 0 <= k < |sub.got| ==> sub.at <= sub.got[k] < LastOf(s, i))
    && |sub.got| <= LastOf(s, i) - sub.at
    && (|sub.got| == LastOf(s, i) - sub.at ==>
          var before := Concat(s.chunks[..sub.at]);
          var snapshot := Window(before, s.limit);
          && |snapshot| <= |before|
          && before[..|before| - |snapshot|] + snapshot + Stream(s.chunks, sub.got) == Concat(s.chunks[..LastOf(s, i)]))
  }

  lemma {:induction false} SubIsSeamless(s: Session, i: nat)
    requires i < |s.subs| && SubOK(s, i)
    ensures Seamless(s, i)
  {
    var sub := s.subs[i];
    if sub.got != [] { AtMost(sub.got, LastOf(s, i), 0); }
    if |sub.got| == LastOf(s, i) - sub.at { WholeStream(s.chunks, s.limit, sub.at, LastOf(s, i), sub.got); }
  }

  /** So it is for every subscriber in every run. */
  lemma {:induction false} SnapshotThenStream(limit: nat, steps: seq<Step>, i: nat)
    requires Allowed(NewSession(limit), steps) && i < |Run(NewSession(limit), steps).subs|
    ensures Run(NewSession(limit), steps).limit == limit && Seamless(Run(NewSession(limit), steps), i)
  {
    RunInv(NewSession(limit), steps);
    LimitKept(NewSession(limit), steps);
    SubIsSeamless(Run(NewSession(limit), steps), i);
  }

  lemma {:induction false} WindowEnds(all: seq<byte>, limit: nat)
    ensures |Window(all, limit)| <= |all| && all[..|all| - |Window(all, limit)|] + Window(all, limit) == all
  {
  }

  lemma {:induction false} LimitKept(s: Session, steps: seq<Step>)
    requires Allowed(s, steps)
    ensures Run(s, steps).limit == s.limit
    decreases steps
  {
    if steps != [] { LimitKept(Next(s, steps[0]), steps[1..]); }
  }

  /** A publish reaches an active subscriber exactly if its queue has room, and
      never one that has ended. */
  lemma {:induction false} LostOnlyWhenFull(limit: nat, steps: seq<Step>, i: nat, chunk: seq<byte>)
    requires Allowed(NewSession(limit), steps) && i < |Run(NewSession(limit), steps).subs|
    ensures var s := Run(NewSession(limit), steps);
            |s.chunks| in Publish(s, chunk).subs[i].got <==> s.subs[i].end.None? && s.subs[i].unread < QUEUE
  {
    RunInv(NewSession(limit), steps);
    var s := Run(NewSession(limit), steps);
    assert SubOK(s, i);
    var sub := s.subs[i];
    assert |s.chunks| !in sub.got;
    if i in s.active && sub.unread < QUEUE { assert Queued(sub, |s.chunks|).got[|sub.got|] == |s.chunks|; }
  }

  // ------------------------------------------------- what a step does to one

  /** The subscription ends with this step. */
  predicate Ends(s: Session, step: Step, i: nat) {
    i in s.active && (step == DoUnsubscribe(i) || step.DoClose?)
  }

  /** A chunk reaches the subscriber with this step. */
  predicate Gets(s: Session, step: Step, i: nat)
    requires i < |s.subs|
  {
    step.DoPublish? && i in s.active && s.subs[i].unread < QUEUE
  }

  /** A step adds at most the chunk it publishes, takes at most the one it
      reads, and ends a subscription only by name or by the output's end. */
  predicate Moved(s: Session, step: Step, i: nat, after: Sub)
    requires i < |s.subs|
  {
    var sub := s.subs[i];
    && after.at == sub.at
    && after.got == sub.got + (if Gets(s, step, i) then [|s.chunks|] else [])
    && after.unread == sub.unread + (if Gets(s, step, i) then 1 else 0) - (if step == DoRead(i) then 1 else 0)
    && after.end == (if Ends(s, step, i) then Some(|s.chunks|) else sub.end)
  }

  lemma {:induction false} StepMovesSub(s: Session, step: Step, i: nat)
    requires Enabled(s, step) && i < |s.subs| && (s.closed ==> i !in s.active)
    ensures i < |Next(s, step).subs| && Moved(s, step, i, Next(s, step).subs[i])
  {
    match step
    case DoUnsubscribe(j) => UnsubscribeMovesSub(s, j, i);
    case DoClose => CloseMovesSub(s, i);
    case _ =>
  }

  lemma {:induction false} UnsubscribeMovesSub(s: Session, j: nat, i: nat)
    requires i < |s.subs| && j < |s.subs|
    ensures i < |Unsubscribe(s, j).subs| && Moved(s, DoUnsubscribe(j), i, Unsubscribe(s, j).subs[i])
  {
  }

  lemma {:induction false} CloseMovesSub(s: Session, i: nat)
    requires i < |s.subs| && (s.closed ==> i !in s.active)
    ensures i < |CloseSubscribers(s).subs| && Moved(s, DoClose, i, CloseSubscribers(s).subs[i])
  {
  }

  predicate Joins(s: Session, step: Step) {
    step.DoSubscribe? && !s.closed
  }

  /** Who is subscribed afterwards, and what that adds to the log. */
  ghost predicate ActiveMoved(s: Session, step: Step, s': Session) {
    && |s'.subs| == |s.subs| + (if Joins(s, step) then 1 else 0)
    && (Joins(s, step) ==> s'.subs[|s.subs|] == Sub(|s.chunks|, [], 0, None))
    && (forall i: nat :: i in s'.active <==> (i in s.active && !Ends(s, step, i)) || (Joins(s, step) && i == |s.subs|))
    && |s'.log| == |s.log| + (if s'.active == s.active then 0 else 1)
    && (s'.active != s.active ==> s'.log[|s.log|].count == |s'.active|)
  }

  /** Who is subscribed changes by a subscription to an open session, by its own
      end, and by the output's end; each of these is numbered as one change of
      the count, and nothing else is. */
  lemma {:induction false} StepMovesActive(s: Session, step: Step)
    requires SubsOK(s) && Enabled(s, step)
    ensures var s' := Next(s, step);
      && ActiveMoved(s, step, s')
      && s'.closed == (s.closed || step.DoClose?)
      && s'.chunks == s.chunks + (if step.DoPublish? then [step.chunk] else [])
  {
    match step
    case DoSubscribe => SubscribeMoves(s);
    case DoUnsubscribe(i) => UnsubscribeMoves(s, i);
    case DoClose => CloseMoves(s);
    case _ => OthersMove(s, step);
  }

  lemma {:induction false} OthersMove(s: Session, step: Step)
    requires Enabled(s, step) && (step.DoPublish? || step.DoRead? || step.DoWatch? || step.DoNotify?)
    ensures ActiveMoved(s, step, Next(s, step))
  {
  }

  lemma {:induction false} SubscribeMoves(s: Session)
    requires SubsOK(s)
    ensures ActiveMoved(s, DoSubscribe, Subscribe(s))
  {
    if !s.closed { assert |s.subs| in Subscribe(s).active && |s.subs| !in s.active; }
  }

  lemma {:induction false} UnsubscribeMoves(s: Session, i: nat)
    requires i < |s.subs|
    ensures ActiveMoved(s, DoUnsubscribe(i), Unsubscribe(s, i))
  {
    if i in s.active { assert i !in Unsubscribe(s, i).active; }
  }

  lemma {:induction false} CloseMoves(s: Session)
    requires SubsOK(s)
    ensures ActiveMoved(s, DoClose, CloseSubscribers(s))
  {
  }

  function ReadsOf(steps: seq<Step>, i: nat): nat {
    if steps == [] then 0 else (if steps[0] == DoRead(i) then 1 else 0) + ReadsOf(steps[1..], i)
  }

  /** A queue holds what came into it and was not read: through any run, the
      chunks a subscriber got are those it had read, those it read meanwhile,
      and those still in its queue. */
  lemma {:induction false} QueueHoldsUnread(s: Session, steps: seq<Step>, i: nat)
    requires Inv(s) && Allowed(s, steps) && i < |s.subs|
    ensures var s' := Run(s, steps);
      && i < |s'.subs| && s.subs[i].unread <= |s.subs[i].got|
      && |s'.subs[i].got| == (|s.subs[i].got| - s.subs[i].unread) + ReadsOf(steps, i) + s'.subs[i].unread
    decreases steps
  {
    assert SubOK(s, i);
    if steps != [] {
      StepMovesSub(s, steps[0], i);
      StepInv(s, steps[0]);
      QueueHoldsUnread(Next(s, steps[0]), steps[1..], i);
    }
  }

  // ----------------------------------------------------------- the session

  class ManagedSession {
    var history: Buffer
    var subscribers: set<nat>
    var queues: seq<Sub>
    var closed: bool
    var watchers: seq<nat>
    var log: seq<Change>
    var pending: set<nat>
    var delivered: nat
    /** The record of the run: what watchers heard and what was published. */
    var heard: seq<nat>
    var chunks: seq<seq<byte>>

    ghost function View(): Session
      reads this, history
    {
      Session(chunks, history.limit, queues, subscribers, closed, watchers, log, pending, delivered, heard)
    }

    ghost predicate Valid()
      reads this, history, history.buf
    {
      history.Valid() && history.all == Concat(chunks) && Inv(View())
    }

    constructor (limit: nat)
      ensures Valid() && fresh(history) && fresh(history.buf) && View() == NewSession(limit)
    {
      history := new Buffer(limit);
      subscribers, queues, closed, watchers := {}, [], false, [];
      log, pending, delivered := [], {}, 0;
      heard, chunks := [], [];
    }

    method PublishChunk(chunk: seq<byte>)
      requires Valid()
      modifies this, history, history.buf
      ensures Valid() && history == old(history) && (history.buf == old(history.buf) || fresh(history.buf))
      ensures View() == Publish(old(View()), chunk)
    {
      PublishInv(View(), chunk);
      ConcatOneMore(chunks, chunk);
      assert forall i: nat :: i < |queues| ==> SubOK(View(), i);
      history.Append(chunk);
      Enqueue(chunk);
    }

    method Enqueue(chunk: seq<byte>)
      requires forall i :: i in subscribers ==> i < |queues|
      modifies this`queues, this`chunks
      ensures queues == QueuedAll(old(queues), subscribers, |old(chunks)|) && chunks == old(chunks) + [chunk]
    {
      queues := Deliver(subscribers, queues, |chunks|);
      chunks := chunks + [chunk];
    }

    method SubscribeNow() returns (snapshot: seq<byte>, id: Option<nat>)
      requires Valid()
      modifies this
      ensures Valid() && history == old(history) && View() == Subscribe(old(View()))
      ensures snapshot == SnapshotAt(View(), |chunks|)
      ensures id == if old(closed) then None else Some(|old(queues)|)
    {
      SubscribeInv(View());
      snapshot := history.Snapshot();
      assert chunks[..|chunks|] == chunks;
      id := AddSubscriber();
    }

    method AddSubscriber() returns (id: Option<nat>)
      modifies this`queues, this`subscribers, this`log, this`pending
      ensures View() == Subscribe(old(View())) && id == if closed then None else Some(|old(queues)|)
    {
      if closed { return None; }
      id := Some(|queues|);
      queues := queues + [Sub(|chunks|, [], 0, None)];
      subscribers := subscribers + {id.value};
      var change := CountChanged();
    }

    /** The change's number, whose notification the caller runs later. */
    method CountChanged() returns (change: nat)
      modifies this`log, this`pending
      ensures log == old(log) + [Change(|subscribers|, if watchers == [] then None else Some(|watchers| - 1))]
      ensures pending == old(pending) + {change} && change == |log|
    {
      var watch := if watchers == [] then None else Some(|watchers| - 1);
      log := log + [Change(|subscribers|, watch)];
      change := |log|;
      pending := pending + {change};
    }

    /** A second time finds nothing to remove. */
    method UnsubscribeNow(id: nat)
      requires Valid() && id < |queues|
      modifies this
      ensures Valid() && history == old(history) && View() == Unsubscribe(old(View()), id)
    {
      UnsubscribeInv(View(), id);
      if id !in subscribers { return; }
      subscribers := subscribers - {id};
      queues := queues[id := queues[id].(end := Some(|chunks|))];
      var change := CountChanged();
    }

    method CloseAll()
      requires Valid()
      modifies this
      ensures Valid() && history == old(history) && View() == CloseSubscribers(old(View()))
    {
      CloseInv(View());
      assert forall i: nat :: i < |queues| ==> SubOK(View(), i);
      EndSubscriptions();
    }

    method EndSubscriptions()
      requires forall i :: i in subscribers ==> i < |queues|
      modifies this`closed, this`queues, this`subscribers, this`log, this`pending
      ensures View() == CloseSubscribers(old(View()))
    {
      if closed { return; }
      var had := |subscribers|;
      assert had > 0 <==> subscribers != {};
      var ended := EndEach(subscribers, queues, |chunks|);
      closed, queues, subscribers := true, ended, {};
      assert View() == old(View()).(closed := true, active := {}, subs := ended);
      if had > 0 { var change := CountChanged(); }
    }

    method WatchCount()
      requires Valid()
      modifies this
      ensures Valid() && history == old(history) && View() == Next(old(View()), DoWatch)
    {
      WatchInv(View());
      watchers := watchers + [|log|];
    }

    method RunNotification(change: nat) returns (told: Option<nat>)
      requires Valid() && change in pending
      modifies this
      ensures Valid() && history == old(history) && View() == Notify(old(View()), change)
      ensures told.Some? ==> heard == old(heard) + [change] && told.value == log[change - 1].count
      ensures told.None? ==> heard == old(heard)
    {
      NotifyInv(View(), change);
      told := Tell(change);
    }

    method Tell(change: nat) returns (told: Option<nat>)
      requires 1 <= change <= |log|
      modifies this`pending, this`delivered, this`heard
      ensures View() == Notify(old(View()), change)
      ensures told.Some? ==> heard == old(heard) + [change] && told.value == log[change - 1].count
      ensures told.None? ==> heard == old(heard)
    {
      pending := pending - {change};
      if log[change - 1].watch.None? || change <= delivered { return None; }
      delivered := change;
      heard := heard + [change];
      told := Some(log[change - 1].count);
    }
  }

  /** Queues chunk number n for every subscriber, in any order. */
  method Deliver(subscribers: set<nat>, queues: seq<Sub>, n: nat) returns (out: seq<Sub>)
    requires forall i :: i in subscribers ==> i < |queues|
    ensures out == QueuedAll(queues, subscribers, n)
  {
    out := queues;
    var left := subscribers;
    while left != {}
      invariant left <= subscribers && |out| == |queues|
      invariant forall i :: 0 <= i < |queues| ==>
        out[i] == if i in subscribers && i !in left then Queued(queues[i], n) else queues[i]
      decreases left
    {
      var i :| i in left;
      if out[i].unread < QUEUE {
        out := out[i := out[i].(got := out[i].got + [n], unread := out[i].unread + 1)];
      }
      left := left - {i};
    }
  }

  /** Ends every subscription, in any order. */
  method EndEach(subscribers: set<nat>, queues: seq<Sub>, n: nat) returns (out: seq<Sub>)
    requires forall i :: i in subscribers ==> i < |queues|
    ensures out == EndedAll(queues, subscribers, n)
  {
    out := queues;
    var left := subscribers;
    while left != {}
      invariant left <= subscribers && |out| == |queues|
      invariant forall i :: 0 <= i < |queues| ==>
        out[i] == if i in subscribers && i !in left then queues[i].(end := Some(n)) else queues[i]
      decreases left
    {
      var i :| i in left;
      out := out[i := out[i].(end := Some(n))];
      left := left - {i};
    }
  }
}
