/** The own-send ledger and its counter machine. */
module Ledger {
  // One expiry per occurrence of a send panemux issued itself refines one pair
  // of counts per key.

  import opened Text

  /** One send, named by where it went and what it said. */
  datatype Key = Key(destHost: string, team: string, to: string, body: string)

  type Entries = map<Key, seq<int>>

  function Occurrences(entries: Entries, key: Key): seq<int> {
    if key in entries then entries[key] else []
  }

  function WithOccurrences(entries: Entries, key: Key, expiries: seq<int>): Entries {
    if expiries == [] then entries - {key} else entries[key := expiries]
  }

  function Recorded(entries: Entries, key: Key, now: int, ttl: nat): Entries {
    entries[key := Occurrences(entries, key) + [now + ttl]]
  }

  /** The occurrences still matchable: `now` is not after their expiry. */
  function Live(expiries: seq<int>, now: int): seq<int> {
    if expiries == [] then []
    else
      var n := |expiries| - 1;
      var live := Live(expiries[..n], now);
      if now > expiries[n] then live else live + [expiries[n]]
  }

  function Matches(entries: Entries, key: Key, now: int): bool {
    Live(Occurrences(entries, key), now) != []
  }

  function Consumed(entries: Entries, key: Key, now: int): Entries {
    var live := Live(Occurrences(entries, key), now);
    WithOccurrences(entries, key, if live == [] then [] else live[1..])
  }

  function Forgotten(entries: Entries, key: Key): Entries {
    var expiries := Occurrences(entries, key);
    if expiries == [] then entries else WithOccurrences(entries, key, expiries[..|expiries| - 1])
  }

  class OwnSendLedger {
    var entries: Entries
    const ttl: nat

    constructor (ttl: nat)
      ensures entries == map[] && this.ttl == ttl
    {
      this.ttl := ttl;
      entries := map[];
    }

    method Record(key: Key, now: int)
      modifies this
      ensures entries == Recorded(old(entries), key, now, ttl)
    {
      var held := if key in entries then entries[key] else [];
      entries := entries[key := held + [now + ttl]];
    }

    method Consume(key: Key, now: int) returns (matched: bool)
      modifies this
      ensures matched == Matches(old(entries), key, now)
      ensures entries == Consumed(old(entries), key, now)
    {
      matched := false;
      var live := [];
      var held := if key in entries then entries[key] else [];
      for i := 0 to |held|
        invariant matched <==> Live(held[..i], now) != []
        invariant live == if matched then Live(held[..i], now)[1..] else []
      {
        assert held[..i + 1][..i] == held[..i];
        if now > held[i] { continue; }
        if !matched {
          matched := true;
          continue;
        }
        live := live + [held[i]];
      }
      assert held[..|held|] == held;
      if |live| == 0 {
        entries := entries - {key};
      } else {
        entries := entries[key := live];
      }
    }

    method Forget(key: Key)
      modifies this
      ensures entries == Forgotten(old(entries), key)
    {
      var held := if key in entries then entries[key] else [];
      if |held| == 1 {
        entries := entries - {key};
      } else if |held| > 1 {
        entries := entries[key := held[..|held| - 1]];
      }
    }
  }

  // -------------------------------------------------------- counter machine

  /** One key's occurrences as two counts. */
  datatype Counts = Counts(expired: nat, live: nat)

  function CountsOf(expiries: seq<int>, now: int): Counts {
    LiveBounded(expiries, now);
    Counts(|expiries| - |Live(expiries, now)|, |Live(expiries, now)|)
  }

  lemma {:induction false} LiveBounded(expiries: seq<int>, now: int)
    ensures |Live(expiries, now)| <= |expiries|
  {
    if expiries != [] { LiveBounded(expiries[..|expiries| - 1], now); }
  }

  /** What a monotone clock keeps: every list non-empty and ascending, none of
      its expiries more than the lifetime ahead of now. */
  ghost predicate Inv(entries: Entries, now: int, ttl: nat) {
    forall k :: k in entries ==> entries[k] != [] && Ordered(entries[k], now, ttl)
  }

  ghost predicate Ordered(expiries: seq<int>, now: int, ttl: nat) {
    && (forall i, j :: 0 <= i < j < |expiries| ==> expiries[i] <= expiries[j])
    && (forall i :: 0 <= i < |expiries| ==> expiries[i] <= now + ttl)
  }

  lemma {:induction false} NoneLive(expiries: seq<int>, now: int)
    requires forall i :: 0 <= i < |expiries| ==> expiries[i] < now
    ensures Live(expiries, now) == []
  {
    if expiries != [] { NoneLive(expiries[..|expiries| - 1], now); }
  }

  /** In an ordered list the live occurrences are its end. */
  lemma {:induction false} LiveIsSuffix(expiries: seq<int>, now: int, ttl: nat)
    requires Ordered(expiries, now, ttl)
    ensures |Live(expiries, now)| <= |expiries|
    ensures Live(expiries, now) == expiries[|expiries| - |Live(expiries, now)|..]
    ensures forall i :: 0 <= i < |expiries| - |Live(expiries, now)| ==> expiries[i] < now
  {
    if expiries != [] {
      var n := |expiries| - 1;
      LiveIsSuffix(expiries[..n], now, ttl);
      var live := Live(expiries[..n], now);
      if now > expiries[n] {
        NoneLive(expiries, now);
      } else {
        assert expiries[|expiries| - |live + [expiries[n]]|..] == expiries[..n][n - |live|..] + [expiries[n]];
      }
    }
  }

  lemma {:induction false} LiveNotExpired(expiries: seq<int>, now: int, i: nat)
    requires i < |Live(expiries, now)|
    ensures Live(expiries, now)[i] >= now
  {
    var n := |expiries| - 1;
    if i < |Live(expiries[..n], now)| { LiveNotExpired(expiries[..n], now, i); }
  }

  lemma {:induction false} AllLive(expiries: seq<int>, now: int)
    requires forall i :: 0 <= i < |expiries| ==> now <= expiries[i]
    ensures Live(expiries, now) == expiries
  {
    if expiries != [] {
      AllLive(expiries[..|expiries| - 1], now);
      assert expiries == expiries[..|expiries| - 1] + [expiries[|expiries| - 1]];
    }
  }

  /** The machine: what each call makes of the key's counts and reports. */
  function CountsRecord(c: Counts): Counts { c.(live := c.live + 1) }

  function CountsConsume(c: Counts): (Counts, bool) {
    if c.live > 0 then (Counts(0, c.live - 1), true) else (Counts(0, 0), false)
  }

  function CountsForget(c: Counts): Counts {
    if c.live > 0 then c.(live := c.live - 1)
    else if c.expired > 0 then c.(expired := c.expired - 1)
    else c
  }

  function At(entries: Entries, key: Key, now: int): Counts {
    CountsOf(Occurrences(entries, key), now)
  }

  /** Record adds one live occurrence of its key and touches no other. */
  lemma {:induction false} RecordRefines(entries: Entries, key: Key, now: int, ttl: nat)
    requires Inv(entries, now, ttl)
    ensures var e' := Recorded(entries, key, now, ttl);
      && Inv(e', now, ttl) && At(e', key, now) == CountsRecord(At(entries, key, now))
      && forall k :: k != key ==> Occurrences(e', k) == Occurrences(entries, k)
  {
    var held := Occurrences(entries, key);
    assert (held + [now + ttl])[..|held|] == held;
  }

  /** Consume matches exactly when something is live, takes one of those and
      collects everything expired. */
  lemma {:induction false} ConsumeRefines(entries: Entries, key: Key, now: int, ttl: nat)
    requires Inv(entries, now, ttl)
    ensures var e' := Consumed(entries, key, now);
      && Inv(e', now, ttl)
      && (At(e', key, now), Matches(entries, key, now)) == CountsConsume(At(entries, key, now))
      && forall k :: k != key ==> Occurrences(e', k) == Occurrences(entries, k)
  {
    var held := Occurrences(entries, key);
    if Live(held, now) != [] { KeptIsLive(held, now, ttl); }
  }

  /** What is left after a match is live and in order. */
  lemma {:induction false} KeptIsLive(expiries: seq<int>, now: int, ttl: nat)
    requires Ordered(expiries, now, ttl) && Live(expiries, now) != []
    ensures var kept := Live(expiries, now)[1..];
      Ordered(kept, now, ttl) && CountsOf(kept, now) == Counts(0, |kept|)
  {
    LiveIsSuffix(expiries, now, ttl);
    var live := Live(expiries, now);
    forall i | 0 <= i < |live| ensures now <= live[i] { LiveNotExpired(expiries, now, i); }
    AllLive(live[1..], now);
  }

  lemma {:induction false} LastIsLive(expiries: seq<int>, now: int, ttl: nat)
    requires expiries != [] && Ordered(expiries, now, ttl)
    ensures CountsOf(expiries[..|expiries| - 1], now) == CountsForget(CountsOf(expiries, now))
  {
    var live := Live(expiries, now);
    LiveIsSuffix(expiries, now, ttl);
    LiveBounded(expiries[..|expiries| - 1], now);
    if live != [] {
      LiveNotExpired(expiries, now, |live| - 1);
      assert live[|live| - 1] == expiries[|expiries| - 1];
    }
  }

  /** Forget removes a live occurrence if there is one, else an expired one. */
  lemma {:induction false} ForgetRefines(entries: Entries, key: Key, now: int, ttl: nat)
    requires Inv(entries, now, ttl)
    ensures var e' := Forgotten(entries, key);
      && Inv(e', now, ttl) && At(e', key, now) == CountsForget(At(entries, key, now))
      && forall k :: k != key ==> Occurrences(e', k) == Occurrences(entries, k)
  {
    var held := Occurrences(entries, key);
    if held != [] { LastIsLive(held, now, ttl); }
  }

  /** Time passing only turns live occurrences into expired ones. */
  lemma {:induction false} TickRefines(entries: Entries, key: Key, now: int, later: int, ttl: nat)
    requires Inv(entries, now, ttl) && now <= later
    ensures Inv(entries, later, ttl)
    ensures At(entries, key, later).live <= At(entries, key, now).live
    ensures At(entries, key, later).expired + At(entries, key, later).live
         == At(entries, key, now).expired + At(entries, key, now).live
  {
    LiveShrinks(Occurrences(entries, key), now, later);
  }

  lemma {:induction false} LiveShrinks(expiries: seq<int>, now: int, later: int)
    requires now <= later
    ensures |Live(expiries, later)| <= |Live(expiries, now)|
  {
    if expiries != [] { LiveShrinks(expiries[..|expiries| - 1], now, later); }
  }

  lemma {:induction false} LiveSnoc(expiries: seq<int>, expiry: int, now: int)
    ensures Live(expiries + [expiry], now) == Live(expiries, now) + (if now > expiry then [] else [expiry])
  {
    assert (expiries + [expiry])[..|expiries|] == expiries;
  }

  /** A recorded occurrence can be matched until its lifetime has passed, and
      not any longer: until then the key has one more than it would have. */
  lemma {:induction false} LivesItsTime(entries: Entries, key: Key, now: int, ttl: nat, elapsed: nat)
    ensures var e' := Recorded(entries, key, now, ttl);
      At(e', key, now + elapsed).live == At(entries, key, now + elapsed).live + (if elapsed <= ttl then 1 else 0)
  {
    LiveSnoc(Occurrences(entries, key), now + ttl, now + elapsed);
  }

  /** A Record followed at once by a Forget leaves every key as it was, also
      when time passed in between. */
  lemma {:induction false} ForgetUndoesRecord(entries: Entries, key: Key, now: int, ttl: nat)
    requires Inv(entries, now, ttl)
    ensures Forgotten(Recorded(entries, key, now, ttl), key) == entries
  {
    var held := Occurrences(entries, key);
    assert (held + [now + ttl])[..|held|] == held;
    if key in entries { assert entries[key := held] == entries; }
  }

  // ------------------------------------------------------------------- runs

  datatype Op = DoRecord(key: Key) | DoConsume(key: Key) | DoForget(key: Key) | Tick(elapsed: nat)

  /** What happened to one key so far. */
  datatype History = History(recorded: nat, matched: nat, forgotten: nat, collected: nat)

  datatype State = State(entries: Entries, now: int, h: History)

  /** One call, with the history of `key` kept beside it. */
  function Step(s: State, key: Key, ttl: nat, op: Op): State {
    match op
    case DoRecord(k) =>
      State(Recorded(s.entries, k, s.now, ttl), s.now,
            if k == key then s.h.(recorded := s.h.recorded + 1) else s.h)
    case DoConsume(k) =>
      State(Consumed(s.entries, k, s.now), s.now,
            if k == key then s.h.(matched := s.h.matched + (if Matches(s.entries, k, s.now) then 1 else 0),
                                  collected := s.h.collected + At(s.entries, k, s.now).expired)
            else s.h)
    case DoForget(k) =>
      State(Forgotten(s.entries, k), s.now,
            if k == key && Occurrences(s.entries, k) != [] then s.h.(forgotten := s.h.forgotten + 1) else s.h)
    case Tick(d) => s.(now := s.now + d)
  }

  function Exec(s: State, key: Key, ttl: nat, ops: seq<Op>): State
    decreases ops
  {
    if ops == [] then s else Exec(Step(s, key, ttl, ops[0]), key, ttl, ops[1..])
  }

  ghost predicate Conserved(s: State, key: Key, ttl: nat) {
    && Inv(s.entries, s.now, ttl)
    && s.h.recorded == s.h.matched + s.h.forgotten + s.h.collected + |Occurrences(s.entries, key)|
  }

  lemma {:induction false} StepConserves(s: State, key: Key, ttl: nat, op: Op)
    requires Conserved(s, key, ttl)
    ensures Conserved(Step(s, key, ttl, op), key, ttl)
  {
    match op
    case DoRecord(k) => RecordRefines(s.entries, k, s.now, ttl);
    case DoConsume(k) => ConsumeRefines(s.entries, k, s.now, ttl);
    case DoForget(k) => ForgetRefines(s.entries, k, s.now, ttl);
    case Tick(d) => TickRefines(s.entries, key, s.now, s.now + d, ttl);
  }

  /** Over every sequence of calls on any keys, each occurrence recorded for a
      key is accounted for exactly once, so successful Consumes never exceed
      the Records that were not forgotten. */
  lemma {:induction false} Conservation(s: State, key: Key, ttl: nat, ops: seq<Op>)
    requires Conserved(s, key, ttl)
    ensures var s' := Exec(s, key, ttl, ops);
      Conserved(s', key, ttl) && s'.h.matched + s'.h.forgotten <= s'.h.recorded
    decreases ops
  {
    if ops != [] {
      StepConserves(s, key, ttl, ops[0]);
      Conservation(Step(s, key, ttl, ops[0]), key, ttl, ops[1..]);
    }
  }
}
