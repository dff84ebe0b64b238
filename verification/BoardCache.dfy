/** The dashboard's bounded view of the history the relay records. */
module BoardCache {

  datatype CachedRow<Row> = CachedRow(seqNo: nat, row: Row)

  /** Everything appended after the first `from` rows, numbered from 1. */
  function Numbered<Row>(rows: seq<Row>, from: nat): seq<CachedRow<Row>>
    requires from <= |rows|
  {
    seq(|rows| - from, i requires 0 <= i < |rows| - from => CachedRow(from + i + 1, rows[from + i]))
  }

  class BoardCache<Row> {
    var history: seq<CachedRow<Row>>
    var nextSeq: nat
    const maxHistory: nat
    /** Every row ever appended. */
    ghost var appended: seq<Row>

    ghost function Dropped(): nat
      reads this
    {
      if |appended| > maxHistory then |appended| - maxHistory else 0
    }

    ghost predicate Valid()
      reads this
    {
      nextSeq == |appended| && history == Numbered(appended, Dropped())
    }

    constructor (maxHistory: nat)
      ensures Valid() && appended == [] && this.maxHistory == maxHistory
    {
      this.maxHistory := maxHistory;
      history, nextSeq, appended := [], 0, [];
    }

    method AppendMessage(r: Row)
      requires Valid()
      modifies this
      ensures Valid() && appended == old(appended) + [r]
    {
      nextSeq := nextSeq + 1;
      history := history + [CachedRow(nextSeq, r)];
      var overflow: int := |history| - maxHistory;
      if overflow > 0 { history := history[overflow..]; }
      appended := appended + [r];
    }

    /** A reader that has seen the first `afterSeq` rows gets, in order, every
        later one the bound still holds. */
    method MessagesSince(afterSeq: nat) returns (out: seq<CachedRow<Row>>)
      requires Valid()
      ensures afterSeq >= |appended| ==> out == []
      ensures afterSeq < |appended| ==>
        out == Numbered(appended, if afterSeq > Dropped() then afterSeq else Dropped())
    {
      out := [];
      ghost var start: int := if afterSeq > Dropped() then afterSeq - Dropped() else 0;
      for i := 0 to |history|
        invariant out == if i > start then history[start..i] else []
      {
        if history[i].seqNo > afterSeq { out := out + [history[i]]; }
      }
    }
  }
}
