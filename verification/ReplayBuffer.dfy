/** The replay buffer of a session: a ring that grows up to its limit and keeps
    the newest bytes of everything appended. */
module ReplayBuffer {
  newtype byte = x: int | 0 <= x < 256

  const INITIAL_BYTES: nat := 4096

  /** The last `limit` bytes, or all there are. */
  function Window(all: seq<byte>, limit: nat): (w: seq<byte>)
    ensures |w| == if |all| < limit then |all| else limit
  {
    if |all| <= limit then all else all[|all| - limit..]
  }

  /** Only the window of the past matters for the window of what follows. */
  lemma {:induction false} WindowForgets(all: seq<byte>, chunk: seq<byte>, limit: nat)
    ensures Window(Window(all, limit) + chunk, limit) == Window(all + chunk, limit)
  {
    var kept := Window(all, limit);
    if |all| > limit {
      var cut := |all| - limit;
      assert (all + chunk)[cut..] == kept + chunk;
      assert (all + chunk)[cut..][|chunk|..] == (all + chunk)[cut + |chunk|..];
    }
  }

  function Wrap(i: nat, n: nat): nat {
    if i < n then i else i - n
  }

  /** `size` bytes from `start` on, around the end of the storage. */
  function Ring(b: seq<byte>, start: nat, size: nat): (r: seq<byte>)
    requires start < |b| || start == size == 0
    requires size <= |b|
    ensures |r| == size
  {
    seq(size, k requires 0 <= k < size <= |b| && start < |b| => b[Wrap(start + k, |b|)])
  }

  lemma {:induction false} RingFront(b: seq<byte>, size: nat)
    requires size <= |b|
    ensures Ring(b, 0, size) == b[..size]
  {
    forall k | 0 <= k < size ensures Ring(b, 0, size)[k] == b[k] { assert Wrap(0 + k, |b|) == k; }
  }

  lemma {:induction false} RingSlices(b: seq<byte>, start: nat, size: nat)
    requires start < |b| && size <= |b|
    ensures Ring(b, start, size) ==
      if start + size <= |b| then b[start..start + size] else b[start..] + b[..start + size - |b|]
  {
    var slices := if start + size <= |b| then b[start..start + size] else b[start..] + b[..start + size - |b|];
    forall k | 0 <= k < size ensures Ring(b, start, size)[k] == slices[k] { assert Wrap(start + k, |b|) < |b|; }
  }

  lemma {:induction false} WrapIsMod(i: nat, n: nat)
    requires i < 2 * n
    ensures i % n == Wrap(i, n)
  {
  }

  /** `chunk` written from `end` on, around the end of the storage. */
  function Written(b: seq<byte>, end: nat, chunk: seq<byte>): (r: seq<byte>)
    requires end < |b| && |chunk| <= |b|
    ensures |r| == |b|
  {
    seq(|b|, p requires 0 <= p < |b| =>
      var j := if p >= end then p - end else p + |b| - end;
      if j < |chunk| then chunk[j] else b[p])
  }

  predicate LiesWell(b: seq<byte>, start: nat, size: nat) {
    size <= |b| && start < |b| && (start != 0 ==> size == |b|)
  }

  /** Bytes a chunk pushes out. */
  function Over(n: nat, size: nat, chunk: seq<byte>): nat {
    if size + |chunk| <= n then 0 else size + |chunk| - n
  }

  /** Writing behind a full ring, or into one that lies at the front, leaves the
      newest bytes in order; `start` moves past what was overwritten. */
  lemma {:induction false} RingGrows(b: seq<byte>, start: nat, size: nat, chunk: seq<byte>)
    requires LiesWell(b, start, size) && 0 < |chunk| <= |b|
    ensures var b' := Written(b, Wrap(start + size, |b|), chunk);
            var over := Over(|b|, size, chunk);
      && over <= |b|
      && Ring(b', Wrap(start + over, |b|), size + |chunk| - over) == Window(Ring(b, start, size) + chunk, |b|)
  {
    var n := |b|;
    var b' := Written(b, Wrap(start + size, n), chunk);
    var over := Over(n, size, chunk);
    var start' := Wrap(start + over, n);
    var size' := size + |chunk| - over;
    var before := Ring(b, start, size);
    forall k: nat | k < size' ensures Ring(b', start', size')[k] == (before + chunk)[k + over] {
      var p := Wrap(start' + k, n);
      assert b'[p] == if k + over < size then b[Wrap(start + k + over, n)] else chunk[k + over - size];
    }
    assert Window(before + chunk, n) == (before + chunk)[over..];
  }

  /** The same against the limit, which storage that overflows has reached. */
  lemma {:induction false} RingKeepsWindow(b: seq<byte>, start: nat, size: nat, chunk: seq<byte>, limit: nat)
    requires LiesWell(b, start, size) && 0 < |chunk| <= |b| <= limit
    requires Over(|b|, size, chunk) > 0 ==> |b| == limit
    ensures var b' := Written(b, Wrap(start + size, |b|), chunk);
            var over := Over(|b|, size, chunk);
      && over <= |b|
      && Ring(b', Wrap(start + over, |b|), size + |chunk| - over) == Window(Ring(b, start, size) + chunk, limit)
  {
    RingGrows(b, start, size, chunk);
  }

  /** What growing costs: every growth but the last at least doubles, so the
      bytes moved so far fit the storage until it reaches the limit. */
  predicate Afforded(copied: nat, capacity: nat, limit: nat) {
    && capacity <= limit
    && (capacity < limit ==> copied <= capacity && (capacity == 0 || INITIAL_BYTES <= capacity))
    && (0 < limit ==> copied < 2 * limit)
  }

  method Copy(dst: array<byte>, at: nat, src: seq<byte>) returns (written: nat)
    requires at <= dst.Length
    modifies dst
    ensures written == if |src| <= dst.Length - at then |src| else dst.Length - at
    ensures forall p :: 0 <= p < dst.Length ==>
      dst[p] == if at <= p < at + written then src[p - at] else old(dst[p])
  {
    written := 0;
    while at + written < dst.Length && written < |src|
      invariant at + written <= dst.Length && written <= |src|
      invariant forall p :: 0 <= p < dst.Length ==>
        dst[p] == if at <= p < at + written then src[p - at] else old(dst[p])
    {
      dst[at + written] := src[written];
      written := written + 1;
    }
  }

  class Buffer {
    var buf: array<byte>
    var start: nat
    var size: nat
    const limit: nat
    /** Everything appended since the last reset, and the bytes growing moved. */
    ghost var all: seq<byte>
    ghost var copied: nat

    /** A ring that does not start at the front is full, and at its limit. */
    ghost predicate Valid()
      reads this, buf
    {
      && size <= buf.Length
      && (start < buf.Length || start == size == 0)
      && (start != 0 ==> size == buf.Length == limit)
      && Afforded(copied, buf.Length, limit)
      && Contents() == Window(all, limit)
    }

    ghost function Contents(): (r: seq<byte>)
      requires size <= buf.Length && (start < buf.Length || start == size == 0)
      reads this, buf
    {
      Ring(buf[..], start, size)
    }

    constructor (limit: nat)
      ensures Valid() && fresh(buf) && this.limit == limit && all == [] && copied == 0
    {
      this.limit := limit;
      start, size := 0, 0;
      all, copied := [], 0;
      buf := new byte[0];
    }

    method Reset()
      requires Valid()
      modifies this
      ensures Valid() && all == [] && Contents() == [] && buf == old(buf) && copied == old(copied)
    {
      start, size, all := 0, 0, [];
    }

    /** Storage for `n` bytes; what is retained stays, and lies at the front if
        anything moved. */
    method Reserve(n: nat)
      requires Valid() && size <= n <= limit
      modifies this
      ensures Valid() && all == old(all) && Contents() == old(Contents())
      ensures n <= buf.Length && (buf == old(buf) || fresh(buf))
      ensures buf == old(buf) ==> start == old(start)
      ensures copied == old(copied) + (if buf == old(buf) then 0 else size)
      ensures buf != old(buf) ==> start == 0 && size == old(size) && old(start) == 0
      ensures size == old(size)
    {
      if buf.Length >= n { return; }
      var grown := buf.Length;
      if grown < INITIAL_BYTES { grown := INITIAL_BYTES; }
      ghost var floor := grown;
      while grown < n
        invariant grown == floor || 2 * floor <= grown
      {
        grown := grown * 2;
      }
      if grown > limit { grown := limit; }
      ghost var kept := Contents();
      var next := new byte[grown];
      var moved := Copy(next, 0, buf[start..start + size]);
      copied := copied + size;
      buf := next;
      start := 0;
      RingFront(old(buf[..]), size);
      RingFront(buf[..], size);
      assert buf[..][..size] == kept;
    }

    /** The two parts of a write: up to the storage's end, then its front. */
    method Write(chunk: seq<byte>)
      requires LiesWell(buf[..], start, size) && 0 < |chunk| <= buf.Length
      modifies buf
      ensures buf[..] == Written(old(buf[..]), Wrap(start + size, buf.Length), chunk)
    {
      var end := (start + size) % buf.Length;
      WrapIsMod(start + size, buf.Length);
      var written := Copy(buf, end, chunk);
      var rest := Copy(buf, 0, chunk[written..]);
    }

    /** A chunk as large as the window replaces what is retained. */
    method Replace(chunk: seq<byte>)
      requires Valid() && 0 < limit <= |chunk|
      modifies this, buf
      ensures Valid() && (buf == old(buf) || fresh(buf)) && all == old(all) + chunk
    {
      WindowForgets(all, chunk, limit);
      ghost var before := Contents();
      Reserve(limit);
      var newest := chunk[|chunk| - limit..];
      var written := Copy(buf, 0, newest);
      start, size := 0, limit;
      all := all + chunk;
      RingFront(buf[..], limit);
      assert buf[..][..limit] == newest;
      assert Window(before + chunk, limit) == newest;
    }

    /** Writes a chunk storage was reserved for, and moves both indices. */
    method Push(chunk: seq<byte>)
      requires LiesWell(buf[..], start, size) && 0 < |chunk| <= buf.Length <= limit
      requires Over(buf.Length, size, chunk) > 0 ==> buf.Length == limit
      modifies this`start, this`size, buf
      ensures size <= buf.Length && start < buf.Length && (start != 0 ==> size == buf.Length == limit)
      ensures Ring(buf[..], start, size) == Window(old(Ring(buf[..], start, size)) + chunk, limit)
    {
      RingKeepsWindow(buf[..], start, size, chunk, limit);
      Write(chunk);
      size := size + |chunk|;
      if size > buf.Length {
        var overflow := size - buf.Length;
        WrapIsMod(start + overflow, buf.Length);
        start := (start + overflow) % buf.Length;
        size := buf.Length;
      }
    }

    /** A smaller chunk evicts only what it must. */
    method Extend(chunk: seq<byte>)
      requires Valid() && 0 < |chunk| < limit
      modifies this, buf
      ensures Valid() && (buf == old(buf) || fresh(buf)) && all == old(all) + chunk
    {
      WindowForgets(all, chunk, limit);
      var want := size + |chunk|;
      if want > limit { want := limit; }
      Reserve(want);
      Push(chunk);
      all := all + chunk;
    }

    method Append(chunk: seq<byte>)
      requires Valid()
      modifies this, buf
      ensures Valid() && (buf == old(buf) || fresh(buf)) && all == old(all) + chunk
    {
      if |chunk| == 0 || limit == 0 {
        all := all + chunk;
        assert |chunk| == 0 ==> all == old(all);
        return;
      }
      if |chunk| >= limit { Replace(chunk); } else { Extend(chunk); }
    }

    /** The retained bytes, oldest first: the window of everything appended. */
    method Snapshot() returns (out: seq<byte>)
      requires Valid()
      ensures out == Window(all, limit) == Contents()
    {
      if size == 0 { return []; }
      RingSlices(buf[..], start, size);
      var end := start + size;
      if end <= buf.Length { return buf[start..end]; }
      out := buf[start..];
      out := out + buf[..start + size - buf.Length];
    }
  }

  function Concat(chunks: seq<seq<byte>>): seq<byte> {
    if chunks == [] then [] else Concat(chunks[..|chunks| - 1]) + chunks[|chunks| - 1]
  }

  /** A new buffer through any sequence of appends: its snapshot is the last
      bytes of all of them, its storage never exceeds the limit, and growing it
      has copied less than twice the limit. */
  method Replay(limit: nat, chunks: seq<seq<byte>>) returns (out: seq<byte>, ghost copied: nat, storage: nat)
    ensures out == Window(Concat(chunks), limit)
    ensures storage <= limit && (0 < limit ==> copied < 2 * limit)
  {
    var buffer := new Buffer(limit);
    for i := 0 to |chunks|
      invariant buffer.Valid() && fresh(buffer) && fresh(buffer.buf)
      invariant buffer.all == Concat(chunks[..i])
    {
      buffer.Append(chunks[i]);
      assert chunks[..i + 1][..i] == chunks[..i];
    }
    assert chunks[..|chunks|] == chunks;
    out := buffer.Snapshot();
    copied, storage := buffer.copied, buffer.buf.Length;
  }
}
