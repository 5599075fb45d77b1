/**
  A cursor over scattered user buffers, read and written as one flat byte stream.
  User memory is a map from addresses to bytes; an address outside it faults.
*/
module IoVectors {
  import opened Sums

  type Byte = bv8

  const W64: nat := 0x1_0000_0000_0000_0000
  const MAX_IOVECS: nat := 1024

  datatype IoVec = IoVec(base: nat, len: int)

  datatype Result = Done(count: nat) | Fault

  function Range(a: nat, n: nat): (r: seq<nat>)
    ensures |r| == n && forall i :: 0 <= i < n ==> r[i] == a + i
  {
    seq(n, i => a + i)
  }

  predicate Sound(iovs: seq<IoVec>) { forall i :: 0 <= i < |iovs| ==> iovs[i].len >= 0 }

  /** All addresses from vector `i`, byte `offset`, on. */
  ghost function Flat(iovs: seq<IoVec>, i: nat, offset: nat): seq<nat>
    requires Sound(iovs)
    decreases |iovs| - i
  {
    if i >= |iovs| then []
    else (if offset < iovs[i].len then Range(iovs[i].base + offset, iovs[i].len - offset) else []) + Flat(iovs, i + 1, 0)
  }

  ghost predicate Mapped(mem: map<nat, Byte>, addrs: seq<nat>) { forall i :: 0 <= i < |addrs| ==> addrs[i] in mem }

  /** The bytes at a list of addresses. */
  ghost function Fetch(mem: map<nat, Byte>, addrs: seq<nat>): (r: seq<Byte>)
    requires Mapped(mem, addrs)
    ensures |r| == |addrs| && forall i :: 0 <= i < |r| ==> r[i] == mem[addrs[i]]
  {
    seq(|addrs|, i requires 0 <= i < |addrs| => mem[addrs[i]])
  }

  /** Store bytes one after the other; later stores to an address win. */
  ghost function Store(mem: map<nat, Byte>, addrs: seq<nat>, bytes: seq<Byte>): map<nat, Byte>
    requires |addrs| == |bytes|
  {
    if addrs == [] then mem
    else Store(mem, addrs[..|addrs| - 1], bytes[..|addrs| - 1])[addrs[|addrs| - 1] := bytes[|addrs| - 1]]
  }

  lemma {:induction false} StoreAppend(mem: map<nat, Byte>, a: seq<nat>, b: seq<nat>, x: seq<Byte>, y: seq<Byte>)
    requires |a| == |x| && |b| == |y|
    ensures Store(mem, a + b, x + y) == Store(Store(mem, a, x), b, y)
  {
    if b == [] {
      assert a + b == a && x + y == x;
    } else {
      var n := |b| - 1;
      StoreAppend(mem, a, b[..n], x, y[..n]);
      assert (a + b)[..|a| + n] == a + b[..n] && (x + y)[..|a| + n] == x + y[..n];
    }
  }

  lemma {:induction false} StoreKeys(mem: map<nat, Byte>, addrs: seq<nat>, bytes: seq<Byte>)
    requires |addrs| == |bytes| && Mapped(mem, addrs)
    ensures Store(mem, addrs, bytes).Keys == mem.Keys
  {
    if addrs != [] { StoreKeys(mem, addrs[..|addrs| - 1], bytes[..|addrs| - 1]); }
  }

  lemma SkipStep(iovs: seq<IoVec>, i: nat, offset: nat)
    requires Sound(iovs) && i < |iovs| && iovs[i].len <= offset
    ensures Flat(iovs, i, offset) == Flat(iovs, i + 1, 0)
  {
  }

  /** Taking part of the current vector takes the same number of flat addresses. */
  lemma TakeStep(iovs: seq<IoVec>, i: nat, offset: nat, n: nat)
    requires Sound(iovs) && i < |iovs| && offset + n <= iovs[i].len
    ensures n <= |Flat(iovs, i, offset)|
    ensures Flat(iovs, i, offset)[..n] == Range(iovs[i].base + offset, n)
    ensures Flat(iovs, i, offset)[n..] == Flat(iovs, i, offset + n)
  {
    var rest := Flat(iovs, i + 1, 0);
    if offset < iovs[i].len {
      var r := Range(iovs[i].base + offset, iovs[i].len - offset);
      assert (r + rest)[..n] == r[..n] && (r + rest)[n..] == r[n..] + rest;
      assert r[..n] == Range(iovs[i].base + offset, n);
      if offset + n < iovs[i].len {
        assert r[n..] == Range(iovs[i].base + offset + n, iovs[i].len - offset - n);
      } else {
        assert r[n..] == [];
      }
    }
  }

  /** Check the vectors and add up their lengths, modulo the word size. */
  method TotalLength(iovs: seq<IoVec>) returns (ok: bool, len: nat)
    ensures ok <==> |iovs| <= 1024 && Sound(iovs)
    ensures ok ==> len == |Flat(iovs, 0, 0)| % W64
  {
    if |iovs| > MAX_IOVECS {
      return false, 0;
    }
    len := 0;
    ghost var sum: nat := 0;
    for i := 0 to |iovs|
      invariant forall j :: 0 <= j < i ==> iovs[j].len >= 0
      invariant Sound(iovs) ==> sum + |Flat(iovs, i, 0)| == |Flat(iovs, 0, 0)|
      invariant len == sum % W64
    {
      if iovs[i].len < 0 {
        return false, 0;
      }
      len := (len + iovs[i].len) % W64;
      sum := sum + iovs[i].len;
    }
    return true, len;
  }

  class IoVectorBufIo {
    const iovs: seq<IoVec>
    var start: nat
    var offset: nat
    var len: nat
    var mem: map<nat, Byte>

    ghost predicate Valid()
      reads this
    {
      && Sound(iovs) && start <= |iovs|
      && len == |Rest()| % W64
    }

    /** The addresses not consumed yet. */
    ghost function Rest(): seq<nat>
      requires Sound(iovs)
      reads this
    {
      Flat(iovs, start, offset)
    }

    constructor (iovs: seq<IoVec>, len: nat, mem: map<nat, Byte>)
      requires Sound(iovs) && len == |Flat(iovs, 0, 0)| % W64
      ensures Valid() && Rest() == Flat(iovs, 0, 0) && this.mem == mem
    {
      this.iovs, this.len, this.mem := iovs, len, mem;
      start, offset := 0, 0;
    }

    /** What is left, as reported: exact while the total stays below the word size. */
    method Remaining() returns (n: nat)
      requires Valid()
      ensures n == |Rest()| <==> |Rest()| < W64
    {
      n := len;
    }

    method SkipEmpty()
      requires Valid()
      modifies this`start, this`offset
      ensures Valid() && Rest() == old(Rest())
      ensures start < |iovs| ==> offset < iovs[start].len
    {
      while start < |iovs|
        invariant Valid() && Rest() == old(Rest())
        decreases |iovs| - start
      {
        if iovs[start].len > offset {
          break;
        }
        SkipStep(iovs, start, offset);
        offset := 0;
        start := start + 1;
      }
    }

    /** Step over `n` bytes of the current vector. */
    method Advance(n: nat)
      requires Valid() && start < |iovs| && offset + n <= iovs[start].len
      modifies this`offset, this`len
      ensures Valid() && n <= |old(Rest())| && Rest() == old(Rest())[n..]
    {
      hide Flat;
      TakeStep(iovs, start, offset, n);
      LengthAfter(|Rest()|, n);
      offset := offset + n;
      len := (len + W64 - n % W64) % W64;
    }

    /** Read up to `buf.Length` bytes. It faults exactly when one of the bytes asked for
        is not mapped; what was consumed before the fault stays consumed. */
    method Read(buf: array<Byte>) returns (r: Result)
      requires Valid()
      modifies this`start, this`offset, this`len, buf
      ensures Valid()
      ensures var n := Min(buf.Length, |old(Rest())|);
        && (r.Fault? <==> !Mapped(mem, old(Rest())[..n]))
        && (r.Done? ==> r.count == n && Rest() == old(Rest())[n..])
      ensures IsSuffix(Rest(), old(Rest()))
      ensures var k := |old(Rest())| - |Rest()|;
        k <= buf.Length && Mapped(mem, old(Rest())[..k]) && buf[..k] == Fetch(mem, old(Rest())[..k])
    {
      hide Flat, Mapped, Fetch;
      ghost var all := Rest();
      var count := 0;
      assert all[0..] == all;
      NoBytes(mem, all);
      while true
        invariant Valid() && count <= buf.Length && count <= |all| && Rest() == all[count..]
        invariant Mapped(mem, all[..count]) && buf[..count] == Fetch(mem, all[..count])
        decreases buf.Length - count
      {
        SkipEmpty();
        if start >= |iovs| {
          PastEnd(iovs, start, offset);
          break;
        }
        var n := Min(iovs[start].len - offset, buf.Length - count);
        if n == 0 {
          break;
        }
        TakeStep(iovs, start, offset, n);
        var base := iovs[start].base + offset;
        ghost var sofar := buf[..];
        var ok := CopyIn(base, n, buf, count);
        if !ok {
          assert buf[..count] == sofar[..count];
          ChunkFault(mem, all, count, n, base, Min(buf.Length, |all|));
          r := Fault;
          return;
        }
        ChunkRead(mem, all, count, n, base, buf[..count], buf[..count + n]);
        Advance(n);
        assert all[count..][n..] == all[count + n..];
        count := count + n;
      }
      r := Done(count);
    }

    /** Copy `n` bytes from user memory, or fail without a trace. */
    method CopyIn(base: nat, n: nat, buf: array<Byte>, at: nat) returns (ok: bool)
      requires at + n <= buf.Length
      modifies buf
      ensures ok <==> Mapped(mem, Range(base, n))
      ensures ok ==> buf[..at + n] == old(buf[..at]) + Fetch(mem, Range(base, n))
      ensures !ok ==> buf[..] == old(buf[..])
    {
      ok := true;
      for i := 0 to n
        invariant ok && forall k :: 0 <= k < i ==> Range(base, n)[k] in mem
      {
        if base + i !in mem {
          assert Range(base, n)[i] !in mem;
          return false;
        }
      }
      for i := 0 to n
        invariant buf[..at] == old(buf[..at])
        invariant forall k :: 0 <= k < i ==> buf[at + k] == mem[Range(base, n)[k]]
      {
        assert Range(base, n)[i] in mem;
        buf[at + i] := mem[base + i];
      }
      assert buf[..at + n] == buf[..at] + buf[at..at + n];
      assert buf[at..at + n] == Fetch(mem, Range(base, n));
    }

    /** Write up to `|buf|` bytes: the same stores, in the same order, as storing them one
        by one along the flat addresses. A fault leaves the stores made before it. */
    method Write(buf: seq<Byte>) returns (r: Result)
      requires Valid()
      modifies this`start, this`offset, this`len, this`mem
      ensures Valid() && mem.Keys == old(mem).Keys
      ensures var n := Min(|buf|, |old(Rest())|);
        && (r.Fault? <==> !Mapped(old(mem), old(Rest())[..n]))
        && (r.Done? ==> r.count == n && Rest() == old(Rest())[n..])
      ensures IsSuffix(Rest(), old(Rest()))
      ensures var k := |old(Rest())| - |Rest()|; k <= |buf| && mem == Store(old(mem), old(Rest())[..k], buf[..k])
    {
      hide Flat, Mapped, Store;
      ghost var all := Rest();
      var count := 0;
      assert all[0..] == all;
      NothingStored(mem, all, buf);
      while true
        invariant Valid() && count <= |buf| && count <= |all| && Rest() == all[count..]
        invariant Mapped(old(mem), all[..count]) && mem == Store(old(mem), all[..count], buf[..count]) && mem.Keys == old(mem).Keys
        decreases |buf| - count
      {
        SkipEmpty();
        if start >= |iovs| {
          PastEnd(iovs, start, offset);
          break;
        }
        var n := Min(iovs[start].len - offset, |buf| - count);
        if n == 0 {
          break;
        }
        TakeStep(iovs, start, offset, n);
        var base := iovs[start].base + offset;
        MappedKeys(old(mem), mem, Range(base, n));
        ghost var before := mem;
        var ok := CopyOut(base, buf[count..count + n]);
        if !ok {
          ChunkFault(old(mem), all, count, n, base, Min(|buf|, |all|));
          r := Fault;
          return;
        }
        ChunkStored(old(mem), all, count, n, base, buf);
        StoreKeys(before, Range(base, n), buf[count..count + n]);
        Advance(n);
        assert all[count..][n..] == all[count + n..];
        count := count + n;
      }
      r := Done(count);
    }

    /** Copy bytes to user memory, or fail without a trace. */
    method CopyOut(base: nat, bytes: seq<Byte>) returns (ok: bool)
      modifies this`mem
      ensures ok <==> Mapped(old(mem), Range(base, |bytes|))
      ensures mem == if ok then Store(old(mem), Range(base, |bytes|), bytes) else old(mem)
    {
      var n := |bytes|;
      for i := 0 to n
        invariant forall k :: 0 <= k < i ==> Range(base, n)[k] in mem
      {
        if base + i !in mem {
          assert Range(base, n)[i] !in mem;
          return false;
        }
      }
      assert Range(base, n)[..0] == [] && bytes[..0] == [];
      for i := 0 to n
        invariant mem == Store(old(mem), Range(base, n)[..i], bytes[..i])
      {
        mem := mem[base + i := bytes[i]];
        assert Range(base, n)[..i + 1][..i] == Range(base, n)[..i] && bytes[..i + 1][..i] == bytes[..i];
      }
      assert Range(base, n)[..n] == Range(base, n) && bytes[..n] == bytes;
      ok := true;
    }
  }

  lemma NothingStored(mem: map<nat, Byte>, all: seq<nat>, buf: seq<Byte>)
    ensures Mapped(mem, all[..0]) && Store(mem, all[..0], buf[..0]) == mem
  {
  }

  lemma MappedKeys(a: map<nat, Byte>, b: map<nat, Byte>, addrs: seq<nat>)
    requires a.Keys == b.Keys
    ensures Mapped(a, addrs) <==> Mapped(b, addrs)
  {
    assert forall x :: x in a <==> x in b by { assert forall x :: x in a.Keys <==> x in b.Keys; }
  }

  lemma ChunkStored(mem: map<nat, Byte>, all: seq<nat>, count: nat, n: nat, base: nat, buf: seq<Byte>)
    requires count + n <= |all| && count + n <= |buf| && all[count..][..n] == Range(base, n)
    requires Mapped(mem, all[..count]) && Mapped(mem, Range(base, n))
    ensures Mapped(mem, all[..count + n]) && all[count..][n..] == all[count + n..]
    ensures Store(mem, all[..count + n], buf[..count + n]) == Store(Store(mem, all[..count], buf[..count]), Range(base, n), buf[count..count + n])
  {
    assert all[..count + n] == all[..count] + all[count..][..n] && buf[..count + n] == buf[..count] + buf[count..count + n];
    StoreAppend(mem, all[..count], Range(base, n), buf[..count], buf[count..count + n]);
  }

  ghost predicate IsSuffix(a: seq<nat>, b: seq<nat>) { |a| <= |b| && a == b[|b| - |a|..] }

  lemma NoBytes(mem: map<nat, Byte>, all: seq<nat>)
    ensures Mapped(mem, all[..0]) && Fetch(mem, all[..0]) == []
  {
  }

  lemma PastEnd(iovs: seq<IoVec>, i: nat, offset: nat)
    requires Sound(iovs) && i >= |iovs|
    ensures Flat(iovs, i, offset) == []
  {
  }

  lemma LengthAfter(total: nat, n: nat)
    requires n <= total
    ensures (total % W64 + W64 - n % W64) % W64 == (total - n) % W64
  {
  }

  lemma ChunkFault(mem: map<nat, Byte>, all: seq<nat>, count: nat, n: nat, base: nat, total: nat)
    requires count + n <= total <= |all| && all[count..][..n] == Range(base, n) && !Mapped(mem, Range(base, n))
    ensures !Mapped(mem, all[..total])
  {
    var i :| 0 <= i < n && Range(base, n)[i] !in mem;
    assert all[..total][count + i] == all[count..][..n][i];
  }

  lemma ChunkRead(mem: map<nat, Byte>, all: seq<nat>, count: nat, n: nat, base: nat, before: seq<Byte>, after: seq<Byte>)
    requires count + n <= |all| && all[count..][..n] == Range(base, n) && Mapped(mem, all[..count]) && Mapped(mem, Range(base, n))
    requires before == Fetch(mem, all[..count]) && after == before + Fetch(mem, Range(base, n))
    ensures Mapped(mem, all[..count + n]) && after == Fetch(mem, all[..count + n]) && all[count..][n..] == all[count + n..]
  {
    assert all[..count + n] == all[..count] + all[count..][..n];
  }

  // ---------------------------------------------------------- sequences of reads

  function Total(sizes: seq<nat>): nat { if sizes == [] then 0 else sizes[0] + Total(sizes[1..]) }

  /** Read into a fresh buffer and keep what arrived. */
  method ReadOne(io: IoVectorBufIo, size: nat) returns (ok: bool, got: seq<Byte>)
    requires io.Valid()
    modifies io`start, io`offset, io`len
    ensures io.Valid() && io.mem == old(io.mem)
    ensures var n := Min(size, |old(io.Rest())|);
      && (ok <==> Mapped(io.mem, old(io.Rest())[..n]))
      && (ok ==> got == Fetch(io.mem, old(io.Rest())[..n]) && io.Rest() == old(io.Rest())[n..])
  {
    hide Flat, Mapped, Fetch;
    var buf := new Byte[size];
    var r := io.Read(buf);
    if r.Fault? {
      return false, [];
    }
    return true, buf[..r.count];
  }

  /** Read with buffers of the given sizes, one after the other, until a fault: without
      one, what arrives is the prefix of the stream the sizes add up to. */
  method ReadAll(io: IoVectorBufIo, sizes: seq<nat>) returns (ok: bool, got: seq<Byte>)
    requires io.Valid()
    modifies io`start, io`offset, io`len
    ensures io.Valid() && io.mem == old(io.mem)
    ensures var n := Min(Total(sizes), |old(io.Rest())|);
      && (ok <==> Mapped(io.mem, old(io.Rest())[..n]))
      && (ok ==> got == Fetch(io.mem, old(io.Rest())[..n]) && io.Rest() == old(io.Rest())[n..])
  {
    hide Flat, Mapped, Fetch, Total;
    ghost var all := io.Rest();
    got := [];
    NoBytes(io.mem, all);
    TotalStarts(sizes);
    assert all[0..] == all;
    for i := 0 to |sizes|
      invariant io.Valid() && |got| == Min(Total(sizes[..i]), |all|) && io.Rest() == all[|got|..]
      invariant Mapped(io.mem, all[..|got|]) && got == Fetch(io.mem, all[..|got|])
    {
      ghost var before := |got|;
      ghost var n := Min(sizes[i], |all| - before);
      TotalGrows(sizes, i);
      TotalSplit(sizes, i + 1);
      assert all[before..][..n] == all[before..before + n] && all[before..][n..] == all[before + n..];
      var more, bytes := ReadOne(io, sizes[i]);
      if !more {
        Unmapped(io.mem, all, before, n, Min(Total(sizes), |all|));
        return false, got;
      }
      FetchMore(io.mem, all, before, n);
      got := got + bytes;
    }
    assert sizes[..|sizes|] == sizes;
    ok := true;
  }

  lemma TotalStarts(sizes: seq<nat>)
    ensures Total(sizes[..0]) == 0
  {
  }

  lemma {:induction false} TotalSplit(sizes: seq<nat>, i: nat)
    requires i <= |sizes|
    ensures Total(sizes[..i]) <= Total(sizes)
    decreases i
  {
    if i > 0 {
      assert sizes[..i][1..] == sizes[1..][..i - 1];
      TotalSplit(sizes[1..], i - 1);
    }
  }

  lemma {:induction false} TotalGrows(sizes: seq<nat>, i: nat)
    requires i < |sizes|
    ensures Total(sizes[..i + 1]) == Total(sizes[..i]) + sizes[i]
    decreases i
  {
    if i == 0 {
      assert sizes[..1] == [sizes[0]] && sizes[..0] == [];
    } else {
      assert sizes[..i + 1][1..] == sizes[1..][..i] && sizes[..i][1..] == sizes[1..][..i - 1];
      TotalGrows(sizes[1..], i - 1);
    }
  }

  lemma Unmapped(mem: map<nat, Byte>, all: seq<nat>, before: nat, n: nat, total: nat)
    requires before + n <= total <= |all| && !Mapped(mem, all[before..before + n])
    ensures !Mapped(mem, all[..total])
  {
    var i :| 0 <= i < n && all[before..before + n][i] !in mem;
    assert all[..total][before + i] == all[before + i];
  }

  lemma FetchMore(mem: map<nat, Byte>, all: seq<nat>, before: nat, n: nat)
    requires before + n <= |all| && Mapped(mem, all[..before]) && Mapped(mem, all[before..before + n])
    ensures Mapped(mem, all[..before + n])
    ensures Fetch(mem, all[..before + n]) == Fetch(mem, all[..before]) + Fetch(mem, all[before..before + n])
  {
    assert all[..before + n] == all[..before] + all[before..before + n];
  }
}
