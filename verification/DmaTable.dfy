/**
  A process's table of DMA allocations. A release takes its record out of the table,
  unmaps without holding the table, and then either frees the memory or puts the record
  back; several releases may be under way at once. Exit frees what is left.
*/
module DmaTable {
  import opened Options

  /** `id` stands for the allocated memory, `vaddr` for where it is mapped. */
  datatype Alloc = Alloc(id: nat, vaddr: nat)

  datatype Dma = Dma(table: seq<Alloc>, inFlight: seq<Alloc>, freed: seq<Alloc>, recorded: seq<Alloc>)

  const Start := Dma([], [], [], [])

  function Without(s: seq<Alloc>, i: nat): seq<Alloc>
    requires i < |s|
  {
    s[..i] + s[i + 1..]
  }

  /** Index of the first record for an address, or the length. */
  function Find(s: seq<Alloc>, vaddr: nat): (i: nat)
    ensures i <= |s| && (i < |s| ==> s[i].vaddr == vaddr) && forall j :: 0 <= j < i ==> s[j].vaddr != vaddr
  {
    if s == [] then 0 else if s[0].vaddr == vaddr then 0 else
      var i := Find(s[1..], vaddr) + 1;
      assert forall j :: 1 <= j < i ==> s[j] == s[1..][j - 1];
      i
  }

  datatype Step =
    | Record(alloc: Alloc)
    | Take(vaddr: nat)
    | PutBack(i: nat)
    | Free(i: nat)
    | Drop

  /** Memory is recorded once; a process is dropped when no release is under way. */
  predicate Enabled(d: Dma, s: Step) {
    match s
    case Record(a) => forall i :: 0 <= i < |d.recorded| ==> d.recorded[i].id != a.id
    case Take(vaddr) => true
    case PutBack(i) => i < |d.inFlight|
    case Free(i) => i < |d.inFlight|
    case Drop => d.inFlight == []
  }

  function Apply(d: Dma, s: Step): Dma
    requires Enabled(d, s)
  {
    match s
    case Record(a) => d.(table := d.table + [a], recorded := d.recorded + [a])
    case Take(vaddr) =>
      var i := Find(d.table, vaddr);
      if i < |d.table| then d.(table := Without(d.table, i), inFlight := d.inFlight + [d.table[i]]) else d
    case PutBack(i) => d.(table := d.table + [d.inFlight[i]], inFlight := Without(d.inFlight, i))
    case Free(i) => d.(freed := d.freed + [d.inFlight[i]], inFlight := Without(d.inFlight, i))
    case Drop => d.(table := [], freed := d.freed + d.table)
  }

  ghost predicate IsRun(run: seq<Dma>, steps: seq<Step>) {
    && |run| == |steps| + 1 && run[0] == Start
    && forall i :: 0 <= i < |steps| ==> Enabled(run[i], steps[i]) && run[i + 1] == Apply(run[i], steps[i])
  }

  ghost predicate Distinct(s: seq<Alloc>) { forall i, j :: 0 <= i < j < |s| ==> s[i].id != s[j].id }

  /** Every recorded allocation is in the table, being released, or freed; once. */
  ghost predicate Conserved(d: Dma) {
    multiset(d.table) + multiset(d.inFlight) + multiset(d.freed) == multiset(d.recorded) && Distinct(d.recorded)
  }

  lemma WithoutCounts(s: seq<Alloc>, i: nat)
    requires i < |s|
    ensures multiset(Without(s, i)) + multiset{s[i]} == multiset(s)
  {
    assert s == s[..i] + [s[i]] + s[i + 1..];
  }

  lemma RecordConserved(d: Dma, a: Alloc)
    requires Conserved(d) && Enabled(d, Record(a))
    ensures Conserved(Apply(d, Record(a)))
  {
    hide Find, Without;
    assert Distinct(d.recorded + [a]) by { hide Conserved; }
  }

  lemma TakeConserved(d: Dma, vaddr: nat)
    requires Conserved(d)
    ensures Conserved(Apply(d, Take(vaddr)))
  {
    hide Find, Distinct, Without;
    if Find(d.table, vaddr) < |d.table| { WithoutCounts(d.table, Find(d.table, vaddr)); }
  }

  lemma ReturnConserved(d: Dma, s: Step)
    requires Conserved(d) && Enabled(d, s) && (s.PutBack? || s.Free?)
    ensures Conserved(Apply(d, s))
  {
    hide Find, Distinct, Without;
    WithoutCounts(d.inFlight, s.i);
  }

  lemma DropConserved(d: Dma)
    requires Conserved(d) && Enabled(d, Drop)
    ensures Conserved(Apply(d, Drop))
  {
    hide Find, Distinct, Without;
  }

  lemma StepConserved(d: Dma, s: Step)
    requires Conserved(d) && Enabled(d, s)
    ensures Conserved(Apply(d, s))
  {
    hide Conserved, Apply;
    match s {
      case Record(a) => RecordConserved(d, a);
      case Take(vaddr) => TakeConserved(d, vaddr);
      case PutBack(i) => ReturnConserved(d, s);
      case Free(i) => ReturnConserved(d, s);
      case Drop => DropConserved(d);
    }
  }

  lemma {:induction false} RunConserved(run: seq<Dma>, steps: seq<Step>, i: nat)
    requires IsRun(run, steps) && i < |run|
    ensures Conserved(run[i])
  {
    hide Enabled, Apply, Conserved;
    if i == 0 { StartConserved(); } else { RunConserved(run, steps, i - 1); StepConserved(run[i - 1], steps[i - 1]); }
  }

  lemma StartConserved()
    ensures Conserved(Start)
  {
  }

  /** In a sequence with distinct ids every element occurs once. */
  lemma {:induction false} OccursOnce(s: seq<Alloc>, a: Alloc)
    requires Distinct(s)
    ensures multiset(s)[a] <= 1
  {
    if s != [] {
      var n := |s| - 1;
      assert s == s[..n] + [s[n]];
      OccursOnce(s[..n], a);
      if a == s[n] { NotBefore(s, n); }
    }
  }

  lemma NotBefore(s: seq<Alloc>, n: nat)
    requires Distinct(s) && n < |s|
    ensures multiset(s[..n])[s[n]] == 0
  {
    assert s[n] !in s[..n];
  }

  /** Under every interleaving each recorded allocation is in exactly one place and is
      freed at most once; after the process is dropped all are freed exactly once. */
  lemma FreedOnce(run: seq<Dma>, steps: seq<Step>, i: nat, a: Alloc)
    requires IsRun(run, steps) && i < |run|
    ensures multiset(run[i].table)[a] + multiset(run[i].inFlight)[a] + multiset(run[i].freed)[a] == (if a in run[i].recorded then 1 else 0)
    ensures i > 0 && steps[i - 1].Drop? ==> multiset(run[i].freed)[a] == if a in run[i].recorded then 1 else 0
  {
    hide Enabled, Find;
    RunConserved(run, steps, i);
    OccursOnce(run[i].recorded, a);
    assert a in run[i].recorded <==> a in multiset(run[i].recorded);
    if i > 0 && steps[i - 1].Drop? {
      assert Enabled(run[i - 1], steps[i - 1]) && run[i] == Apply(run[i - 1], steps[i - 1]);
      assert run[i].table == [];
      assert run[i].inFlight == [] by { DropAlone(run[i - 1]); }
    }
  }

  lemma DropAlone(d: Dma)
    requires Enabled(d, Drop)
    ensures Apply(d, Drop).inFlight == []
  {
  }

  // ------------------------------------------------------------------- the process

  class ProcessDma {
    var table: seq<Alloc>
    var freed: seq<Alloc>

    constructor ()
      ensures table == [] && freed == []
    {
      table, freed := [], [];
    }

    method RecordAllocation(a: Alloc)
      modifies this
      ensures table == old(table) + [a] && freed == old(freed)
    {
      table := table + [a];
    }

    /** Take the first record for an address out of the table. */
    method TakeRecord(vaddr: nat) returns (r: Option<Alloc>)
      modifies this`table
      ensures var i := Find(old(table), vaddr);
        if i < |old(table)| then r == Some(old(table)[i]) && table == Without(old(table), i) else r == None && table == old(table)
    {
      var i := 0;
      while i < |table|
        invariant i <= |table| && table == old(table) && i <= Find(table, vaddr)
      {
        if table[i].vaddr == vaddr {
          r := Some(table[i]);
          table := table[..i] + table[i + 1..];
          return;
        }
        i := i + 1;
      }
      r := None;
    }

    /** Release by address; `unmapped` is what the address space answers. A record whose
        unmapping fails goes back, at the end of the table. */
    method Release(vaddr: nat, unmapped: bool) returns (found: bool)
      modifies this
      ensures found <==> Find(old(table), vaddr) < |old(table)|
      ensures !found ==> table == old(table) && freed == old(freed)
      ensures found ==>
        var i := Find(old(table), vaddr);
        if unmapped then table == Without(old(table), i) && freed == old(freed) + [old(table)[i]]
        else table == Without(old(table), i) + [old(table)[i]] && freed == old(freed)
      ensures multiset(table) + multiset(freed) == old(multiset(table) + multiset(freed))
    {
      var taken := TakeRecord(vaddr);
      if taken.None? {
        return false;
      }
      WithoutCounts(old(table), Find(old(table), vaddr));
      if !unmapped {
        table := table + [taken.value];
        return true;
      }
      freed := freed + [taken.value];
      return true;
    }

    /** Exit: free everything left, whether or not its unmapping succeeds. */
    method DropAll()
      modifies this
      ensures table == [] && freed == old(freed) + old(table)
    {
      var taken := table;
      table := [];
      for i := 0 to |taken|
        invariant table == [] && freed == old(freed) + taken[..i]
      {
        freed := freed + [taken[i]];
      }
    }
  }
}
