/** The buffer pool and its handles as objects: handles change the counts of the table they point to. */
module BufferObjects {
  import opened Basics
  import opened Probing
  import Pools = Buffers

  class BufTable {
    const refs: array<nat>
    var size: int
    var next: nat

    ghost function State(): Pools.Pool
      reads this, refs
    {
      Pools.Pool(refs[..], size, next)
    }

    constructor (n: nat)
      requires n > 0
      ensures fresh(refs) && refs.Length == n && Pools.Conserved(State(), map[])
    {
      refs := new nat[n](_ => 0);
      size, next := 0, 0;
      new;
      CountNone(refs[..], Pools.Referenced);
      forall i | 0 <= i < n ensures Pools.Pointing(map[], i) == {} {}
    }

    /**
     * Next fit. The loop ends whenever it is entered, provided the counts are those of
     * some set of handles `m`; it fails exactly when every slot has a handle, and the
     * slot it hands out has none.
     */
    method Request(ghost m: Pools.Handles) returns (r: Option<BufRef>)
      requires Pools.Conserved(State(), m)
      modifies this, refs
      ensures r.None? <==> forall i :: 0 <= i < refs.Length ==> Pools.Pointing(m, i) != {}
      ensures r.None? ==> State() == old(State())
      ensures r.Some? ==>
                && fresh(r.value) && r.value.table == this
                && Pools.NextFit(old(State())) == Some(r.value.index) && Pools.Pointing(m, r.value.index) == {}
                && State() == Pools.Take(old(State()), r.value.index)
                && refs[..] == old(refs[..])[r.value.index := 1] && size == old(size) + 1
                && next == if r.value.index + 1 == refs.Length then 0 else r.value.index + 1
    {
      Pools.NextFitAnswers(State(), m);
      hide Pools.Conserved, Pools.Pointing, Pools.NextFit;
      if size >= refs.Length { return None; }
      Advance();
      var index := next;
      Pools.SuccessorIs(index, refs.Length);
      refs[index] := 1;
      next := (index + 1) % refs.Length;
      size := size + 1;
      var h := new BufRef.At(this, index);
      r := Some(h);
    }

    /** The probing loop: the hint moves on to the first unreferenced slot. */
    method Advance()
      requires next < refs.Length && Pools.NextFit(State()).Some?
      modifies this`next
      ensures next < refs.Length && Pools.NextFit(old(State())) == Some(next)
    {
      ghost var s, home, end := refs[..], next, Pools.NextFit(State()).value;
      ghost var d := 0;
      ProbeTurn(s, home, Pools.Zero, end, d);
      while refs[next] > 0
        invariant d <= Dist(home, end, |s|) && next == At(home, d, |s|)
        invariant d == Dist(home, end, |s|) <==> refs[next] == 0
        decreases Dist(home, end, |s|) - d
      {
        ProbeTurn(s, home, Pools.Zero, end, d);
        next := (next + 1) % refs.Length;
        d := d + 1;
        ProbeTurn(s, home, Pools.Zero, end, d);
      }
    }

    method RetainRef(index: nat)
      requires index < refs.Length
      modifies this, refs
      ensures State() == Pools.Retain(old(State()), index)
    {
      if refs[index] == 0 { size := size + 1; }
      refs[index] := (refs[index] + 1) % Pools.COUNT_SPACE;
    }

    method ReleaseRef(index: nat)
      requires index < refs.Length
      modifies this, refs
      ensures State() == Pools.Release(old(State()), index)
    {
      if refs[index] == 0 { return; }
      refs[index] := refs[index] - 1;
      if refs[index] == 0 && size > 0 { size := size - 1; }
    }
  }

  /** A handle. All handles of the program point into one pool `p`, or nowhere. */
  class BufRef {
    var table: BufTable?
    var index: nat

    ghost function Value(): Pools.Handle
      reads this
    {
      if table == null then None else Some(index)
    }

    ghost predicate Into(p: BufTable)
      reads this
    {
      (table == null || table == p) && (table != null ==> index < p.refs.Length)
    }

    constructor ()
      ensures Value() == None
    {
      table, index := null, 0;
    }

    constructor At(table: BufTable, index: nat)
      ensures this.table == table && this.index == index
    {
      this.table, this.index := table, index;
    }

    constructor Copy(other: BufRef, ghost p: BufTable)
      requires other.Into(p)
      modifies p, p.refs
      ensures Into(p) && Value() == other.Value()
      ensures p.State() == Pools.RetainHandle(old(p.State()), Value())
    {
      table, index := other.table, other.index;
      new;
      if table != null { table.RetainRef(index); }
    }

    /** A move takes the reference over: the donor ends null and no count changes. */
    constructor Move(other: BufRef, ghost p: BufTable)
      requires other.Into(p)
      modifies other
      ensures Into(p) && Value() == old(other.Value()) && other.Value() == None
    {
      table, index := other.table, other.index;
      new;
      other.table, other.index := null, 0;
    }

    /** Assigning a handle to itself changes nothing at all. */
    method CopyAssign(other: BufRef, ghost p: BufTable)
      requires Into(p) && other.Into(p)
      modifies this, p, p.refs
      ensures Into(p) && Value() == old(other.Value())
      ensures p.State() == if other == this then old(p.State())
                           else Pools.ReleaseHandle(Pools.RetainHandle(old(p.State()), old(other.Value())), old(Value()))
    {
      if this == other { return; }
      if other.table != null { other.table.RetainRef(other.index); }
      if table != null { table.ReleaseRef(index); }
      table := other.table;
      index := other.index;
    }

    method MoveAssign(other: BufRef, ghost p: BufTable)
      requires Into(p) && other.Into(p)
      modifies this, other, p, p.refs
      ensures Into(p) && Value() == old(other.Value()) && (other != this ==> other.Value() == None)
      ensures p.State() == if other == this then old(p.State()) else Pools.ReleaseHandle(old(p.State()), old(Value()))
    {
      if this == other { return; }
      if table != null { table.ReleaseRef(index); }
      table := other.table;
      index := other.index;
      other.table := null;
      other.index := 0;
    }

    /** The destructor's body: the handle is null before the count goes down. */
    method ReleaseHeld(ghost p: BufTable)
      requires Into(p)
      modifies this, p, p.refs
      ensures Value() == None
      ensures p.State() == Pools.ReleaseHandle(old(p.State()), old(Value()))
    {
      if table == null { return; }
      var t, i := table, index;
      table, index := null, 0;
      t.ReleaseRef(i);
    }
  }

}
