/** The per-worker lock list and its iterator as objects updated in place. */
module LockListObjects {
  import opened Basics
  import opened Probing
  import opened OpenAddressing
  import Lists = LockLists

  class LockList {
    const slots: array<Lists.LockSlot>
    var size: int

    ghost function State(): Lists.LockList
      reads this, slots
    {
      Lists.LockList(slots[..], size)
    }

    ghost predicate Valid()
      reads this, slots
    {
      Lists.Valid(State())
    }

    ghost function Held(): multiset<Lists.Lock>
      reads this, slots
    {
      Lists.Held(State())
    }

    constructor (n: nat)
      requires n > 0
      ensures fresh(slots) && slots.Length == n && Valid() && Held() == multiset{}
    {
      slots := new Lists.LockSlot[n](_ => Slot(Lists.UniqueKey(0, 0), Lists.EXCLUSIVE, false, false));
      size := 0;
      new;
      CountNone(slots[..], Live<Lists.UniqueKey, Lists.LockType>);
      Lists.HeldNothing(slots[..], 0);
    }

    /** `insert` behind the capacity test of `add_lock`. */
    method AddLock(lock: Lists.Lock) returns (e: Lists.LockError)
      requires Valid()
      modifies this, slots
      ensures Lists.CanAdd(old(State()), lock.key)
      ensures (State(), e) == Lists.AddLock(old(State()), lock)
      ensures Valid() && Held() == if e == Lists.NoError then old(Held()) + multiset{lock} else old(Held())
    {
      ghost var l := State();
      Lists.AddLockEffect(l, lock);
      hide Lists.Valid, Lists.Held, Probe, Lists.InsertSlot;
      if size >= slots.Length { return Lists.Full; }
      var idx := LocateRoom(lock.key);
      if !slots[idx].used || slots[idx].deleted {
        slots[idx] := Slot(lock.key, lock.mode, true, false);
        size := size + 1;
        e := Lists.NoError;
      } else {
        e := Lists.Conflict;
      }
    }

    /** The insertion loop: it ends on a free slot or on a live one that names the key. */
    method LocateRoom(k: Lists.UniqueKey) returns (idx: nat)
      requires slots.Length > 0 && Lists.InsertSlot(State(), k).Some?
      ensures idx < slots.Length && Lists.InsertSlot(State(), k) == Some(idx)
    {
      ghost var s, home, end := slots[..], k.tbl % slots.Length, Lists.InsertSlot(State(), k).value;
      ghost var d := 0;
      idx := k.tbl % slots.Length;
      ProbeTurn(s, home, Lists.Taken(k), end, d);
      while slots[idx].used && !slots[idx].deleted && slots[idx].key != k
        invariant d <= Dist(home, end, |s|) && idx == At(home, d, |s|)
        invariant d == Dist(home, end, |s|) <==> Lists.Taken(k)(slots[idx])
        decreases Dist(home, end, |s|) - d
      {
        ProbeTurn(s, home, Lists.Taken(k), end, d);
        idx := (idx + 1) % slots.Length;
        d := d + 1;
        ProbeTurn(s, home, Lists.Taken(k), end, d);
      }
    }

    /** The bounded search loop. */
    method Search(k: Lists.UniqueKey) returns (r: Option<nat>)
      requires slots.Length > 0
      ensures r == Lists.SearchLock(State(), k)
    {
      hide Probe;
      ghost var s := slots[..];
      var idx := k.tbl % slots.Length;
      var start := idx;
      ghost var d := 0;
      while true
        invariant d < |s| && idx == At(start, d, |s|)
        invariant forall j :: 0 <= j < d ==> !Stop<Lists.UniqueKey, Lists.LockType>(k)(s[At(start, j, |s|)])
        decreases |s| - d
      {
        if !slots[idx].used {
          ProbeIs(s, start, Stop(k), d);
          return None;
        }
        if slots[idx].key == k && !slots[idx].deleted {
          ProbeIs(s, start, Stop(k), d);
          return Some(idx);
        }
        NextSlot(start, d, |s|);
        idx := (idx + 1) % slots.Length;
        d := d + 1;
        if idx == start {
          Exhausted(s, start, Stop(k));
          return None;
        }
      }
    }

    /** A key answers with a mode exactly when it is held, and then it is held in that mode. */
    method GetLock(k: Lists.UniqueKey) returns (r: Option<Lists.LockType>)
      requires Valid()
      ensures r == Lists.GetLock(State(), k)
      ensures r.Some? <==> exists m :: Lists.Lock(k, m) in Held()
      ensures r.Some? ==> Lists.Lock(k, r.value) in Held()
    {
      Lists.LookupsAgree(State(), k);
      var i := Search(k);
      r := if i.Some? then Some(slots[i.value].value) else None;
    }

    method RmLock(k: Lists.UniqueKey)
      requires slots.Length > 0 && Lists.SeekLock(State(), k).Some?
      modifies this, slots
      ensures State() == Lists.RmLock(old(State()), k)
    {
      var idx := Locate(k);
      slots[idx] := slots[idx].(deleted := true);
      size := size - 1;
    }

    /** The unbounded removal loop. */
    method Locate(k: Lists.UniqueKey) returns (idx: nat)
      requires slots.Length > 0 && Lists.SeekLock(State(), k).Some?
      ensures idx < slots.Length && Lists.SeekLock(State(), k) == Some(idx)
    {
      ghost var s, home, end := slots[..], k.tbl % slots.Length, Lists.SeekLock(State(), k).value;
      ghost var d := 0;
      idx := k.tbl % slots.Length;
      ProbeTurn(s, home, Named<Lists.UniqueKey, Lists.LockType>(k), end, d);
      while !(slots[idx].key == k && !slots[idx].deleted)
        invariant d <= Dist(home, end, |s|) && idx == At(home, d, |s|)
        invariant d == Dist(home, end, |s|) <==> slots[idx].key == k && !slots[idx].deleted
        decreases Dist(home, end, |s|) - d
      {
        ProbeTurn(s, home, Named<Lists.UniqueKey, Lists.LockType>(k), end, d);
        idx := (idx + 1) % slots.Length;
        d := d + 1;
        ProbeTurn(s, home, Named<Lists.UniqueKey, Lists.LockType>(k), end, d);
      }
    }

    method PromoteLock(k: Lists.UniqueKey)
      requires slots.Length > 0 && Lists.SearchLock(State(), k).Some?
      modifies slots
      ensures State() == Lists.PromoteLock(old(State()), k)
    {
      var i := Search(k);
      slots[i.value] := slots[i.value].(value := Lists.EXCLUSIVE);
    }

    method Clear()
      requires slots.Length > 0
      modifies this, slots
      ensures State() == Lists.Clear(old(State()))
      ensures Valid() && Held() == multiset{}
    {
      ghost var l := State();
      for i := 0 to slots.Length
        invariant slots[..i] == Lists.Clear(l).slots[..i] && slots[i..] == l.slots[i..]
        modifies slots
      {
        slots[i] := slots[i].(used := false);
      }
      size := 0;
      Lists.ClearEffect(l);
    }
  }

  /** `LockRecordIterator`: it always stands on a live slot or at the end. */
  class LockIterator {
    const list: LockList
    var idx: nat

    ghost predicate Valid()
      reads this, list, list.slots
    {
      idx <= list.slots.Length && (idx < list.slots.Length ==> Live(list.slots[idx]))
    }

    /** The locks the iterator still has to visit, the one it stands on included. */
    ghost function Ahead(): multiset<Lists.Lock>
      requires Valid()
      reads this, list, list.slots
    {
      Lists.HeldFrom(list.slots[..], idx)
    }

    /** `begin()`: every held lock is still to be visited. */
    constructor (list: LockList)
      ensures this.list == list && Valid() && idx == Lists.NextLive(list.State(), 0)
      ensures Ahead() == list.Held()
    {
      this.list := list;
      idx := 0;
      new;
      AdvanceToValid();
      Lists.HeldFromSkip(list.State(), 0);
    }

    method AdvanceToValid()
      requires idx <= list.slots.Length
      modifies this
      ensures idx == Lists.NextLive(list.State(), old(idx)) && Valid()
    {
      while idx < list.slots.Length && (!list.slots[idx].used || list.slots[idx].deleted)
        invariant idx <= list.slots.Length
        invariant Lists.NextLive(list.State(), idx) == Lists.NextLive(list.State(), old(idx))
      {
        idx := idx + 1;
      }
    }

    /** One step leaves behind exactly the lock the iterator stood on. */
    method Next()
      requires Valid() && idx < list.slots.Length
      modifies this
      ensures idx == Lists.NextLive(list.State(), old(idx) + 1) && Valid()
      ensures old(Ahead()) == multiset{Lists.Lock(list.slots[old(idx)].key, list.slots[old(idx)].value)} + Ahead()
    {
      hide Lists.HeldFrom;
      Lists.HeldFromStep(list.State(), idx, idx);
      idx := idx + 1;
      AdvanceToValid();
      Lists.HeldFromSkip(list.State(), old(idx) + 1);
    }
  }
}
