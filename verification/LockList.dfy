/**
 * The per-worker lock list. A tombstone is reused before the rest of the chain is
 * looked at, so one key can be held twice: the list means a multiset of locks.
 */
module LockLists {
  import opened Basics
  import opened Probing
  import opened OpenAddressing

  datatype LockType = SHARED | EXCLUSIVE

  datatype LockError = NoError | Full | NotFound | Conflict

  /** `unique_key`: it hashes on the table id alone. */
  datatype UniqueKey = UniqueKey(tbl: nat, key: nat)

  datatype Lock = Lock(key: UniqueKey, mode: LockType)

  type LockSlot = Slot<UniqueKey, LockType>

  datatype LockList = LockList(slots: seq<LockSlot>, size: int)

  function TableHash(k: UniqueKey): nat { k.tbl }

  // ---- The calls ----

  /** The insertion loop ends on a free slot or on a used one that already names the key. */
  function Taken(k: UniqueKey): LockSlot -> bool { (s: LockSlot) => Free(s) || s.key == k }

  function InsertSlot(l: LockList, k: UniqueKey): Option<nat>
    requires |l.slots| > 0
  {
    Probe(l.slots, Home(TableHash, k, |l.slots|), Taken(k))
  }

  function Fill(l: LockList, i: nat, lock: Lock): LockList
    requires i < |l.slots|
  {
    LockList(l.slots[i := Slot(lock.key, lock.mode, true, false)], l.size + 1)
  }

  function AddLock(l: LockList, lock: Lock): (LockList, LockError)
    requires |l.slots| > 0
    requires l.size < |l.slots| ==> InsertSlot(l, lock.key).Some?
  {
    if l.size >= |l.slots| then (l, Full)
    else
      var i := InsertSlot(l, lock.key).value;
      if Free(l.slots[i]) then (Fill(l, i, lock), NoError) else (l, Conflict)
  }

  function SearchLock(l: LockList, k: UniqueKey): Option<nat>
    requires |l.slots| > 0
  {
    Search(l.slots, TableHash, k)
  }

  function GetLock(l: LockList, k: UniqueKey): Option<LockType>
    requires |l.slots| > 0
  {
    var r := SearchLock(l, k);
    if r.Some? then Some(l.slots[r.value].value) else None
  }

  function SeekLock(l: LockList, k: UniqueKey): Option<nat>
    requires |l.slots| > 0
  {
    Seek(l.slots, TableHash, k)
  }

  function RmLock(l: LockList, k: UniqueKey): LockList
    requires |l.slots| > 0 && SeekLock(l, k).Some?
  {
    var i := SeekLock(l, k).value;
    LockList(l.slots[i := l.slots[i].(deleted := true)], l.size - 1)
  }

  function PromoteLock(l: LockList, k: UniqueKey): LockList
    requires |l.slots| > 0 && SearchLock(l, k).Some?
  {
    var i := SearchLock(l, k).value;
    l.(slots := l.slots[i := l.slots[i].(value := EXCLUSIVE)])
  }

  /** Clearing resets only `is_used_`: stale keys and tombstone marks stay behind. */
  function Clear(l: LockList): LockList {
    LockList(seq(|l.slots|, i requires 0 <= i < |l.slots| => l.slots[i].(used := false)), 0)
  }

  /** LockRecordIterator: the first live slot from `i` on, or the end. */
  function NextLive(l: LockList, i: nat): (j: nat)
    requires i <= |l.slots|
    ensures i <= j <= |l.slots|
    ensures j < |l.slots| ==> Live(l.slots[j])
    ensures forall x :: i <= x < j ==> !Live(l.slots[x])
    decreases |l.slots| - i
  {
    if i < |l.slots| && Free(l.slots[i]) then NextLive(l, i + 1) else i
  }

  // ---- What a list means ----

  function One(s: LockSlot): multiset<Lock> {
    if Live(s) then multiset{Lock(s.key, s.value)} else multiset{}
  }

  /** The locks in the live slots from index `i` on. */
  function HeldFrom(slots: seq<LockSlot>, i: nat): multiset<Lock>
    requires i <= |slots|
    decreases |slots| - i
  {
    if i == |slots| then multiset{} else One(slots[i]) + HeldFrom(slots, i + 1)
  }

  function Held(l: LockList): multiset<Lock> { HeldFrom(l.slots, 0) }

  ghost predicate Valid(l: LockList) {
    && |l.slots| > 0
    && Chained(l.slots, TableHash)
    && l.size == Count(l.slots, Live<UniqueKey, LockType>)
  }

  /** The lock that the list answers for a key: the mode in the first live slot naming it. */
  function FindLock(l: LockList, k: UniqueKey): Option<nat>
    requires |l.slots| > 0
  {
    Find(l.slots, TableHash, k)
  }

  /** Overwriting a slot swaps its contribution to the multiset; slots the iterator has passed do not count. */
  lemma {:induction false} HeldUpdate(slots: seq<LockSlot>, i: nat, s: LockSlot, from: nat)
    requires i < |slots| && from <= |slots|
    ensures i < from ==> HeldFrom(slots[i := s], from) == HeldFrom(slots, from)
    ensures i >= from ==> HeldFrom(slots[i := s], from) + One(slots[i]) == HeldFrom(slots, from) + One(s)
    decreases |slots| - from
  {
    if from < |slots| {
      HeldUpdate(slots, i, s, from + 1);
      var rest, rest' := HeldFrom(slots, from + 1), HeldFrom(slots[i := s], from + 1);
      if i > from {
        AddBoth(One(slots[from]), rest', One(slots[i]), rest, One(s));
      } else if i == from {
        Rotate(One(s), rest, One(slots[i]));
      }
    }
  }

  /** Moving the iterator over slots that are not live gives up no lock; stepping over a live one gives up its lock. */
  lemma {:induction false} HeldFromSkip(l: LockList, i: nat)
    requires i <= |l.slots|
    ensures HeldFrom(l.slots, i) == HeldFrom(l.slots, NextLive(l, i))
    decreases |l.slots| - i
  {
    if i < |l.slots| && Free(l.slots[i]) { HeldFromSkip(l, i + 1); }
  }

  /** The iterator steps from `i` over the live slot `j`: exactly that slot's lock is left behind. */
  lemma HeldFromStep(l: LockList, i: nat, j: nat)
    requires i <= |l.slots| && NextLive(l, i) == j < |l.slots|
    ensures HeldFrom(l.slots, i) == multiset{Lock(l.slots[j].key, l.slots[j].value)} + HeldFrom(l.slots, j + 1)
    ensures Lock(l.slots[j].key, l.slots[j].value) in Held(l)
  {
    HeldFromSkip(l, i);
    HeldMember(l.slots, 0, j);
  }

  lemma {:induction false} HeldWitness(slots: seq<LockSlot>, from: nat, lock: Lock) returns (i: nat)
    requires from <= |slots| && lock in HeldFrom(slots, from)
    ensures from <= i < |slots| && Live(slots[i]) && slots[i].key == lock.key && slots[i].value == lock.mode
    decreases |slots| - from
  {
    if lock in One(slots[from]) { i := from; } else { i := HeldWitness(slots, from + 1, lock); }
  }

  lemma {:induction false} HeldMember(slots: seq<LockSlot>, from: nat, i: nat)
    requires from <= i < |slots| && Live(slots[i])
    ensures Lock(slots[i].key, slots[i].value) in HeldFrom(slots, from)
    decreases |slots| - from
  {
    if from < i { HeldMember(slots, from + 1, i); }
  }

  lemma {:induction false} HeldNothing(slots: seq<LockSlot>, from: nat)
    requires from <= |slots|
    requires forall i :: from <= i < |slots| ==> !Live(slots[i])
    ensures HeldFrom(slots, from) == multiset{}
    decreases |slots| - from
  {
    if from < |slots| { HeldNothing(slots, from + 1); }
  }

  /** The search and the unbounded removal loop act on the same slot, and they find a key exactly when it is held. */
  lemma LookupsAgree(l: LockList, k: UniqueKey)
    requires Valid(l)
    ensures SearchLock(l, k) == FindLock(l, k)
    ensures SearchLock(l, k).Some? ==> SeekLock(l, k) == SearchLock(l, k)
    ensures SearchLock(l, k).Some? <==> exists m :: Lock(k, m) in Held(l)
    ensures GetLock(l, k).Some? ==> Lock(k, GetLock(l, k).value) in Held(l)
  {
    SearchIsFind(l.slots, TableHash, k);
    FindsLive(l.slots, TableHash, k);
    if SearchLock(l, k).Some? {
      SeekIsFind(l.slots, TableHash, k);
      HeldMember(l.slots, 0, SearchLock(l, k).value);
    }
    if m :| Lock(k, m) in Held(l) {
      var i := HeldWitness(l.slots, 0, Lock(k, m));
    }
  }

  lemma {:induction false} HeldSize(slots: seq<LockSlot>)
    ensures Count(slots, Live<UniqueKey, LockType>) == |HeldFrom(slots, 0)|
    decreases |slots|
  {
    if slots != [] {
      var n := |slots| - 1;
      HeldSize(slots[..n]);
      HeldSplit(slots, 0);
    }
  }

  lemma {:induction false} HeldSplit(slots: seq<LockSlot>, from: nat)
    requires from < |slots|
    ensures HeldFrom(slots, from) == HeldFrom(slots[..|slots|-1], from) + One(slots[|slots|-1])
    decreases |slots| - from
  {
    if from < |slots| - 1 { HeldSplit(slots, from + 1); }
  }

  /** `size_` counts the locks in the multiset. */
  lemma SizeIsHeld(l: LockList)
    requires Valid(l)
    ensures l.size == |Held(l)|
  {
    HeldSize(l.slots);
  }

  // ---- Effects of the calls ----

  /** Insertion into a list that is not full ends. */
  lemma AddLockEnds(l: LockList, k: UniqueKey)
    requires Valid(l) && l.size < |l.slots|
    ensures InsertSlot(l, k).Some?
  {
    ProbeNone(l.slots, Home(TableHash, k, |l.slots|), Taken(k));
    CountAll(l.slots, Live<UniqueKey, LockType>);
  }

  ghost predicate CanAdd(l: LockList, k: UniqueKey) {
    |l.slots| > 0 && (l.size < |l.slots| ==> InsertSlot(l, k).Some?)
  }

  /** A lock is added, or nothing changes: the list was full, or the key was held already. */
  lemma AddLockEffect(l: LockList, lock: Lock)
    requires Valid(l)
    ensures CanAdd(l, lock.key)
    ensures var (l', e) := AddLock(l, lock);
            && Valid(l')
            && |l'.slots| == |l.slots|
            && (e == NoError ==> Held(l') == Held(l) + multiset{lock})
            && (e != NoError ==> l' == l)
            && (e == Full <==> l.size == |l.slots|)
            && (e == Conflict ==> GetLock(l, lock.key).Some?)
            && e != NotFound
  {
    CountAll(l.slots, Live<UniqueKey, LockType>);
    if l.size < |l.slots| {
      AddLockEnds(l, lock.key);
      var i := InsertSlot(l, lock.key).value;
      if Free(l.slots[i]) {
        FillEffect(l, i, lock);
      } else {
        SearchIsFind(l.slots, TableHash, lock.key);
        FindsLive(l.slots, TableHash, lock.key);
      }
    }
  }

  lemma FillEffect(l: LockList, i: nat, lock: Lock)
    requires Valid(l) && InsertSlot(l, lock.key) == Some(i) && Free(l.slots[i])
    ensures Valid(Fill(l, i, lock))
    ensures Held(Fill(l, i, lock)) == Held(l) + multiset{lock}
  {
    var s := Slot(lock.key, lock.mode, true, false);
    FirstFreeReachable(l.slots, TableHash, lock.key, Taken(lock.key), i);
    ChainedUpdate(l.slots, TableHash, i, s);
    CountUpdate(l.slots, Live<UniqueKey, LockType>, i, s);
    HeldUpdate(l.slots, i, s, 0);
    assert One(s) == multiset{lock};
  }

  /** After a successful add the key answers with the new mode. */
  lemma AddLockAnswers(l: LockList, lock: Lock)
    requires Valid(l) && CanAdd(l, lock.key) && AddLock(l, lock).1 == NoError
    ensures GetLock(AddLock(l, lock).0, lock.key) == Some(lock.mode)
  {
    var i := InsertSlot(l, lock.key).value;
    var home := Home(TableHash, lock.key, |l.slots|);
    var l' := AddLock(l, lock).0;
    AddLockEffect(l, lock);
    LookupsAgree(l', lock.key);
    forall d | 0 <= d < Dist(home, i, |l.slots|) ensures !Holds<UniqueKey, LockType>(lock.key)(l'.slots[At(home, d, |l.slots|)]) {
      ProbePassed(l.slots, home, Taken(lock.key), i, d);
      DistAt(home, d, |l.slots|);
    }
    ProbeIs(l'.slots, home, Holds(lock.key), Dist(home, i, |l.slots|));
  }

  /** A successful add leaves the answer for every other key as it was. */
  lemma AddLockFrame(l: LockList, lock: Lock, other: UniqueKey)
    requires Valid(l) && CanAdd(l, lock.key) && AddLock(l, lock).1 == NoError && other != lock.key
    ensures GetLock(AddLock(l, lock).0, other) == GetLock(l, other)
  {
    AddLockEffect(l, lock);
    LookupsAgree(l, other);
    LookupsAgree(AddLock(l, lock).0, other);
    FindFrame(l.slots, TableHash, other, InsertSlot(l, lock.key).value, Slot(lock.key, lock.mode, true, false));
  }

  /**
   * Adding a key that is held conflicts exactly when no tombstone lies between the
   * key's home and the slot that holds it; otherwise the key ends up held twice.
   */
  lemma HeldKeyConflicts(l: LockList, lock: Lock)
    requires Valid(l) && l.size < |l.slots| && FindLock(l, lock.key).Some? && CanAdd(l, lock.key)
    ensures var home := Home(TableHash, lock.key, |l.slots|);
            AddLock(l, lock).1 == Conflict <==>
            forall d :: 0 <= d < Dist(home, FindLock(l, lock.key).value, |l.slots|) ==> !l.slots[At(home, d, |l.slots|)].deleted
  {
    var home := Home(TableHash, lock.key, |l.slots|);
    var j := FindLock(l, lock.key).value;
    if forall d :: 0 <= d < Dist(home, j, |l.slots|) ==> !l.slots[At(home, d, |l.slots|)].deleted {
      NoTombstoneStops(l, lock.key, j);
    }
    if AddLock(l, lock).1 == Conflict {
      ConflictPassed(l, lock.key, InsertSlot(l, lock.key).value, j);
    }
  }

  /** The list has no room, or it holds the key and no tombstone comes before the slot that holds it. */
  predicate Refuses(l: LockList, k: UniqueKey)
    requires |l.slots| > 0
  {
    || l.size == |l.slots|
    || (FindLock(l, k).Some?
        && var home := Home(TableHash, k, |l.slots|);
           forall d :: 0 <= d < Dist(home, FindLock(l, k).value, |l.slots|) ==> !l.slots[At(home, d, |l.slots|)].deleted)
  }

  /** When exactly a lock is refused. */
  lemma AddLockRefuses(l: LockList, lock: Lock)
    requires Valid(l)
    ensures CanAdd(l, lock.key)
    ensures AddLock(l, lock).1 != NoError <==> Refuses(l, lock.key)
  {
    AddLockEffect(l, lock);
    LookupsAgree(l, lock.key);
    if l.size < |l.slots| && FindLock(l, lock.key).Some? { HeldKeyConflicts(l, lock); }
  }

  /** All locks of one table share one home, the table id modulo the number of slots: the first that is added to an empty list goes there. */
  lemma OneHomePerTable(l: LockList, lock: Lock)
    requires |l.slots| > 0 && forall i :: 0 <= i < |l.slots| ==> Free(l.slots[i])
    ensures InsertSlot(l, lock.key) == Some(lock.key.tbl % |l.slots|)
    ensures Fill(l, lock.key.tbl % |l.slots|, lock) ==
            LockList(l.slots[lock.key.tbl % |l.slots| := Slot(lock.key, lock.mode, true, false)], l.size + 1)
  {
    ProbeIs(l.slots, lock.key.tbl % |l.slots|, Taken(lock.key), 0);
  }

  /** Any removal probes from that home on, slot by slot. */
  lemma SeekLockPath(l: LockList, k: UniqueKey)
    requires |l.slots| > 0 && SeekLock(l, k).Some?
    ensures var i := SeekLock(l, k).value;
            && i < |l.slots| && l.slots[i].key == k && !l.slots[i].deleted
            && forall d :: 0 <= d < Dist(k.tbl % |l.slots|, i, |l.slots|) ==>
                 l.slots[At(k.tbl % |l.slots|, d, |l.slots|)].key != k || l.slots[At(k.tbl % |l.slots|, d, |l.slots|)].deleted
  {
    var i, home := SeekLock(l, k).value, k.tbl % |l.slots|;
    forall d | 0 <= d < Dist(home, i, |l.slots|)
      ensures l.slots[At(home, d, |l.slots|)].key != k || l.slots[At(home, d, |l.slots|)].deleted
    {
      ProbePassed(l.slots, home, Named<UniqueKey, LockType>(k), i, d);
    }
  }

  /** With no tombstone before it, the slot that holds the key is where insertion stops. */
  lemma NoTombstoneStops(l: LockList, k: UniqueKey, j: nat)
    requires Valid(l) && FindLock(l, k) == Some(j)
    requires forall d :: 0 <= d < Dist(Home(TableHash, k, |l.slots|), j, |l.slots|) ==>
               !l.slots[At(Home(TableHash, k, |l.slots|), d, |l.slots|)].deleted
    ensures InsertSlot(l, k) == Some(j)
  {
    var home := Home(TableHash, k, |l.slots|);
    assert ChainTo(l.slots, TableHash, k, j);
    forall d | 0 <= d < Dist(home, j, |l.slots|) ensures !Taken(k)(l.slots[At(home, d, |l.slots|)]) {
      ProbePassed(l.slots, home, Holds(k), j, d);
      assert l.slots[At(home, d, |l.slots|)].used;
    }
    ProbeSame(l.slots, home, Holds(k), Taken(k), j);
  }

  /** Insertion that stops on the key itself has passed no tombstone on the way to the slot that holds it. */
  lemma ConflictPassed(l: LockList, k: UniqueKey, i: nat, j: nat)
    requires Valid(l) && FindLock(l, k) == Some(j) && InsertSlot(l, k) == Some(i) && Live(l.slots[i])
    ensures forall d :: 0 <= d < Dist(Home(TableHash, k, |l.slots|), j, |l.slots|) ==>
              !l.slots[At(Home(TableHash, k, |l.slots|), d, |l.slots|)].deleted
  {
    var home := Home(TableHash, k, |l.slots|);
    var di := Dist(home, i, |l.slots|);
    if di < Dist(home, j, |l.slots|) { ProbePassed(l.slots, home, Holds(k), j, di); }
    forall d | 0 <= d < Dist(home, j, |l.slots|) ensures !l.slots[At(home, d, |l.slots|)].deleted {
      ProbePassed(l.slots, home, Taken(k), i, d);
    }
  }

  /** Removal takes exactly the lock that the search reports. */
  lemma RmLockEffect(l: LockList, k: UniqueKey)
    requires Valid(l) && GetLock(l, k).Some?
    ensures SeekLock(l, k).Some?
    ensures Valid(RmLock(l, k)) && |RmLock(l, k).slots| == |l.slots|
    ensures Held(l) == Held(RmLock(l, k)) + multiset{Lock(k, GetLock(l, k).value)}
  {
    LookupsAgree(l, k);
    var i := SeekLock(l, k).value;
    var s := l.slots[i].(deleted := true);
    ChainedUpdate(l.slots, TableHash, i, s);
    CountUpdate(l.slots, Live<UniqueKey, LockType>, i, s);
    HeldUpdate(l.slots, i, s, 0);
    assert One(l.slots[i]) == multiset{Lock(k, GetLock(l, k).value)};
  }

  /** Removing one key leaves the answer for every other key as it was. */
  lemma RmLockFrame(l: LockList, k: UniqueKey, other: UniqueKey)
    requires Valid(l) && GetLock(l, k).Some? && other != k
    requires SeekLock(l, k).Some?
    ensures GetLock(RmLock(l, k), other) == GetLock(l, other)
  {
    RmLockEffect(l, k);
    LookupsAgree(l, k);
    LookupsAgree(l, other);
    LookupsAgree(RmLock(l, k), other);
    var i := SeekLock(l, k).value;
    FindFrame(l.slots, TableHash, other, i, l.slots[i].(deleted := true));
  }

  /** Promotion turns the reported SHARED lock of the key into an EXCLUSIVE one. */
  lemma PromoteLockEffect(l: LockList, k: UniqueKey)
    requires Valid(l) && SearchLock(l, k).Some?
    ensures Valid(PromoteLock(l, k)) && |PromoteLock(l, k).slots| == |l.slots|
    ensures Held(PromoteLock(l, k)) + multiset{Lock(k, GetLock(l, k).value)} == Held(l) + multiset{Lock(k, EXCLUSIVE)}
  {
    LookupsAgree(l, k);
    var i := SearchLock(l, k).value;
    var s := l.slots[i].(value := EXCLUSIVE);
    assert ChainTo(l.slots, TableHash, k, i);
    ChainedUpdate(l.slots, TableHash, i, s);
    CountUpdate(l.slots, Live<UniqueKey, LockType>, i, s);
    HeldUpdate(l.slots, i, s, 0);
    assert One(l.slots[i]) == multiset{Lock(k, GetLock(l, k).value)};
  }

  /** Clearing leaves an empty, valid list. */
  lemma ClearEffect(l: LockList)
    requires |l.slots| > 0
    ensures Valid(Clear(l)) && Held(Clear(l)) == multiset{} && |Clear(l).slots| == |l.slots| && Clear(l).size == 0
    ensures forall i :: 0 <= i < |l.slots| ==> Clear(l).slots[i] == Slot(l.slots[i].key, l.slots[i].value, false, l.slots[i].deleted)
  {
    CountNone(Clear(l).slots, Live<UniqueKey, LockType>);
    HeldNothing(Clear(l).slots, 0);
  }
}
