/**
 * The worker as an object: handlers, the commit loop and the release loop update its
 * phase, its queue, its lock list and the rows of the shared table in place.
 */
module WorkerObjects {
  import opened Basics
  import opened StudentTuples
  import opened Workers
  import opened StudentTableObjects
  import opened LockListObjects
  import opened Rings
  import OA = OpenAddressing
  import Lists = LockLists
  import Tables = StudentTables
  import Progress

  class TxnWorker {
    const db: StudentTable
    const locks: LockList
    const queue: CommitQueue<Commit>
    var phase: Phase
    var running: bool

    /** The worker as the step system sees it, at the head of its loop. */
    ghost function State(): Worker
      requires queue.Valid()
      reads this, locks, locks.slots, queue, queue.slots
    {
      Worker(phase, locks.State(), queue.Queued(), LoopHead, running)
    }

    ghost function Footprint(): set<object> {
      {this, locks, locks.slots, queue, queue.slots, db, db.rows}
    }

    /** What holds even while a removal loop may have run into a stale slot. */
    ghost predicate Usable()
      reads Footprint()
    {
      queue.Valid() && locks.slots.Length > 0 && db.rows.Length > 0
    }

    ghost predicate Valid()
      reads Footprint()
    {
      Usable() && locks.Valid()
    }

    constructor (db: StudentTable, lockRoom: nat, commitRoom: nat)
      requires lockRoom > 0 && commitRoom > 0 && db.rows.Length > 0
      ensures Valid() && this.db == db && fresh(Footprint() - {db, db.rows})
      ensures State() == Worker(GROWING, locks.State(), [], LoopHead, true) && locks.Held() == multiset{}
      ensures locks.slots.Length == lockRoom && queue.slots.Length == commitRoom
    {
      this.db := db;
      locks := new LockList(lockRoom);
      queue := new CommitQueue<Commit>(commitRoom, AddItem(0, Student([], 0, 0, 0)));
      phase, running := GROWING, true;
    }

    // ---- Handlers that do not wait ----

    method Enqueue(cfg: Config, item: Commit)
      requires Valid() && cfg.maxCommits == queue.slots.Length
      modifies queue, queue.slots
      ensures Valid() && State() == Workers.Enqueue(cfg, old(State()), item)
    {
      var ok := queue.Send(item);
    }

    method ProcessAdd(cfg: Config, tbl: Option<nat>, student: Student)
      requires Valid() && cfg.maxCommits == queue.slots.Length
      modifies this, queue, queue.slots
      ensures Valid() && State() == Workers.ProcessAdd(cfg, old(State()), tbl, student)
    {
      if phase == GROWING { phase := SHRINKING; }
      if tbl != Some(STUDENT_TBL) { return; }
      Enqueue(cfg, AddItem(tbl.value, student));
    }

    method ProcessUpdate(cfg: Config, tbl: Option<nat>, key: Option<nat>, student: Student)
      requires Valid() && cfg.maxCommits == queue.slots.Length
      modifies this, queue, queue.slots
      ensures Valid() && State() == Workers.ProcessUpdate(cfg, old(State()), tbl, key, student)
    {
      hide Lists.GetLock, Lists.Valid, Lists.Held, Sound, Contents;
      if phase == GROWING { phase := SHRINKING; }
      if tbl.None? || key.None? { return; }
      var k := Lists.UniqueKey(tbl.value, key.value);
      var mode := locks.GetLock(k);
      if mode != Some(Lists.EXCLUSIVE) || tbl.value != STUDENT_TBL { return; }
      Enqueue(cfg, UpdateItem(k, StudentTuple(student, cfg.stamp(key.value))));
    }

    method ProcessRm(cfg: Config, tbl: Option<nat>, key: Option<nat>)
      requires Valid() && cfg.maxCommits == queue.slots.Length
      modifies this, queue, queue.slots
      ensures Valid() && State() == Workers.ProcessRm(cfg, old(State()), tbl, key)
    {
      hide Lists.GetLock, Lists.Valid, Lists.Held, Sound, Contents;
      if phase == GROWING { phase := SHRINKING; }
      if tbl.None? || key.None? { return; }
      var k := Lists.UniqueKey(tbl.value, key.value);
      var mode := locks.GetLock(k);
      if mode != Some(Lists.EXCLUSIVE) { return; }
      Enqueue(cfg, DeleteItem(k));
    }

    /** A yield whose two probe loops end. */
    method ProcessYield(tbl: Option<nat>, key: Option<nat>)
      requires Valid() && Workers.ProcessYield(db.State(), State(), tbl, key).Some?
      modifies locks, locks.slots, db, db.rows
      ensures Valid()
      ensures Some(Local(State(), db.State(), multiset{})) == Workers.ProcessYield(old(db.State()), old(State()), tbl, key)
    {
      hide Lists.GetLock, Lists.Valid, Lists.Held, Sound, Contents;
      if phase != GROWING || tbl.None? || key.None? { return; }
      var k := Lists.UniqueKey(tbl.value, key.value);
      var mode := locks.GetLock(k);
      if mode != Some(Lists.SHARED) { return; }
      Lists.RmLockEffect(locks.State(), k);
      locks.RmLock(k);
      if tbl.value == STUDENT_TBL { db.Release(key.value); }
    }

    // ---- Handlers that retry a waiting call, run with nobody else in between ----

    /** A granted row is put on record, or leaks when the list refuses it. */
    method Record(lock: Lists.Lock) returns (ghost leaked: multiset<Lists.Lock>)
      requires Valid()
      modifies locks, locks.slots
      ensures Valid()
      ensures Workers.Record(db.State(), old(State()), lock) == Some(Local(State(), db.State(), leaked))
    {
      var e := locks.AddLock(lock);
      leaked := if e == Lists.NoError then multiset{} else multiset{lock};
    }

    method ProcessSharedRead(cfg: Config, tbl: Option<nat>) returns (ghost leaked: multiset<Lists.Lock>)
      requires Valid() && db.Valid() && Tables.Exact(db.State())
      modifies this, locks, locks.slots, db, db.rows
      ensures Valid()
      ensures Some(Local(State(), db.State(), leaked)) == SharedReadAlone(cfg, old(db.State()), old(State()), tbl)
    {
      hide Tables.Exact, Tables.Valid, Tables.SharedScan, Tables.GrantShared, Lists.Valid, Lists.AddLock, Lists.InsertSlot;
      leaked := multiset{};
      if phase != GROWING || tbl != Some(STUDENT_TBL) { return; }
      var timeouts := 0;
      while timeouts < cfg.maxRetries
        invariant Valid() && db.State() == old(db.State()) && State() == old(State())
        invariant timeouts > 0 ==> running && (db.size == 0 || db.sAvail == 0)
      {
        if !running {
          phase := ABORTED;
          return;
        }
        assert db.Valid() && Tables.Exact(db.State());
        var row := db.WaitShared();
        assert row.Err? ==> row.error == TableError.Timeout;
        if row.Ok? {
          leaked := Record(Lists.Lock(Lists.UniqueKey(STUDENT_TBL, row.value.key), Lists.SHARED));
          return;
        }
        timeouts := timeouts + 1;
      }
    }

    method ProcessExclusiveRead(cfg: Config, tbl: Option<nat>) returns (ghost leaked: multiset<Lists.Lock>)
      requires Valid() && db.Valid() && Tables.Exact(db.State())
      modifies this, locks, locks.slots, db, db.rows
      ensures Valid()
      ensures Some(Local(State(), db.State(), leaked)) == ExclusiveReadAlone(cfg, old(db.State()), old(State()), tbl)
    {
      hide Tables.Exact, Tables.Valid, Tables.ExclusiveScan, Tables.GrantExclusive, Lists.Valid, Lists.AddLock, Lists.InsertSlot;
      leaked := multiset{};
      if phase != GROWING || tbl != Some(STUDENT_TBL) { return; }
      var timeouts := 0;
      while timeouts < cfg.maxRetries
        invariant Valid() && db.State() == old(db.State()) && State() == old(State())
        invariant timeouts > 0 ==> running && (db.size == 0 || db.xAvail == 0)
      {
        if !running {
          phase := ABORTED;
          return;
        }
        assert db.Valid() && Tables.Exact(db.State());
        var row := db.WaitExclusive();
        assert row.Err? ==> row.error == TableError.Timeout;
        if row.Ok? {
          leaked := Record(Lists.Lock(Lists.UniqueKey(STUDENT_TBL, row.value.key), Lists.EXCLUSIVE));
          return;
        }
        timeouts := timeouts + 1;
      }
    }

    /** A promotion: both probes end because the row is in the list and in the table. */
    method ProcessPromote(cfg: Config, tbl: Option<nat>, key: Option<nat>)
      requires Valid() && (Promotes(State(), tbl, key) ==> Tables.SeekRow(db.State(), key.value).Some?)
      modifies this, locks, locks.slots, db, db.rows
      ensures Valid()
      ensures Local(State(), db.State(), multiset{}) == PromoteAlone(cfg, old(db.State()), old(State()), tbl, key)
    {
      if phase != GROWING || tbl.None? || key.None? { return; }
      var k := Lists.UniqueKey(tbl.value, key.value);
      var mode := locks.GetLock(k);
      if mode != Some(Lists.SHARED) || tbl.value != STUDENT_TBL { return; }
      var promoted := AwaitPromotion(cfg, key.value);
      if promoted {
        Lists.PromoteLockEffect(locks.State(), k);
        locks.PromoteLock(k);
      }
    }

    /** The retry loop of a promotion; running out of retries aborts the transaction, being stopped does not. */
    method AwaitPromotion(cfg: Config, k: nat) returns (promoted: bool)
      requires Usable() && Tables.SeekRow(db.State(), k).Some?
      modifies this, db, db.rows
      ensures Usable() && locks.State() == old(locks.State()) && queue.State() == old(queue.State()) && running == old(running)
      ensures var i := Tables.SeekRow(old(db.State()), k).value;
              && (promoted <==> cfg.maxRetries > 0 && running && old(db.rows[..])[i].value.lock == 1)
              && db.State() == if promoted then Tables.PromoteAt(old(db.State()), i) else old(db.State())
      ensures phase == if !promoted && (running || cfg.maxRetries == 0) then ABORTED else old(phase)
    {
      ghost var i := Tables.SeekRow(db.State(), k).value;
      assert i < db.rows.Length;
      hide Tables.SeekRow, Tables.PromoteAt, Sound;
      promoted := false;
      var timeouts := 0;
      while true
        invariant Usable() && db.State() == old(db.State()) && phase == old(phase) && running == old(running)
        invariant timeouts <= cfg.maxRetries && !promoted
        invariant timeouts > 0 ==> running && db.State().rows[i].value.lock != 1
        decreases cfg.maxRetries - timeouts
      {
        if timeouts >= cfg.maxRetries {
          phase := ABORTED;
          return;
        }
        if !running { return; }
        promoted := db.Promote(k);
        if promoted { return; }
        timeouts := timeouts + 1;
      }
    }

    // ---- The commit loop and the end of the worker ----

    /** The commit loop, when no item blocks and no probe loop hangs. */
    method ProcessCommit()
      requires Usable() && phase == SHRINKING && Progress.Drain(db.State(), State().(pc := Replaying)).Some?
      modifies Footprint()
      ensures Usable()
      ensures Progress.Drain(old(db.State()), old(State()).(pc := Replaying))
           == Some(Local(State().(pc := Releasing(0)), db.State(), multiset{}))
    {
      ghost var goal := Progress.Drain(db.State(), State().(pc := Replaying));
      while queue.size > 0
        invariant Usable() && phase == SHRINKING
        invariant Progress.Drain(db.State(), State().(pc := Replaying)) == goal
        decreases queue.size
      {
        Replay();
      }
    }

    /** One item of the commit queue, then off the queue with it. */
    method Replay()
      requires Usable() && queue.size > 0
      requires ReplayTurn(db.State(), State().(pc := Replaying)).Some?
      modifies Footprint() - {this}
      ensures Usable() && queue.size == old(queue.size) - 1
      ensures ReplayTurn(old(db.State()), old(State()).(pc := Replaying))
           == Some(Local(State().(pc := Replaying), db.State(), multiset{}))
    {
      hide ReplayItem;
      var item := queue.Get();
      ReplayOne(item);
      queue.Pop();
    }

    method ReplayOne(item: Commit)
      requires Usable() && ReplayItem(db.State(), State().(pc := Replaying), item).Some?
      modifies locks, locks.slots, db, db.rows
      ensures Usable() && queue.State() == old(queue.State())
      ensures ReplayItem(old(db.State()), old(State()).(pc := Replaying), item)
           == Some(Local(State().(pc := Replaying), db.State(), multiset{}))
    {
      hide Tables.Insert, Tables.InsertSlot, Tables.Remove, Tables.Write, Tables.SeekRow, Lists.RmLock, Lists.SeekLock, Sound, Tables.Valid, Tables.View;
      match item {
        case AddItem(tbl, student) =>
          if tbl == STUDENT_TBL { var stored := db.Insert(student); }
        case DeleteItem(k) =>
          locks.RmLock(k);
          if k.tbl == STUDENT_TBL { db.Remove(k.key); }
        case UpdateItem(k, tuple) =>
          if k.tbl == STUDENT_TBL { db.Write(tuple); }
      }
    }

    /** `release_all_locks`, when no probe loop hangs. */
    method ReleaseAllLocks()
      requires Usable() && Progress.ReleaseFrom(db.State(), locks.State(), 0).Some?
      modifies locks, locks.slots, db, db.rows
      ensures Valid() && locks.State() == Lists.Clear(old(locks.State())) && locks.Held() == multiset{}
      ensures Some(db.State()) == Progress.ReleaseFrom(old(db.State()), old(locks.State()), 0)
    {
      hide Progress.ReleaseFrom, Lists.Clear, Lists.Held, Lists.Valid, Sound;
      ReleaseRows();
      locks.Clear();
    }

    method ReleaseRows()
      requires Usable() && Progress.ReleaseFrom(db.State(), locks.State(), 0).Some?
      modifies db, db.rows
      ensures Usable() && Some(db.State()) == Progress.ReleaseFrom(old(db.State()), locks.State(), 0)
    {
      ghost var goal := Progress.ReleaseFrom(db.State(), locks.State(), 0);
      ReleaseFromSkip(db.State(), locks.State(), 0);
      hide Progress.ReleaseFrom, Lists.NextLive, Lists.HeldFrom, Sound;
      var it := new LockIterator(locks);
      while it.idx != locks.slots.Length
        invariant Usable() && it.list == locks && it.Valid()
        invariant Progress.ReleaseFrom(db.State(), locks.State(), it.idx) == goal
        decreases locks.slots.Length - it.idx
        modifies it, db, db.rows
      {
        ReleaseOne(it);
      }
      AtEnd(db.State(), locks.State());
    }

    /** The row under the iterator is released and the iterator moves on. */
    method ReleaseOne(it: LockIterator)
      requires Usable() && it.list == locks && it.Valid() && it.idx < locks.slots.Length
      requires Progress.ReleaseFrom(db.State(), locks.State(), it.idx).Some?
      modifies it, db, db.rows
      ensures Usable() && it.Valid() && it.idx > old(it.idx)
      ensures Progress.ReleaseFrom(db.State(), locks.State(), it.idx)
           == old(Progress.ReleaseFrom(db.State(), locks.State(), it.idx))
    {
      hide Progress.ReleaseFrom, Lists.NextLive, Tables.Release, Tables.SeekRow, Sound;
      ReleaseFromTurn(db.State(), locks.State(), it.idx);
      var k := locks.slots[it.idx].key;
      if k.tbl == STUDENT_TBL { db.Release(k.key); }
      it.Next();
    }

    method ClearCommitQueue()
      requires Usable()
      modifies queue
      ensures Usable() && queue.Queued() == []
    {
      while queue.size > 0
        invariant Usable()
        decreases queue.size
      {
        queue.Pop();
      }
    }

    /** The worker leaves with an empty list and an empty queue. */
    method Quit()
      requires Usable() && Progress.ReleaseFrom(db.State(), locks.State(), 0).Some?
      modifies Footprint() - {this}
      ensures Valid() && State() == old(State()).(locks := Lists.Clear(old(locks.State())), queue := [])
      ensures Some(db.State()) == Progress.ReleaseFrom(old(db.State()), old(locks.State()), 0)
    {
      ReleaseAllLocks();
      ClearCommitQueue();
    }
  }

  /** Where the iterator stands is all that the rest of the release loop depends on. */
  lemma ReleaseFromSkip(t: Tables.Table, l: Lists.LockList, i: nat)
    requires |t.rows| > 0 && i <= |l.slots|
    ensures Progress.ReleaseFrom(t, l, i) == Progress.ReleaseFrom(t, l, Lists.NextLive(l, i))
  {
    assert Lists.NextLive(l, Lists.NextLive(l, i)) == Lists.NextLive(l, i);
  }

  lemma ReleaseFromTurn(t: Tables.Table, l: Lists.LockList, j: nat)
    requires |t.rows| > 0 && j < |l.slots| && OA.Live(l.slots[j]) && Progress.ReleaseFrom(t, l, j).Some?
    ensures var k, next := l.slots[j].key, Lists.NextLive(l, j + 1);
            if k.tbl != STUDENT_TBL then Progress.ReleaseFrom(t, l, j) == Progress.ReleaseFrom(t, l, next)
            else Tables.SeekRow(t, k.key).Some?
                 && Progress.ReleaseFrom(t, l, j) == Progress.ReleaseFrom(Tables.Release(t, k.key), l, next)
  {
    var k := l.slots[j].key;
    assert Lists.NextLive(l, j) == j < |l.slots|;
    assert k.tbl == STUDENT_TBL ==> Tables.SeekRow(t, k.key).Some?;
    ReleaseFromSkip(t, l, j + 1);
    if k.tbl == STUDENT_TBL { ReleaseFromSkip(Tables.Release(t, k.key), l, j + 1); }
  }

  lemma AtEnd(t: Tables.Table, l: Lists.LockList)
    requires |t.rows| > 0
    ensures Progress.ReleaseFrom(t, l, |l.slots|) == Some(t)
  {
  }

  // ---- Retry loops with nobody else in between ----

  function SharedReadAlone(cfg: Config, t: Tables.Table, w: Worker, tbl: Option<nat>): Option<Local>
    requires Shaped(t, w)
  {
    if w.phase != GROWING || tbl != Some(STUDENT_TBL) || cfg.maxRetries == 0 then Some(Local(w, t, multiset{}))
    else if !w.running then Some(Local(w.(phase := ABORTED), t, multiset{}))
    else if t.size == 0 || t.sAvail == 0 then Some(Local(w, t, multiset{}))
    else CallShared(t, w, 0)
  }

  function ExclusiveReadAlone(cfg: Config, t: Tables.Table, w: Worker, tbl: Option<nat>): Option<Local>
    requires Shaped(t, w)
  {
    if w.phase != GROWING || tbl != Some(STUDENT_TBL) || cfg.maxRetries == 0 then Some(Local(w, t, multiset{}))
    else if !w.running then Some(Local(w.(phase := ABORTED), t, multiset{}))
    else if t.size == 0 || t.xAvail == 0 then Some(Local(w, t, multiset{}))
    else CallExclusive(t, w, 0)
  }

  /** The tests that come before the table is asked. */
  predicate Promotes(w: Worker, tbl: Option<nat>, key: Option<nat>)
    requires |w.locks.slots| > 0
  {
    w.phase == GROWING && Workers.Holds(w, tbl, key, Lists.SHARED) && tbl.value == STUDENT_TBL
  }

  function PromoteAlone(cfg: Config, t: Tables.Table, w: Worker, tbl: Option<nat>, key: Option<nat>): Local
    requires Shaped(t, w) && (Promotes(w, tbl, key) ==> Tables.SeekRow(t, key.value).Some?)
  {
    if !Promotes(w, tbl, key) then Local(w, t, multiset{})
    else
      var i := Tables.SeekRow(t, key.value).value;
      if cfg.maxRetries == 0 then Local(w.(phase := ABORTED), t, multiset{})
      else if !w.running then Local(w, t, multiset{})
      else if t.rows[i].value.lock != 1 then Local(w.(phase := ABORTED), t, multiset{})
      else Local(w.(locks := Lists.PromoteLock(w.locks, Lists.UniqueKey(tbl.value, key.value))), Tables.PromoteAt(t, i), multiset{})
  }

  // ---- The same loops as steps of the step system ----

  /** Check, then the call: its wait times out when its condition does not hold, and goes through when it does. */
  function Retries(cfg: Config, t: Tables.Table, w: Worker): Option<Local>
    requires Shaped(t, w) && w.pc.Trying?
    decreases cfg.maxRetries - w.pc.tries
  {
    match StepLocal(cfg, t, w, Check)
    case None => None
    case Some(c) => if !c.worker.pc.Calling? then Some(c) else Call(cfg, t, w, c.worker)
  }

  function Call(cfg: Config, t: Tables.Table, w: Worker, c: Worker): Option<Local>
    requires Shaped(t, c) && w.pc.Trying? && c.pc == Calling(w.pc.want, w.pc.tries) && w.pc.tries < cfg.maxRetries
    decreases cfg.maxRetries - w.pc.tries, 0
  {
    var parked := if c.pc.want.WantPromote? then StepLocal(cfg, t, c, Proceed) else Some(Local(c, t, multiset{}));
    if parked.None? then None
    else
      match StepLocal(cfg, t, parked.value.worker, Act.Timeout)
      case Some(r) => Retries(cfg, r.table, r.worker)
      case None => StepLocal(cfg, t, parked.value.worker, Proceed)
  }

  /** A request served at the loop head, and its retries if it starts any, with nobody else stepping in between. */
  function Handled(cfg: Config, t: Tables.Table, w: Worker, req: Request): Option<Local>
    requires Shaped(t, w) && w.pc.LoopHead?
  {
    match StepLocal(cfg, t, w.(pc := Receiving), Receive(req))
    case None => None
    case Some(r) => if r.worker.pc.Trying? && Shaped(r.table, r.worker) then Retries(cfg, r.table, r.worker) else Some(r)
  }

  /** The shared read of the object is what the step system does when nobody else steps in between. */
  lemma SharedReadIsSteps(cfg: Config, t: Tables.Table, w: Worker, tbl: Option<nat>)
    requires Shaped(t, w) && Tables.Valid(t) && Tables.Exact(t) && w.pc.LoopHead?
    ensures Handled(cfg, t, w, SharedRead(tbl)) == SharedReadAlone(cfg, t, w, tbl)
  {
    hide Tables.Valid, Tables.Exact, Retries, CallShared;
    Tables.SharedScanFinds(t);
    if w.phase == GROWING { SharedFrom(cfg, t, w, 0); }
    assert w.(pc := LoopHead) == w;
  }

  lemma {:induction false} SharedFrom(cfg: Config, t: Tables.Table, w: Worker, n: nat)
    requires Shaped(t, w) && w.pc.LoopHead? && w.phase == GROWING && n <= cfg.maxRetries
    requires Tables.SharedScan(t).Some? <==> t.sAvail > 0
    ensures Retries(cfg, t, w.(pc := Trying(WantShared, n))) ==
            if n < cfg.maxRetries then SharedReadAlone(cfg, t, w, Some(STUDENT_TBL)) else Some(Local(w, t, multiset{}))
    decreases cfg.maxRetries - n
  {
    hide Lists.InsertSlot, Lists.AddLock, Tables.GrantShared, Tables.SharedScan;
    if n < cfg.maxRetries { SharedFrom(cfg, t, w, n + 1); }
  }

  lemma ExclusiveReadIsSteps(cfg: Config, t: Tables.Table, w: Worker, tbl: Option<nat>)
    requires Shaped(t, w) && Tables.Valid(t) && Tables.Exact(t) && w.pc.LoopHead?
    ensures Handled(cfg, t, w, ExclusiveRead(tbl)) == ExclusiveReadAlone(cfg, t, w, tbl)
  {
    hide Tables.Valid, Tables.Exact, Retries, CallExclusive;
    Tables.ExclusiveScanFinds(t);
    if w.phase == GROWING { ExclusiveFrom(cfg, t, w, 0); }
    assert w.(pc := LoopHead) == w;
  }

  lemma {:induction false} ExclusiveFrom(cfg: Config, t: Tables.Table, w: Worker, n: nat)
    requires Shaped(t, w) && w.pc.LoopHead? && w.phase == GROWING && n <= cfg.maxRetries
    requires Tables.ExclusiveScan(t).Some? <==> t.xAvail > 0
    ensures Retries(cfg, t, w.(pc := Trying(WantExclusive, n))) ==
            if n < cfg.maxRetries then ExclusiveReadAlone(cfg, t, w, Some(STUDENT_TBL)) else Some(Local(w, t, multiset{}))
    decreases cfg.maxRetries - n
  {
    hide Lists.InsertSlot, Lists.AddLock, Tables.GrantExclusive, Tables.ExclusiveScan;
    if n < cfg.maxRetries { ExclusiveFrom(cfg, t, w, n + 1); }
  }

  lemma PromoteIsSteps(cfg: Config, t: Tables.Table, w: Worker, tbl: Option<nat>, key: Option<nat>)
    requires Shaped(t, w) && w.pc.LoopHead? && (Promotes(w, tbl, key) ==> Tables.SeekRow(t, key.value).Some?)
    ensures Handled(cfg, t, w, Request.Promote(tbl, key)) == Some(PromoteAlone(cfg, t, w, tbl, key))
  {
    hide Retries, Lists.GetLock, Lists.PromoteLock, Tables.SeekRow, Tables.PromoteAt;
    assert w.(pc := LoopHead) == w;
    if Promotes(w, tbl, key) { PromoteFrom(cfg, t, w, key.value, 0); }
  }

  lemma {:induction false} PromoteFrom(cfg: Config, t: Tables.Table, w: Worker, k: nat, n: nat)
    requires Shaped(t, w) && w.pc.LoopHead? && w.phase == GROWING && Tables.SeekRow(t, k).Some? && n <= cfg.maxRetries
    requires Lists.GetLock(w.locks, Lists.UniqueKey(STUDENT_TBL, k)) == Some(Lists.SHARED)
    ensures Retries(cfg, t, w.(pc := Trying(WantPromote(Lists.UniqueKey(STUDENT_TBL, k)), n)))
         == Some(if n < cfg.maxRetries then PromoteAlone(cfg, t, w, Some(STUDENT_TBL), Some(k))
                 else Local(w.(phase := ABORTED), t, multiset{}))
    decreases cfg.maxRetries - n
  {
    assert Lists.SearchLock(w.locks, Lists.UniqueKey(STUDENT_TBL, k)).Some?;
    assert Tables.SeekRow(t, k).value < |t.rows|;
    hide Lists.GetLock, Lists.SearchLock, Lists.PromoteLock, Tables.SeekRow, Tables.PromoteAt;
    if n < cfg.maxRetries { PromoteFrom(cfg, t, w, k, n + 1); }
  }
}
