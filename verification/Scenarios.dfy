/** Concrete runs over a table of two rows and lists of one slot, stretch by stretch. */
module Scenarios {
  import opened Basics
  import opened Probing
  import opened StudentTuples
  import opened LockLists
  import opened Workers
  import opened Protocol
  import opened Runs
  import opened InTurn
  import OA = OpenAddressing
  import Tables = StudentTables

  function Someone(age: Byte): Student { Student([], age, 0, 0) }

  function Occupied(k: nat, age: Byte, lock: int): Tables.Row { OA.Slot(k, Tables.Cell(Someone(age), lock), true, false) }

  function Holding(k: nat, mode: LockType): LockList { LockList([OA.Slot(Row(k), mode, true, false)], 1) }

  function Nothing(): LockList { LockList([OA.Slot(UniqueKey(0, 0), EXCLUSIVE, false, false)], 0) }

  function Idle(): Worker { Worker(GROWING, Nothing(), [], LoopHead, true) }

  function Bare(): Tables.Row { OA.Slot(0, Tables.Cell(Someone(0), 0), false, false) }

  function Empty(): Tables.Table { Tables.Table([Bare(), Bare()], 0, 0, 0, 0) }

  function Half(): Tables.Table { Tables.Table([Occupied(0, 10, 0), Bare()], 1, 1, 1, 1) }

  function Filled(): Tables.Table { Tables.Table([Occupied(0, 10, 0), Occupied(1, 11, 0)], 2, 2, 2, 2) }

  function Shared(n: nat): Tables.Table
    requires n > 0
  {
    Tables.Table([Occupied(0, 10, n), Occupied(1, 11, 0)], 2, 1, 2, 2)
  }

  function Outset(): State { State(Empty(), [Idle(), Idle()], multiset{}) }

  lemma StartIsInitial()
    ensures Initial(Outset())
  {
    assert seq(1, i => OA.Slot(UniqueKey(0, 0), EXCLUSIVE, false, false)) == Nothing().slots;
    assert Fresh(Idle()) == Idle();
  }

  lemma InsertsIn()
    ensures Tables.InsertSlot(Empty()) == Some(0) && Tables.InsertSlot(Half()) == Some(1)
    ensures Tables.Insert(Empty(), Someone(10)) == Half() && Tables.Insert(Half(), Someone(11)) == Filled()
  {
    assert OA.Home(Tables.KeyHash, 0, 2) == 0 && OA.Home(Tables.KeyHash, 1, 2) == 1;
    ProbeIs(Empty().rows, 0, OA.Free<nat, Tables.Cell>, 0);
    ProbeIs(Half().rows, 1, OA.Free<nat, Tables.Cell>, 0);
  }

  function Adds(students: seq<Student>): seq<Commit> { seq(|students|, i requires 0 <= i < |students| => AddItem(STUDENT_TBL, students[i])) }

  function Adder(students: seq<Student>): Worker {
    Worker(if students == [] then GROWING else SHRINKING, Nothing(), Adds(students), LoopHead, true)
  }

  /** A transaction queues records to add, one request each. */
  lemma {:induction false} Queueing(cfg: Config, t: Tables.Table, students: seq<Student>)
    requires |students| <= cfg.maxCommits && |t.rows| > 0
    ensures Leads(cfg, t, Idle(), Only(Adder(students), t))
    decreases |students|
  {
    hide Leads;
    if students == [] {
      assert Adds([]) == [] && Adder(students) == Idle();
      LeadsHere(cfg, t, Idle());
    } else {
      var before, student := students[..|students|-1], students[|students|-1];
      Queueing(cfg, t, before);
      assert Adds(before) + [AddItem(STUDENT_TBL, student)] == Adds(students);
      LeadsServed(cfg, t, Idle(), Only(Adder(before), t), AddTuple(Some(STUDENT_TBL), student), Only(Adder(students), t));
    }
  }

  /** Then it begins to commit. */
  lemma Queued(cfg: Config, t: Tables.Table, students: seq<Student>)
    requires 0 < |students| <= cfg.maxCommits && |t.rows| > 0
    ensures Leads(cfg, t, Idle(), Only(Committer(students), t))
  {
    hide Leads;
    Queueing(cfg, t, students);
    LeadsServed(cfg, t, Idle(), Only(Adder(students), t), CommitTxn, Only(Committer(students), t));
  }

  function Committer(students: seq<Student>): Worker { Worker(SHRINKING, Nothing(), Adds(students), Replaying, true) }

  /** One insertion of the commit loop. */
  lemma Inserting(cfg: Config, t: Tables.Table, w: Worker, students: seq<Student>, u: Tables.Table, u': Tables.Table)
    requires Leads(cfg, t, w, Only(Committer(students), u)) && students != [] && |u.rows| > 0 && u.size != |u.rows|
    requires Tables.InsertSlot(u).Some? && Tables.Insert(u, students[0]) == u'
    ensures Leads(cfg, t, w, Only(Committer(students[1..]), u'))
  {
    hide Leads, Tables.Insert, Tables.InsertSlot;
    assert Adds(students)[1..] == Adds(students[1..]);
    LeadsQuietly(cfg, t, w, Only(Committer(students), u), Proceed, Only(Committer(students[1..]), u'));
  }

  /** A transaction that adds two records and commits, and the worker started again. */
  lemma Filling(cfg: Config)
    requires cfg.maxCommits >= 2
    ensures Leads(cfg, Empty(), Idle(), Only(Idle(), Filled()))
  {
    hide Leads, Tables.Insert, Tables.InsertSlot;
    var x, y := Someone(10), Someone(11);
    InsertsIn();
    Queued(cfg, Empty(), [x, y]);
    assert [x, y][1..] == [y] && [y][1..] == [] && Adds([]) == [];
    Inserting(cfg, Empty(), Idle(), [x, y], Empty(), Half());
    Inserting(cfg, Empty(), Idle(), [y], Half(), Filled());
    Restarting(cfg, Empty(), Idle(), Committer([]), Filled());
  }

  /** The end of a commit whose list is empty, and a new start. */
  lemma Restarting(cfg: Config, t: Tables.Table, w: Worker, v: Worker, u: Tables.Table)
    requires Leads(cfg, t, w, Only(v, u)) && |u.rows| > 0
    requires v.pc.Replaying? && v.queue == [] && |v.locks.slots| == 1 && OA.Free(v.locks.slots[0])
    ensures Leads(cfg, t, w, Only(Idle(), u))
  {
    hide Leads;
    assert NextLive(v.locks, 0) == 1;
    var w1 := v.(pc := Releasing(0));
    var w2 := w1.(locks := LockLists.Clear(v.locks), pc := Stopped);
    LeadsQuietly(cfg, t, w, Only(v, u), Proceed, Only(w1, u));
    LeadsQuietly(cfg, t, w, Only(w1, u), Proceed, Only(w2, u));
    assert Fresh(w2).locks.slots == Nothing().slots;
    LeadsQuietly(cfg, t, w, Only(w2, u), Act.Start, Only(Idle(), u));
  }

  /** A lock goes into an empty list of one slot, whatever that slot last held. */
  lemma FirstLock(lock: Lock)
    ensures InsertSlot(Nothing(), lock.key) == Some(0)
    ensures AddLock(Nothing(), lock) == (LockList([OA.Slot(lock.key, lock.mode, true, false)], 1), NoError)
  {
    assert OA.Home(TableHash, lock.key, 1) == 0;
    ProbeIs(Nothing().slots, 0, Taken(lock.key), 0);
    assert Nothing().slots[0 := OA.Slot(lock.key, lock.mode, true, false)] == [OA.Slot(lock.key, lock.mode, true, false)];
  }

  lemma SharedScans(n: nat)
    requires n > 0
    ensures Tables.SharedScan(Filled()) == Some(0) == Tables.SharedScan(Shared(n))
    ensures Tables.GrantShared(Filled(), 0) == Shared(1)
    ensures n < Tables.LOCK_MAX ==> Tables.GrantShared(Shared(n), 0) == Shared(n + 1)
    ensures Tables.ExclusiveScan(Shared(n)) == Some(1)
  {
    ProbeIs(Filled().rows, 0, Tables.Shareable, 0);
    ProbeIs(Shared(n).rows, 0, Tables.Shareable, 0);
    ProbeIs(Shared(n).rows, 0, Tables.Unlocked, 1);
  }

  /** A shared read of the filled table takes row 0. */
  lemma Reading(cfg: Config)
    requires cfg.maxRetries > 0
    ensures Leads(cfg, Filled(), Idle(), Only(Idle().(locks := Holding(0, SHARED)), Shared(1)))
  {
    hide Leads, Tables.SharedScan, Tables.GrantShared, AddLock, InsertSlot;
    SharedScans(1);
    FirstLock(Lock(Row(0), SHARED));
    LeadsHere(cfg, Filled(), Idle());
    LeadsRead(cfg, Filled(), Idle(), Only(Idle(), Filled()), WantShared, Only(Idle().(locks := Holding(0, SHARED)), Shared(1)));
  }

  /** A second one finds the list full: row 0 is locked once more, and nothing says so. */
  lemma Overfilling(cfg: Config)
    requires cfg.maxRetries > 0
    ensures var w := Idle().(locks := Holding(0, SHARED));
            Leads(cfg, Shared(1), w, Local(w, Shared(2), multiset{Lock(Row(0), SHARED)}))
  {
    hide Leads, Tables.SharedScan, Tables.GrantShared;
    var w := Idle().(locks := Holding(0, SHARED));
    SharedScans(1);
    LeadsHere(cfg, Shared(1), w);
    LeadsRead(cfg, Shared(1), w, Only(w, Shared(1)), WantShared, Local(w, Shared(2), multiset{Lock(Row(0), SHARED)}));
  }

  function Contended(): Tables.Table { Tables.Table([Occupied(0, 10, 1), Occupied(1, 11, -1)], 1, 0, 2, 2) }

  lemma HoldingAnswers(k: nat, mode: LockType)
    ensures GetLock(Holding(k, mode), Row(k)) == Some(mode)
    ensures SeekLock(Holding(k, mode), Row(k)) == Some(0)
  {
    var slots := Holding(k, mode).slots;
    assert OA.Home(TableHash, Row(k), 1) == 0;
    ProbeIs(slots, 0, OA.Stop(Row(k)), 0);
    ProbeIs(slots, 0, OA.Named(Row(k)), 0);
  }

  /** While row 0 is shared, another worker takes row 1, updates it and begins to commit. */
  lemma Updating(cfg: Config)
    requires cfg.maxRetries > 0 && cfg.maxCommits > 0 && cfg.stamp(1) == SourceStamp(1)
    ensures Leads(cfg, Shared(1), Idle(), Only(
              Worker(SHRINKING, Holding(1, EXCLUSIVE), [UpdateItem(Row(1), StudentTuple(Someone(99), 0))], Replaying, true), Contended()))
  {
    hide Leads, Tables.ExclusiveScan, AddLock, InsertSlot, GetLock;
    SharedScans(1);
    FirstLock(Lock(Row(1), EXCLUSIVE));
    assert Tables.GrantExclusive(Shared(1), 1) == Contended();
    LeadsHere(cfg, Shared(1), Idle());
    LeadsRead(cfg, Shared(1), Idle(), Only(Idle(), Shared(1)), WantExclusive, Only(Idle().(locks := Holding(1, EXCLUSIVE)), Contended()));
    Committing(cfg, Shared(1), Idle(), Contended());
  }

  lemma Committing(cfg: Config, t: Tables.Table, w: Worker, u: Tables.Table)
    requires Leads(cfg, t, w, Only(Idle().(locks := Holding(1, EXCLUSIVE)), u)) && |u.rows| > 0
    requires cfg.maxCommits > 0 && cfg.stamp(1) == SourceStamp(1)
    ensures Leads(cfg, t, w, Only(
              Worker(SHRINKING, Holding(1, EXCLUSIVE), [UpdateItem(Row(1), StudentTuple(Someone(99), 0))], Replaying, true), u))
  {
    hide Leads, GetLock;
    var item := UpdateItem(Row(1), StudentTuple(Someone(99), 0));
    var v := Worker(SHRINKING, Holding(1, EXCLUSIVE), [item], LoopHead, true);
    HoldingAnswers(1, EXCLUSIVE);
    assert [] + [item] == [item];
    LeadsServed(cfg, t, w, Only(Idle().(locks := Holding(1, EXCLUSIVE)), u),
                UpdateRow(Some(STUDENT_TBL), Some(1), Someone(99)), Only(v, u));
    LeadsServed(cfg, t, w, Only(v, u), CommitTxn, Only(v.(pc := Replaying), u));
  }

  // ---- A table whose row 0 is a tombstone ----

  function First(lock: int, deleted: bool): Tables.Row { Occupied(0, 10, lock).(deleted := deleted) }

  function Locked(): Tables.Table { Tables.Table([First(-1, false), Occupied(1, 11, 0)], 1, 1, 2, 2) }

  function Buried(): Tables.Table { Tables.Table([First(-1, true), Occupied(1, 11, 0)], 1, 1, 1, 2) }

  function Closed(): Tables.Table { Tables.Table([First(-1, true), Occupied(1, 11, -1)], 0, 0, 1, 2) }

  lemma BuriedScans()
    ensures Tables.ExclusiveScan(Filled()) == Some(0) && Tables.GrantExclusive(Filled(), 0) == Locked()
    ensures Tables.ExclusiveScan(Buried()) == Some(1) && Tables.GrantExclusive(Buried(), 1) == Closed()
    ensures Tables.SeekRow(Locked(), 0) == Some(0) && Tables.Remove(Locked(), 0) == Buried()
  {
    assert OA.Home(Tables.KeyHash, 0, 2) == 0;
    ProbeIs(Filled().rows, 0, Tables.Unlocked, 0);
    ProbeIs(Buried().rows, 0, Tables.Unlocked, 1);
    ProbeIs(Locked().rows, 0, OA.Named(0), 0);
  }

  /** A transaction that takes row 0, deletes it and commits, and the worker started again. */
  lemma Burying(cfg: Config)
    requires cfg.maxRetries > 0 && cfg.maxCommits > 0
    ensures Leads(cfg, Filled(), Idle(), Only(Idle(), Buried()))
  {
    hide Leads, Tables.ExclusiveScan, Tables.GrantExclusive, Tables.Remove, Tables.SeekRow, AddLock, InsertSlot, GetLock, SeekLock;
    var t, w := Filled(), Idle();
    var h := w.(locks := Holding(0, EXCLUSIVE));
    var d := h.(phase := SHRINKING, queue := [DeleteItem(Row(0))]);
    BuriedScans();
    FirstLock(Lock(Row(0), EXCLUSIVE));
    HoldingAnswers(0, EXCLUSIVE);
    var e := d.(locks := RmLock(Holding(0, EXCLUSIVE), Row(0)), queue := [], pc := Replaying);
    assert [] + [DeleteItem(Row(0))] == [DeleteItem(Row(0))] && [DeleteItem(Row(0))][1..] == [];
    LeadsHere(cfg, t, w);
    LeadsRead(cfg, t, w, Only(w, t), WantExclusive, Only(h, Locked()));
    LeadsServed(cfg, t, w, Only(h, Locked()), DeleteRow(Some(STUDENT_TBL), Some(0)), Only(d, Locked()));
    LeadsServed(cfg, t, w, Only(d, Locked()), CommitTxn, Only(d.(pc := Replaying), Locked()));
    LeadsQuietly(cfg, t, w, Only(d.(pc := Replaying), Locked()), Proceed, Only(e, Buried()));
    Restarting(cfg, t, w, e, Buried());
  }

  /** With row 0 gone, an UPDATE of row 1 begins to commit. */
  lemma Hanging(cfg: Config)
    requires cfg.maxRetries > 0 && cfg.maxCommits > 0 && cfg.stamp(1) == SourceStamp(1)
    ensures Leads(cfg, Buried(), Idle(), Only(
              Worker(SHRINKING, Holding(1, EXCLUSIVE), [UpdateItem(Row(1), StudentTuple(Someone(99), 0))], Replaying, true), Closed()))
  {
    hide Leads, Tables.ExclusiveScan, Tables.GrantExclusive, AddLock, InsertSlot;
    BuriedScans();
    FirstLock(Lock(Row(1), EXCLUSIVE));
    LeadsHere(cfg, Buried(), Idle());
    LeadsRead(cfg, Buried(), Idle(), Only(Idle(), Buried()), WantExclusive, Only(Idle().(locks := Holding(1, EXCLUSIVE)), Closed()));
    Committing(cfg, Buried(), Idle(), Closed());
  }

  // ---- The same row deleted twice ----

  /** Row 0 is taken and its deletion sent twice. */
  lemma AskingTwice(cfg: Config)
    requires cfg.maxRetries > 0 && cfg.maxCommits >= 2
    ensures Leads(cfg, Filled(), Idle(), Only(
              Worker(SHRINKING, Holding(0, EXCLUSIVE), [DeleteItem(Row(0)), DeleteItem(Row(0))], Replaying, true), Locked()))
  {
    hide Leads, Tables.ExclusiveScan, Tables.GrantExclusive, Tables.Remove, Tables.SeekRow, AddLock, InsertSlot, GetLock;
    var t, w, item := Filled(), Idle(), DeleteItem(Row(0));
    var h := w.(locks := Holding(0, EXCLUSIVE));
    var d := h.(phase := SHRINKING, queue := [item]);
    var dd := d.(queue := [item, item]);
    BuriedScans();
    FirstLock(Lock(Row(0), EXCLUSIVE));
    HoldingAnswers(0, EXCLUSIVE);
    assert [] + [item] == [item] && [item] + [item] == [item, item];
    LeadsHere(cfg, t, w);
    LeadsRead(cfg, t, w, Only(w, t), WantExclusive, Only(h, Locked()));
    LeadsServed(cfg, t, w, Only(h, Locked()), DeleteRow(Some(STUDENT_TBL), Some(0)), Only(d, Locked()));
    LeadsServed(cfg, t, w, Only(d, Locked()), DeleteRow(Some(STUDENT_TBL), Some(0)), Only(dd, Locked()));
    LeadsServed(cfg, t, w, Only(dd, Locked()), CommitTxn, Only(dd.(pc := Replaying), Locked()));
  }

  /** The first of the two deletions is replayed. */
  lemma DeletingTwice(cfg: Config)
    requires cfg.maxRetries > 0 && cfg.maxCommits >= 2
    ensures SeekLock(Holding(0, EXCLUSIVE), Row(0)).Some?
    ensures Leads(cfg, Filled(), Idle(), Only(
              Worker(SHRINKING, RmLock(Holding(0, EXCLUSIVE), Row(0)), [DeleteItem(Row(0))], Replaying, true), Buried()))
  {
    hide Leads, Tables.Remove, Tables.SeekRow, SeekLock;
    var item := DeleteItem(Row(0));
    var d := Worker(SHRINKING, Holding(0, EXCLUSIVE), [item, item], Replaying, true);
    HoldingAnswers(0, EXCLUSIVE);
    var e := d.(locks := RmLock(Holding(0, EXCLUSIVE), Row(0)), queue := [item]);
    BuriedScans();
    AskingTwice(cfg);
    assert [item, item][1..] == [item];
    LeadsQuietly(cfg, Filled(), Idle(), Only(d, Locked()), Proceed, Only(e, Buried()));
  }

  // ---- A table of three rows ----

  /** The table after its first `n` rows have been filled with these. */
  function Wide(n: nat): Tables.Table
    requires n <= 3
  {
    Tables.Table([if n > 0 then Occupied(0, 10, 0) else Bare(), if n > 1 then Occupied(1, 12, 0) else Bare(),
                  if n > 2 then Occupied(2, 11, 0) else Bare()], n, n, n, n)
  }

  lemma WideInserts(n: nat)
    requires n < 3
    ensures Tables.InsertSlot(Wide(n)) == Some(n)
    ensures Tables.Insert(Wide(n), Someone(if n == 0 then 10 else if n == 1 then 12 else 11)) == Wide(n + 1)
  {
    assert OA.Home(Tables.KeyHash, n, 3) == n;
    ProbeIs(Wide(n).rows, n, OA.Free<nat, Tables.Cell>, 0);
  }
}
