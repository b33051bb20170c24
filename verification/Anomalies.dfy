/** Concrete runs of the system as the source decodes, from an empty table of two rows to the states in which it goes wrong. */
module Anomalies {
  import opened Basics
  import opened Probing
  import opened StudentTuples
  import opened LockLists
  import opened Workers
  import opened Protocol
  import opened Runs
  import opened Transactions
  import opened Commits
  import opened Progress
  import opened InTurn
  import opened Scenarios
  import OA = OpenAddressing
  import Tables = StudentTables

  /** Row 0 shared by worker 0, row 1 held by worker 1, which is about to replay an UPDATE of row 1. */
  function Two(): State {
    State(Tables.Table([Occupied(0, 10, 1), Occupied(1, 11, -1)], 1, 0, 2, 2),
          [Worker(GROWING, Holding(0, SHARED), [], LoopHead, true),
           Worker(SHRINKING, Holding(1, EXCLUSIVE), [UpdateItem(Row(1), StudentTuple(Someone(99), 0))], Replaying, true)],
          multiset{})
  }

  function TwoView(): View { map[0 := Tables.Entry(0, Someone(10), 1), 1 := Tables.Entry(1, Someone(11), -1)] }

  lemma TwoCounts()
    ensures var rows := Two().table.rows;
            Count(rows, OA.Live<nat, Tables.Cell>) == 2 && Count(rows, Tables.Shareable) == 1 && Count(rows, Tables.Unlocked) == 0
  {
    var rows := Two().table.rows;
    assert rows[..1] == [Occupied(0, 10, 1)] && rows[..1][..0] == [];
    assert Count(rows[..1], OA.Live<nat, Tables.Cell>) == 1;
    assert Count(rows[..1], Tables.Shareable) == 1;
    assert Count(rows[..1], Tables.Unlocked) == 0;
  }

  lemma TwoRows()
    ensures TableOk(Two().table) && Tables.View(Two().table.rows) == TwoView()
  {
    hide Tables.View;
    var rows := Two().table.rows;
    TwoCounts();
    forall i | 0 <= i < 2 ensures OA.ChainTo(rows, Tables.KeyHash, rows[i].key, i) {
      assert OA.Home(Tables.KeyHash, i, 2) == i;
    }
    Tables.ViewIs(rows, TwoView());
  }

  lemma HoldingOk(k: nat, mode: LockType)
    ensures ListOk(Holding(k, mode)) && NoStale(Holding(k, mode)) && Held(Holding(k, mode)) == multiset{Lock(Row(k), mode)}
  {
    var slots := Holding(k, mode).slots;
    assert slots[..0] == [];
    assert Count(slots, OA.Live<UniqueKey, LockType>) == 1;
    assert HeldFrom(slots, 1) == multiset{};
    assert OA.ChainTo(slots, TableHash, Row(k), 0);
  }

  lemma TwoClaims()
    ensures Claims(Two().workers[0]) == multiset{Lock(Row(0), SHARED)}
    ensures Total(Two()) == multiset{Lock(Row(1), EXCLUSIVE), Lock(Row(0), SHARED)}
  {
    hide ListOk, NoStale, HeldFrom;
    var s := Two();
    HoldingOk(0, SHARED);
    HoldingOk(1, EXCLUSIVE);
    assert s.workers[..1] == [s.workers[0]] && s.workers[..1][..0] == [];
    assert AllClaims(s.workers[..1]) == multiset{Lock(Row(0), SHARED)};
  }

  lemma TwoWorkersOk(cfg: Config)
    requires cfg.maxCommits > 0 && cfg.stamp(1) == SourceStamp(1)
    ensures forall w :: 0 <= w < 2 ==> WorkerOk(cfg, TwoView(), Two().workers[w])
  {
    hide ListOk, NoStale, HeldFrom;
    HoldingOk(0, SHARED);
    HoldingOk(1, EXCLUSIVE);
  }

  lemma TwoInv(cfg: Config)
    requires cfg.maxCommits > 0 && cfg.stamp(1) == SourceStamp(1)
    ensures Inv(cfg, Two()) && |Two().workers| == 2
    ensures Claims(Two().workers[0]) == multiset{Lock(Row(0), SHARED)}
  {
    hide WorkerOk, TableOk, Tables.View, Total, Claims;
    TwoRows();
    TwoClaims();
    TwoWorkersOk(cfg);
    forall k ensures BalancedAt(TwoView(), Total(Two()), k) {}
  }

  /** The replay's probe for key 0 ends at slot 0. */
  lemma SeekZero()
    ensures Tables.SeekRow(Two().table, 0) == Some(0)
  {
    assert OA.Home(Tables.KeyHash, 0, 2) == 0;
    ProbeIs(Two().table.rows, 0, OA.Named(0), 0);
  }

  lemma TwoReplays(cfg: Config)
    ensures |Two().workers| == 2 && Enabled(cfg, Two(), 1, Proceed)
    ensures EventOf(Two().table, Two().workers[1], Proceed) == Writing(StudentTuple(Someone(99), 0))
  {
    SeekZero();
    hide Tables.SeekRow, Tables.Write;
    assert ReplayItem(Two().table, Two().workers[1], Two().workers[1].queue[0]).Some?;
    assert ReplayTurn(Two().table, Two().workers[1]).Some?;
  }

  lemma TwoStore()
    ensures Store(Two()) == map[0 := Someone(10), 1 := Someone(11)]
    ensures Apply(Store(Two()), Writing(StudentTuple(Someone(99), 0))) == map[0 := Someone(99), 1 := Someone(11)]
  {
    hide TableOk, Tables.View;
    TwoRows();
  }

  // ---- The runs ----

  function Both(t: Tables.Table, u: Worker, v: Worker): State { State(t, [u, v], multiset{}) }

  function Reader(): Worker { Idle().(locks := Holding(0, SHARED)) }

  function Updater(): Worker {
    Worker(SHRINKING, Holding(1, EXCLUSIVE), [UpdateItem(Row(1), StudentTuple(Someone(99), 0))], Replaying, true)
  }

  lemma PutBoth(t: Tables.Table, u: Worker, v: Worker, w: nat, r: Local)
    requires w < 2 && r.leaked == multiset{}
    ensures Put(Both(t, u, v), w, r) == if w == 0 then Both(r.table, r.worker, v) else Both(r.table, u, r.worker)
  {
    assert [u, v][0 := r.worker] == [r.worker, v] && [u, v][1 := r.worker] == [u, r.worker];
    assert multiset{} + r.leaked == multiset{};
  }

  /** One worker moves, the other stands still. */
  lemma BothOnward(cfg: Config, s: State, ls: seq<Label>, t: Tables.Table, u: Worker, v: Worker, w: nat, r: Local) returns (ls': seq<Label>)
    requires Exec(cfg, s, ls) == Some(Both(t, u, v)) && WellShaped(Both(t, u, v)) && w < 2 && r.leaked == multiset{}
    requires Leads(cfg, t, if w == 0 then u else v, r)
    ensures Exec(cfg, s, ls') == Some(if w == 0 then Both(r.table, r.worker, v) else Both(r.table, u, r.worker))
  {
    hide Leads, Exec;
    PutBoth(t, u, v, w, r);
    ls' := Onward(cfg, s, ls, Both(t, u, v), w, r);
  }

  /** Two records are added. */
  lemma RunToFilled(cfg: Config) returns (ls: seq<Label>)
    requires cfg.maxCommits >= 2
    ensures Exec(cfg, Outset(), ls) == Some(Both(Filled(), Idle(), Idle()))
  {
    hide Leads;
    Filling(cfg);
    ls := BothOnward(cfg, Outset(), [], Empty(), Idle(), Idle(), 1, Only(Idle(), Filled()));
  }

  /** Then row 0 is read by the other worker. */
  lemma RunToReader(cfg: Config) returns (ls: seq<Label>)
    requires cfg.maxCommits >= 2 && cfg.maxRetries > 0
    ensures Exec(cfg, Outset(), ls) == Some(Both(Shared(1), Reader(), Idle()))
  {
    hide Leads, Exec;
    Reading(cfg);
    ls := RunToFilled(cfg);
    ls := BothOnward(cfg, Outset(), ls, Filled(), Idle(), Idle(), 0, Only(Reader(), Shared(1)));
  }

  /**
   * Stable reads fail for the source's own decoding: from an empty table a run leads to
   * a state in which worker 1 replays its UPDATE of row 1, and the record that changes is
   * row 0's, which worker 0 has read and still holds SHARED.
   */
  lemma UpdateOfAnotherRow(cfg: Config) returns (ls: seq<Label>)
    requires cfg.maxCommits >= 2 && cfg.maxRetries > 0 && cfg.stamp(1) == SourceStamp(1)
    ensures Initial(Outset()) && Exec(cfg, Outset(), ls) == Some(Two()) && Inv(cfg, Two())
    ensures |Two().workers| == 2 && Enabled(cfg, Two(), 1, Proceed)
    ensures Lock(Row(0), SHARED) in Claims(Two().workers[0])
    ensures Store(Two()) == map[0 := Someone(10), 1 := Someone(11)]
    ensures Store(Step(cfg, Two(), 1, Proceed).value) == map[0 := Someone(99), 1 := Someone(11)]
  {
    hide Inv, Claims, Store, Apply, EventOf, Enabled, Step, Tame, Leads, Exec, Initial;
    StartIsInitial();
    TwoInv(cfg);
    TwoReplays(cfg);
    TwoStore();
    StepMoves(cfg, Two(), 1, Proceed);
    ls := RunToReader(cfg);
    Updating(cfg);
    ls := BothOnward(cfg, Outset(), ls, Shared(1), Reader(), Idle(), 1, Only(Updater(), Contended()));
    assert Two() == Both(Contended(), Reader(), Updater());
  }

  /**
   * The source's decoding can also hang the commit loop: once row 0 has been deleted, the
   * replay of an UPDATE of row 1, held EXCLUSIVE and queued in good order, probes for key
   * 0 without end, although the table has room.
   */
  lemma UpdateWithoutEnd(cfg: Config) returns (ls: seq<Label>, s: State)
    requires cfg.maxCommits >= 2 && cfg.maxRetries > 0 && cfg.stamp(1) == SourceStamp(1)
    ensures Initial(Outset()) && Exec(cfg, Outset(), ls) == Some(s) && WellShaped(s) && |s.workers| == 2
    ensures s.workers[1].pc.Replaying? && s.workers[1].queue != [] && s.workers[1].queue[0].UpdateItem? && s.table.size < |s.table.rows|
    ensures WellFormed(s.workers[1].queue) && WriteSetHeld(s.workers[1].queue, s.workers[1].locks)
    ensures Blocked(s.table, s.workers[1]) && !CanMove(cfg, s.table, s.workers[1])
  {
    hide Leads, Exec, Initial;
    StartIsInitial();
    Burying(cfg);
    Hanging(cfg);
    ls := RunToFilled(cfg);
    ls := BothOnward(cfg, Outset(), ls, Filled(), Idle(), Idle(), 1, Only(Idle(), Buried()));
    ls := BothOnward(cfg, Outset(), ls, Buried(), Idle(), Idle(), 1, Only(Updater(), Closed()));
    s := Both(Closed(), Idle(), Updater());
    UpdateEnds(Closed(), Updater());
    HoldingOk(1, EXCLUSIVE);
  }

  /** A second read finds the reader's list full: row 0 is locked twice and the list shows it once. */
  lemma LeakingRead(cfg: Config) returns (ls: seq<Label>, s: State)
    requires cfg.maxCommits >= 2 && cfg.maxRetries > 0
    ensures Initial(Outset()) && Exec(cfg, Outset(), ls) == Some(s)
    ensures s.leaks == multiset{Lock(Row(0), SHARED)}
    ensures s.workers == [Reader(), Idle()] && s.table == Shared(2)
  {
    hide Leads, Exec, Initial;
    StartIsInitial();
    Overfilling(cfg);
    ls := RunToReader(cfg);
    s := Put(Both(Shared(1), Reader(), Idle()), 0, Local(Reader(), Shared(2), multiset{Lock(Row(0), SHARED)}));
    ls := Onward(cfg, Outset(), ls, Both(Shared(1), Reader(), Idle()), 0, Local(Reader(), Shared(2), multiset{Lock(Row(0), SHARED)}));
  }

  function Orphan(): Worker
    requires SeekLock(Holding(0, EXCLUSIVE), Row(0)).Some?
  {
    Worker(SHRINKING, RmLock(Holding(0, EXCLUSIVE), Row(0)), [DeleteItem(Row(0))], Replaying, true)
  }

  lemma OrphanStuck(cfg: Config)
    ensures SeekLock(Holding(0, EXCLUSIVE), Row(0)).Some? && |Orphan().locks.slots| == 1
    ensures Blocked(Buried(), Orphan()) && !CanMove(cfg, Buried(), Orphan())
  {
    HoldingAnswers(0, EXCLUSIVE);
    var slots := Orphan().locks.slots;
    assert slots == [OA.Slot(Row(0), EXCLUSIVE, true, true)];
    HeldNothing(slots, 0);
    ProbeNone(slots, OA.Home(TableHash, Row(0), 1), OA.Named<UniqueKey, LockType>(Row(0)));
    assert SeekLock(Orphan().locks, Row(0)).None?;
    hide SeekLock, RmLock, HeldFrom;
    assert ReplayTurn(Buried(), Orphan()).None?;
  }

  /** The second of two deletions of one row is never replayed: the list no longer holds the row, and its probe has no end. */
  lemma DeleteWithoutEnd(cfg: Config) returns (ls: seq<Label>, s: State)
    requires cfg.maxCommits >= 2 && cfg.maxRetries > 0
    ensures Initial(Outset()) && Exec(cfg, Outset(), ls) == Some(s) && WellShaped(s) && |s.workers| == 2
    ensures s.workers[1].pc.Replaying? && s.workers[1].queue == [DeleteItem(Row(0))]
    ensures Blocked(s.table, s.workers[1]) && !CanMove(cfg, s.table, s.workers[1])
  {
    hide Leads, Exec, Initial, SeekLock, RmLock, Blocked, CanMove;
    StartIsInitial();
    OrphanStuck(cfg);
    DeletingTwice(cfg);
    ls := RunToFilled(cfg);
    ls := BothOnward(cfg, Outset(), ls, Filled(), Idle(), Idle(), 1, Only(Orphan(), Buried()));
    s := Both(Buried(), Idle(), Orphan());
  }

  // ---- Two commits that insert at the same time ----

  function WideOutset(): State { Both(Wide(0), Idle(), Idle()) }

  lemma WideIsInitial()
    ensures Initial(WideOutset())
  {
    hide Fresh;
    StartIsInitial();
    assert Outset().workers[0] == Idle() && Idle() == Fresh(Idle());
  }

  function WideView(): View { map[0 := Tables.Entry(0, Someone(10), 0), 1 := Tables.Entry(1, Someone(12), 0), 2 := Tables.Entry(2, Someone(11), 0)] }

  lemma WideRepresents()
    ensures Tables.View(Wide(3).rows) == WideView()
  {
    hide Tables.View;
    var rows, v := Wide(3).rows, WideView();
    assert rows == [Occupied(0, 10, 0), Occupied(1, 12, 0), Occupied(2, 11, 0)];
    forall k | k in v ensures v[k].slot < 3 && OA.Live(rows[v[k].slot]) && rows[v[k].slot].key == k
                              && rows[v[k].slot].value == Tables.Cell(v[k].student, v[k].lock) {
      assert k == 0 || k == 1 || k == 2;
    }
    Tables.ViewIs(rows, v);
  }

  lemma WideStore()
    ensures DataOf(WideView()) == map[0 := Someone(10), 1 := Someone(12), 2 := Someone(11)]
  {
  }

  /** What the two write sets would come to, one whole and then the other. */
  lemma SerialInsertions(x: Student, y: Student, z: Student)
    ensures Replayed(map[], 0, Adds([x, y]) + Adds([z])) == map[0 := x, 1 := y, 2 := z]
    ensures Replayed(map[], 0, Adds([z]) + Adds([x, y])) == map[0 := z, 1 := x, 2 := y]
  {
    ThreeInsertions(x, y, z);
    ThreeInsertions(z, x, y);
    assert Adds([x, y]) + Adds([z]) == Adds([x, y, z]) && Adds([z]) + Adds([x, y]) == Adds([z, x, y]);
  }

  lemma ThreeInsertions(x: Student, y: Student, z: Student)
    ensures Replayed(map[], 0, Adds([x, y, z])) == map[0 := x, 1 := y, 2 := z]
  {
    var d: Data := map[];
    assert Adds([x, y, z])[1..] == Adds([y, z]) && Adds([y, z])[1..] == Adds([z]) && Adds([z])[1..] == [];
    assert Replayed(d[0 := x][1 := y], 2, Adds([z])) == Replayed(d[0 := x][1 := y][2 := z], 3, []);
    assert Replayed(d[0 := x], 1, Adds([y, z])) == Replayed(d[0 := x][1 := y], 2, Adds([z]));
    assert Replayed(d, 0, Adds([x, y, z])) == Replayed(d[0 := x], 1, Adds([y, z]));
  }

  /** Records 10 and 11 are worker 0's, record 12 is worker 1's. */
  lemma WideRun(cfg: Config) returns (ls: seq<Label>)
    requires cfg.maxCommits >= 2
    ensures Exec(cfg, WideOutset(), ls) == Some(Both(Wide(3), Committer([]), Committer([])))
  {
    var x, y, z := Someone(10), Someone(11), Someone(12);
    assert Exec(cfg, WideOutset(), []) == Some(WideOutset());
    hide Leads, Tables.Insert, Tables.InsertSlot, Exec, Wide, Committer, Adds;
    assert [x, y][1..] == [y] && [y][1..] == [] && [z][1..] == [];
    Queued(cfg, Wide(0), [x, y]);
    Queued(cfg, Wide(0), [z]);
    InsertsNext(cfg, [x, y], 0);
    InsertsNext(cfg, [z], 1);
    InsertsNext(cfg, [y], 2);
    ls := WideOnward(cfg, [], 0, Idle(), Idle(), 0, Committer([x, y]), 0);
    ls := WideOnward(cfg, ls, 0, Committer([x, y]), Idle(), 1, Committer([z]), 0);
    ls := WideOnward(cfg, ls, 0, Committer([x, y]), Committer([z]), 0, Committer([y]), 1);
    ls := WideOnward(cfg, ls, 1, Committer([y]), Committer([z]), 1, Committer([]), 2);
    ls := WideOnward(cfg, ls, 2, Committer([y]), Committer([]), 0, Committer([]), 3);
  }

  lemma WideOnward(cfg: Config, ls: seq<Label>, n: nat, u: Worker, v: Worker, w: nat, next: Worker, m: nat) returns (ls': seq<Label>)
    requires n <= 3 && m <= 3 && w < 2 && Exec(cfg, WideOutset(), ls) == Some(Both(Wide(n), u, v))
    requires |u.locks.slots| == 1 == |v.locks.slots| && Leads(cfg, Wide(n), if w == 0 then u else v, Only(next, Wide(m)))
    ensures Exec(cfg, WideOutset(), ls') == Some(if w == 0 then Both(Wide(m), next, v) else Both(Wide(m), u, next))
  {
    hide Leads, Exec;
    ls' := BothOnward(cfg, WideOutset(), ls, Wide(n), u, v, w, Only(next, Wide(m)));
  }

  /**
   * From an empty table one worker commits two insertions and another one, turn by turn;
   * both finish, and the records are those of neither commit after the other.
   */
  lemma InsertionsNotSerial(cfg: Config) returns (ls: seq<Label>, s: State)
    requires cfg.maxCommits >= 2
    ensures Initial(WideOutset()) && Exec(cfg, WideOutset(), ls) == Some(s) && s.workers == [Committer([]), Committer([])]
    ensures Store(s) == map[0 := Someone(10), 1 := Someone(12), 2 := Someone(11)]
    ensures Store(s) != Replayed(map[], 0, Adds([Someone(10), Someone(11)]) + Adds([Someone(12)]))
    ensures Store(s) != Replayed(map[], 0, Adds([Someone(12)]) + Adds([Someone(10), Someone(11)]))
  {
    WideIsInitial();
    hide Initial, Tables.View, Replayed, Exec, DataOf, Committer;
    ls := WideRun(cfg);
    s := Both(Wide(3), Committer([]), Committer([]));
    WideRepresents();
    WideStore();
    SerialInsertions(Someone(10), Someone(11), Someone(12));
    assert Store(s)[1] == Someone(12);
  }

  lemma InsertsNext(cfg: Config, students: seq<Student>, n: nat)
    requires n < 3 && students != [] && students[0] == Someone(if n == 0 then 10 else if n == 1 then 12 else 11)
    ensures Leads(cfg, Wide(n), Committer(students), Only(Committer(students[1..]), Wide(n + 1)))
  {
    hide Leads, Tables.Insert, Tables.InsertSlot;
    WideInserts(n);
    LeadsHere(cfg, Wide(n), Committer(students));
    Inserting(cfg, Wide(n), Committer(students), students, Wide(n), Wide(n + 1));
  }
}
