/**
 * Runs in which no two commits that insert are under way at once: then a commit takes
 * effect whole, its insertions included, at the moment it begins.
 */
module WholeCommits {
  import opened Basics
  import opened StudentTuples
  import opened LockLists
  import opened Workers
  import opened Protocol
  import opened Runs
  import opened Transactions
  import opened Commits
  import Tables = StudentTables

  /** The atomic store with a next key of its own. */
  datatype Whole = Whole(data: Data, next: nat)

  /** A commit applies its whole write set; no other step counts. */
  function WholeStep(d: Whole, w: Worker, a: Act): Whole {
    if BeginsCommit(w, a)
    then Whole(Replayed(d.data, d.next, w.queue), (d.next + |Added(w.queue)|) % Tables.KEY_SPACE)
    else d
  }

  function WholeRun(cfg: Config, d: Whole, s: State, ls: seq<Label>): Whole
    requires Exec(cfg, s, ls).Some?
    decreases |ls|
  {
    if ls == [] then d
    else WholeRun(cfg, WholeStep(d, s.workers[ls[0].worker], ls[0].act), Step(cfg, s, ls[0].worker, ls[0].act).value, ls[1..])
  }

  /** The records that the commits under way still have to add. */
  function ToAdd(ws: seq<Worker>): seq<Student> { Added(Pending(ws)) }

  /** The store as it will be once every commit under way has finished, with nobody else's insertions in between. */
  ghost function Completed(s: State): Whole {
    Whole(Numbered(Settled(s), s.table.nextKey, ToAdd(s.workers)), (s.table.nextKey + |ToAdd(s.workers)|) % Tables.KEY_SPACE)
  }

  /** At most one of the commits under way has anything left to add. */
  predicate OneInserter(ws: seq<Worker>) {
    forall v, w :: 0 <= v < |ws| && 0 <= w < |ws| && v != w ==> Added(Remaining(ws[v])) == [] || Added(Remaining(ws[w])) == []
  }

  lemma {:induction false} NothingToAdd(ws: seq<Worker>)
    requires forall w :: 0 <= w < |ws| ==> Added(Remaining(ws[w])) == []
    ensures ToAdd(ws) == []
  {
    hide Remaining;
    if ws != [] {
      NothingToAdd(ws[1..]);
      AddedConcat(Remaining(ws[0]), Pending(ws[1..]));
    }
  }

  lemma ToAddSplit(ws: seq<Worker>, i: nat)
    requires i < |ws|
    ensures ToAdd(ws) == ToAdd(ws[..i]) + Added(Remaining(ws[i])) + ToAdd(ws[i+1..])
  {
    hide Added, Pending, Remaining;
    PendingSplit(ws, i);
    AddedConcat(Pending(ws[..i]), Remaining(ws[i]));
    AddedConcat(Pending(ws[..i]) + Remaining(ws[i]), Pending(ws[i+1..]));
  }

  /** What is to be added is what the one inserter has left. */
  lemma SoleToAdd(ws: seq<Worker>, i: nat)
    requires i < |ws| && OneInserter(ws) && Added(Remaining(ws[i])) != []
    ensures ToAdd(ws) == Added(Remaining(ws[i])) && ToAdd(ws[..i]) == [] && ToAdd(ws[i+1..]) == []
  {
    hide Added, Pending, Remaining;
    ToAddSplit(ws, i);
    hide ToAdd;
    var before, after := ws[..i], ws[i+1..];
    forall w | 0 <= w < |before| ensures Added(Remaining(before[w])) == [] {}
    forall w | 0 <= w < |after| ensures Added(Remaining(after[w])) == [] { assert after[w] == ws[i + 1 + w]; }
    NothingToAdd(before);
    NothingToAdd(after);
  }

  /** How the list changes when worker `i` becomes `w`. */
  lemma ToAddUpdate(ws: seq<Worker>, i: nat, w: Worker)
    requires i < |ws|
    ensures ToAdd(ws[i := w]) == ToAdd(ws[..i]) + Added(Remaining(w)) + ToAdd(ws[i+1..])
  {
    hide ToAdd, Remaining;
    ToAddSplit(ws[i := w], i);
    assert ws[i := w][..i] == ws[..i] && ws[i := w][i+1..] == ws[i+1..];
  }

  // ---- Keys that have not been handed out ----

  /** With `m` keys handed out and room for `n` more, the next `n` keys are none of the first `m`. */
  lemma {:induction false} FreshAbove(m: nat, n: nat, keys: set<nat>)
    requires m + n <= Tables.KEY_SPACE && forall k :: k in keys ==> k < m
    ensures FreshKeys(m % Tables.KEY_SPACE, n, keys)
    decreases n
  {
    if n > 0 { FreshAbove(m + 1, n - 1, keys); }
  }

  /** Filing records under keys that a write set does not name commutes with it. */
  lemma {:induction false} FilingCommutes(d: Data, next: nat, students: seq<Student>, q: seq<Commit>)
    requires FreshKeys(next, |students|, KeysOf(q))
    ensures ApplyItems(Numbered(d, next, students), q) == Numbered(ApplyItems(d, q), next, students)
    decreases |students|
  {
    if students != [] {
      InsertCommutes(d, next, students[0], q);
      FilingCommutes(d[next := students[0]], (next + 1) % Tables.KEY_SPACE, students[1..], q);
    }
  }

  /** A commit comes to the same whether it is applied before or after what is still to be filed; only one side adds. */
  lemma CommitCompletes(d: Data, next: nat, a: seq<Student>, q: seq<Commit>)
    requires next < Tables.KEY_SPACE && (a == [] || Added(q) == []) && FreshKeys(next, |a| + |Added(q)|, KeysOf(q))
    ensures Replayed(Numbered(d, next, a), (next + |a|) % Tables.KEY_SPACE, q) == Numbered(ApplyItems(d, q), next, a + Added(q))
  {
    hide ApplyItems;
    if Added(q) == [] {
      ReplayedSplits(Numbered(d, next, a), (next + |a|) % Tables.KEY_SPACE, q);
      FilingCommutes(d, next, a, q);
      assert a + Added(q) == a;
    } else {
      ReplayedSplits(d, next, q);
      assert a + Added(q) == Added(q);
    }
  }

  // ---- One step ----

  /** The keys of what a worker commits are live, hence handed out already. */
  lemma CommittedKeysOld(cfg: Config, s: State, w: nat, m: nat, n: nat)
    requires Inv(cfg, s) && Orderly(s) && w < |s.workers| && s.workers[w].pc.Receiving?
    requires Within(s.table, m) && m + n <= Tables.KEY_SPACE
    ensures FreshKeys(s.table.nextKey, n, KeysOf(s.workers[w].queue))
  {
    hide Inv, Orderly, KeysOf, Tables.View;
    forall k | k in KeysOf(s.workers[w].queue) ensures k < m { QueueClaims(cfg, s, w, k); }
    FreshAbove(m, n, KeysOf(s.workers[w].queue));
  }

  /** How many records the step commits to add. */
  function Committed(w: Worker, a: Act): nat { if BeginsCommit(w, a) then |Added(w.queue)| else 0 }

  lemma BeginFacts(cfg: Config, s: State, w: nat)
    requires Enabled(cfg, s, w, Receive(CommitTxn)) && BeginsCommit(s.workers[w], Receive(CommitTxn))
    ensures var u, s' := s.workers[w], Step(cfg, s, w, Receive(CommitTxn)).value;
            && s'.workers == s.workers[w := u.(pc := Replaying)] && s'.table == s.table
            && Remaining(u) == [] && Remaining(s'.workers[w]) == u.queue && u.pc.Receiving?
  {
  }

  lemma BeginIsWhole(cfg: Config, s: State, w: nat, m: nat)
    requires Inv(cfg, s) && Orderly(s) && Enabled(cfg, s, w, Receive(CommitTxn)) && BeginsCommit(s.workers[w], Receive(CommitTxn))
    requires OneInserter(Step(cfg, s, w, Receive(CommitTxn)).value.workers) && Within(s.table, m)
    requires m + |ToAdd(s.workers)| + |Added(s.workers[w].queue)| <= Tables.KEY_SPACE
    ensures Completed(Step(cfg, s, w, Receive(CommitTxn)).value) == WholeStep(Completed(s), s.workers[w], Receive(CommitTxn))
    ensures |ToAdd(Step(cfg, s, w, Receive(CommitTxn)).value.workers)| == |ToAdd(s.workers)| + |Added(s.workers[w].queue)|
  {
    hide Inv, Orderly, Tame, Step, Settled, Replayed, Numbered, Pending, Remaining, FreshKeys, KeysOf, ToAdd, Within, OneInserter;
    var u, s' := s.workers[w], Step(cfg, s, w, Receive(CommitTxn)).value;
    var a, q := ToAdd(s.workers), u.queue;
    BeginFacts(cfg, s, w);
    CommitSettles(cfg, s, w);
    BeginToAdd(s.workers, w, s'.workers[w]);
    CommittedKeysOld(cfg, s, w, m, |a| + |Added(q)|);
    NextInRange(s.table, m);
    CommitCompletes(Settled(s), s.table.nextKey, a, q);
    ModSum(s.table.nextKey, |a|, |Added(q)|);
  }

  /** What a commit has to add joins what is still to be added, and only one of the two is anything. */
  lemma BeginToAdd(ws: seq<Worker>, i: nat, w: Worker)
    requires i < |ws| && Remaining(ws[i]) == [] && OneInserter(ws[i := w])
    ensures ToAdd(ws[i := w]) == ToAdd(ws) + Added(Remaining(w))
    ensures ToAdd(ws) == [] || Added(Remaining(w)) == []
  {
    assert Added([]) == [];
    hide OneInserter, ToAdd, Added, Remaining;
    ToAddSplit(ws, i);
    ToAddUpdate(ws, i, w);
    if Added(Remaining(w)) != [] {
      SoleToAdd(ws[i := w], i);
      SamePieces(ws, i, w);
    }
    Middle(ToAdd(ws[..i]), Added(Remaining(w)), ToAdd(ws[i+1..]));
  }

  lemma SamePieces(ws: seq<Worker>, i: nat, w: Worker)
    requires i < |ws|
    ensures ws[i := w][..i] == ws[..i] && ws[i := w][i+1..] == ws[i+1..]
  {
  }

  lemma Middle<T>(a: seq<T>, x: seq<T>, b: seq<T>)
    requires x == [] || (a == [] && b == [])
    ensures a + x + b == a + [] + b + x
  {
  }

  lemma NextInRange(t: Tables.Table, m: nat)
    requires Within(t, m)
    ensures t.nextKey < Tables.KEY_SPACE
  {
  }

  lemma ModSum(next: nat, a: nat, b: nat)
    ensures ((next + a) % Tables.KEY_SPACE + b) % Tables.KEY_SPACE == (next + (a + b)) % Tables.KEY_SPACE
  {
  }

  /** An insertion files the first of the records that its commit has left to add. */
  lemma InsertionIsQuiet(cfg: Config, s: State, w: nat)
    requires Inv(cfg, s) && Orderly(s) && Enabled(cfg, s, w, Proceed) && EventOf(s.table, s.workers[w], Proceed).Insertion?
    requires OneInserter(s.workers)
    ensures Completed(Step(cfg, s, w, Proceed).value) == Completed(s)
    ensures |ToAdd(Step(cfg, s, w, Proceed).value.workers)| + 1 == |ToAdd(s.workers)|
  {
    hide Inv, Orderly, Tame, Step, Settled, Added, Pending, Remaining, ToAdd, EventOf, OneInserter;
    var u, s' := s.workers[w], Step(cfg, s, w, Proceed).value;
    InsertionFacts(cfg, s, w);
    StepIsAtomic(cfg, s, w, Proceed);
    InsertionToAdd(s.workers, w, s'.workers[w], u.queue[0].student);
    FileOne(Settled(s), s.table.nextKey, u.queue[0].student, ToAdd(s'.workers));
    ModSum(s.table.nextKey, 1, |ToAdd(s'.workers)|);
  }

  lemma FileOne(d: Data, next: nat, student: Student, rest: seq<Student>)
    ensures Numbered(d, next, [student] + rest) == Numbered(d[next := student], (next + 1) % Tables.KEY_SPACE, rest)
  {
    assert ([student] + rest)[1..] == rest;
  }

  lemma InsertionToAdd(ws: seq<Worker>, i: nat, w: Worker, student: Student)
    requires i < |ws| && OneInserter(ws) && Added(Remaining(ws[i])) == [student] + Added(Remaining(w))
    ensures ToAdd(ws) == [student] + ToAdd(ws[i := w])
  {
    hide OneInserter, ToAdd, Added, Remaining;
    SoleToAdd(ws, i);
    ToAddUpdate(ws, i, w);
    assert [] + Added(Remaining(w)) + [] == Added(Remaining(w));
  }

  lemma InsertionFacts(cfg: Config, s: State, w: nat)
    requires Enabled(cfg, s, w, Proceed) && EventOf(s.table, s.workers[w], Proceed).Insertion?
    ensures var u, s' := s.workers[w], Step(cfg, s, w, Proceed).value;
            && u.queue != [] && u.queue[0].AddItem? && EventOf(s.table, u, Proceed) == Insertion(s.table.nextKey, u.queue[0].student)
            && s'.workers == s.workers[w := s'.workers[w]]
            && s'.table.nextKey == (s.table.nextKey + 1) % Tables.KEY_SPACE
            && Added(Remaining(u)) == [u.queue[0].student] + Added(Remaining(s'.workers[w]))
            && !BeginsCommit(u, Proceed)
  {
    hide Tame, StepLocal, EventOf;
    InsertionHead(s.table, s.workers[w]);
    ReplayPops(cfg, s, w);
    NextKeyMoves(cfg, s.table, s.workers[w], Proceed);
  }

  lemma InsertionHead(t: Tables.Table, w: Worker)
    requires Shaped(t, w) && EventOf(t, w, Proceed).Insertion?
    ensures w.pc.Replaying? && w.queue != [] && w.queue[0].AddItem? && w.queue[0].tbl == STUDENT_TBL
    ensures EventOf(t, w, Proceed) == Insertion(t.nextKey, w.queue[0].student)
  {
  }

  /** Any other step leaves both the settled records and what is to be added as they were. */
  lemma OtherIsQuiet(cfg: Config, s: State, w: nat, a: Act)
    requires Inv(cfg, s) && Orderly(s) && Enabled(cfg, s, w, a)
    requires !BeginsCommit(s.workers[w], a) && !EventOf(s.table, s.workers[w], a).Insertion?
    ensures Completed(Step(cfg, s, w, a).value) == Completed(s)
    ensures |ToAdd(Step(cfg, s, w, a).value.workers)| == |ToAdd(s.workers)|
  {
    hide Inv, Orderly, Tame, Step, Settled, Added, Pending, Remaining, ToAdd, EventOf, BeginsCommit;
    var s' := Step(cfg, s, w, a).value;
    OtherFacts(cfg, s, w, a);
    AddsRemain(cfg, s, w, a);
    StepIsAtomic(cfg, s, w, a);
    ToAddSplit(s.workers, w);
    ToAddUpdate(s.workers, w, s'.workers[w]);
  }

  lemma OtherFacts(cfg: Config, s: State, w: nat, a: Act)
    requires Enabled(cfg, s, w, a) && !EventOf(s.table, s.workers[w], a).Insertion?
    ensures var s' := Step(cfg, s, w, a).value;
            s'.workers == s.workers[w := s'.workers[w]] && s'.table.nextKey == s.table.nextKey
  {
    hide Tame, StepLocal, EventOf;
    NextKeyMoves(cfg, s.table, s.workers[w], a);
  }

  lemma AddsRemain(cfg: Config, s: State, w: nat, a: Act)
    requires Inv(cfg, s) && WellShaped(s) && w < |s.workers| && Step(cfg, s, w, a).Some?
    requires !BeginsCommit(s.workers[w], a) && !EventOf(s.table, s.workers[w], a).Insertion?
    ensures Added(Remaining(Step(cfg, s, w, a).value.workers[w])) == Added(Remaining(s.workers[w]))
  {
    var u := s.workers[w];
    if a.Proceed? && u.pc.Replaying? && u.queue != [] {
      ReplayPops(cfg, s, w);
      NoInsertionHead(s.table, u);
    } else {
      hide Inv, StepLocal;
      RemainsSame(cfg, s.table, u, a);
    }
  }

  lemma NoInsertionHead(t: Tables.Table, w: Worker)
    requires Shaped(t, w) && w.pc.Replaying? && w.queue != [] && !EventOf(t, w, Proceed).Insertion?
    ensures Added(w.queue) == Added(w.queue[1..])
  {
  }

  /**
   * While at most one commit has anything to add, every step of the interleaved system is
   * a step of the store that applies whole commits; keys are handed out only once.
   */
  lemma StepIsWhole(cfg: Config, s: State, w: nat, a: Act, m: nat)
    requires Inv(cfg, s) && Orderly(s) && Enabled(cfg, s, w, a)
    requires OneInserter(s.workers) && OneInserter(Step(cfg, s, w, a).value.workers)
    requires Within(s.table, m) && m + |ToAdd(s.workers)| + Committed(s.workers[w], a) <= Tables.KEY_SPACE
    ensures Completed(Step(cfg, s, w, a).value) == WholeStep(Completed(s), s.workers[w], a)
    ensures var e := EventOf(s.table, s.workers[w], a);
            && (e.Insertion? ==> m < Tables.KEY_SPACE)
            && m + Bit(e.Insertion?) + |ToAdd(Step(cfg, s, w, a).value.workers)| == m + |ToAdd(s.workers)| + Committed(s.workers[w], a)
  {
    hide Inv, Orderly, Tame, Step, Completed, ToAdd, OneInserter, Within, Added;
    if BeginsCommit(s.workers[w], a) {
      BeginIsWhole(cfg, s, w, m);
      assert !EventOf(s.table, s.workers[w], a).Insertion?;
    } else if EventOf(s.table, s.workers[w], a).Insertion? {
      assert a.Proceed?;
      InsertionIsQuiet(cfg, s, w);
    } else {
      OtherIsQuiet(cfg, s, w, a);
    }
  }

  // ---- Whole runs ----

  ghost predicate OneInserterRun(cfg: Config, s: State, ls: seq<Label>)
    requires Exec(cfg, s, ls).Some?
    decreases |ls|
  {
    OneInserter(s.workers) && (ls != [] ==> OneInserterRun(cfg, Step(cfg, s, ls[0].worker, ls[0].act).value, ls[1..]))
  }

  function AllCommitted(cfg: Config, s: State, ls: seq<Label>): nat
    requires Exec(cfg, s, ls).Some?
    decreases |ls|
  {
    if ls == [] then 0
    else Committed(s.workers[ls[0].worker], ls[0].act) + AllCommitted(cfg, Step(cfg, s, ls[0].worker, ls[0].act).value, ls[1..])
  }

  lemma {:induction false} RunIsWhole(cfg: Config, s: State, ls: seq<Label>, m: nat)
    requires Inv(cfg, s) && Orderly(s) && TameRun(cfg, s, ls) && Exec(cfg, s, ls).Some? && CourteousRun(cfg, s, ls)
    requires OneInserterRun(cfg, s, ls) && Within(s.table, m)
    requires m + |ToAdd(s.workers)| + AllCommitted(cfg, s, ls) <= Tables.KEY_SPACE
    ensures Completed(Exec(cfg, s, ls).value) == WholeRun(cfg, Completed(s), s, ls)
    decreases |ls|
  {
    hide Inv, Orderly, Step, Completed, WholeStep, Courteous, Tame, ToAdd, OneInserter, Within, Committed, EventOf;
    if ls != [] {
      var w, a := ls[0].worker, ls[0].act;
      assert OneInserter(Step(cfg, s, w, a).value.workers);
      StepIsWhole(cfg, s, w, a, m);
      StepKeepsOrderly(cfg, s, w, a);
      StepKeepsInv(cfg, s, w, a);
      WithinStep(cfg, s, w, a, m);
      RunIsWhole(cfg, Step(cfg, s, w, a).value, ls[1..], m + Bit(EventOf(s.table, s.workers[w], a).Insertion?));
    }
  }

  /**
   * Full serialisability: if no two commits that insert are ever under way at once and at
   * most 256 records are committed in all, then whenever no commit is under way the store
   * is that of the commits applied whole, insertions included, in the order they began.
   */
  lemma CommitsAreWhole(cfg: Config, s: State, ls: seq<Label>)
    requires Initial(s) && TameRun(cfg, s, ls) && Exec(cfg, s, ls).Some? && CourteousRun(cfg, s, ls)
    requires OneInserterRun(cfg, s, ls) && AllCommitted(cfg, s, ls) <= Tables.KEY_SPACE
    requires forall w :: 0 <= w < |Exec(cfg, s, ls).value.workers| ==> !Exec(cfg, s, ls).value.workers[w].pc.Replaying?
    ensures Store(Exec(cfg, s, ls).value) == WholeRun(cfg, Whole(map[], 0), s, ls).data
  {
    InitialCompleted(cfg, s);
    hide Inv, Step, Orderly, Initial, OrderlyWorker, Fresh, WholeRun, TameRun, CourteousRun, OneInserterRun, AllCommitted, Exec, Store, Within;
    RunIsWhole(cfg, s, ls, 0);
    NothingPending(Exec(cfg, s, ls).value.workers);
  }

  lemma InitialCompleted(cfg: Config, s: State)
    requires Initial(s)
    ensures Inv(cfg, s) && Orderly(s) && Within(s.table, 0) && ToAdd(s.workers) == [] && Completed(s) == Whole(map[], 0)
  {
    hide Inv;
    InitialInv(cfg, s);
    InitialSettled(cfg, s);
    NothingPending(s.workers);
  }
}
