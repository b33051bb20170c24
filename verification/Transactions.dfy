/** What the lock discipline buys: two-phase locking, stable reads, aborts without trace, atomic commits. */
module Transactions {
  import opened Basics
  import opened StudentTuples
  import opened LockLists
  import opened Workers
  import opened Protocol
  import opened Runs
  import OA = OpenAddressing
  import Tables = StudentTables

  // ---- Two phases ----

  predicate PhaseFollows(p: Phase, q: Phase) {
    q == p || (p == GROWING && (q == SHRINKING || q == ABORTED))
  }

  /** What every step keeps of the two-phase discipline. */
  predicate Disciplined(t: Tables.Table, w: Worker, a: Act, w': Worker)
    requires Shaped(t, w)
  {
    && PhaseFollows(w.phase, w'.phase)
    && (w'.phase == GROWING ==> w'.queue == [])
    && (w.phase != GROWING ==> Gain(EventOf(t, w, a)) == multiset{} && !(a.Receive? && EventOf(t, w, a).Return?))
    && (w.phase != GROWING && !w.pc.Replaying? && !w.pc.Releasing? ==> w'.locks == w.locks)
  }

  lemma ServeTwoPhase(cfg: Config, t: Tables.Table, w: Worker, req: Request)
    requires Shaped(t, w) && w.pc.Receiving? && (w.phase == GROWING ==> w.queue == []) && Serve(cfg, t, w, req).Some?
    ensures Disciplined(t, w, Receive(req), Serve(cfg, t, w, req).value.worker)
  {
    hide GetLock, SeekLock, RmLock, Tables.Release, Tables.SeekRow;
  }

  lemma ProceedTwoPhase(cfg: Config, v: View, t: Tables.Table, w: Worker)
    requires Shaped(t, w) && PcOk(v, w) && (w.phase == GROWING ==> w.queue == [])
    requires StepLocal(cfg, t, w, Proceed).Some?
    ensures Disciplined(t, w, Proceed, StepLocal(cfg, t, w, Proceed).value.worker)
  {
    hide Promotable, GetLock, SearchLock, SeekLock, RmLock, AddLock, InsertSlot, PromoteLock, NextLive, Tables.Release, Tables.SeekRow,
         Tables.Insert, Tables.InsertSlot, Tables.Write, Tables.Remove, Tables.SharedScan, Tables.ExclusiveScan,
         Tables.GrantShared, Tables.GrantExclusive, Tables.PromoteAt;
  }

  /**
   * Phases only move forward, COMMITTED is never entered, a growing worker has nothing
   * queued, and outside the growing phase a worker neither gains a lock nor yields one.
   */
  lemma TwoPhase(cfg: Config, t: Tables.Table, w: Worker, c: multiset<Lock>, a: Act)
    requires Ready(cfg, t, w, c) && Shaped(t, w) && StepLocal(cfg, t, w, a).Some? && !a.Start?
    ensures Disciplined(t, w, a, StepLocal(cfg, t, w, a).value.worker)
  {
    hide ListOk, NoStale, Tables.View, Balanced, TableOk, PcOk, Serve, CallShared, CallExclusive, Park, Unpark, ReplayTurn, ReleaseTurn, WriteSetHeld, HeldFrom, Claims;
    ReadyFacts(cfg, t, w, c);
    match a {
      case Receive(req) => ServeTwoPhase(cfg, t, w, req);
      case Proceed => ProceedTwoPhase(cfg, Tables.View(t.rows), t, w);
      case _ =>
    }
  }

  // ---- The key-to-record map ----

  type Data = map<nat, Student>

  ghost function DataOf(v: View): Data { map k | k in v :: v[k].student }

  ghost function Store(s: State): Data { DataOf(Tables.View(s.table.rows)) }

  function Apply(d: Data, e: Event): Data {
    match e
    case Insertion(k, student) => d[k := student]
    case Removal(k) => d - {k}
    case Writing(tuple) => if tuple.key in d then d[tuple.key := tuple.student] else d
    case _ => d
  }

  predicate TouchesData(e: Event) { e.Insertion? || e.Removal? || e.Writing? }

  lemma DataMoves(v: View, e: Event, v': View)
    requires Moves(v, e, v')
    ensures DataOf(v') == Apply(DataOf(v), e)
  {
  }

  ghost predicate Enabled(cfg: Config, s: State, w: nat, a: Act) {
    && WellShaped(s) && w < |s.workers| && Tame(s.table, s.workers[w], a) && Step(cfg, s, w, a).Some?
  }

  /** A step changes the records exactly as its event says. */
  lemma StepMoves(cfg: Config, s: State, w: nat, a: Act)
    requires Inv(cfg, s) && Enabled(cfg, s, w, a)
    ensures Moves(Tables.View(s.table.rows), EventOf(s.table, s.workers[w], a), Tables.View(Step(cfg, s, w, a).value.table.rows))
    ensures Loss(EventOf(s.table, s.workers[w], a)) <= Claims(s.workers[w])
    ensures Store(Step(cfg, s, w, a).value) == Apply(Store(s), EventOf(s.table, s.workers[w], a))
    ensures Inv(cfg, Step(cfg, s, w, a).value)
  {
    hide TableOk, WorkerOk, Balanced, Moves, Claims, StepLocal, Tables.View, EventOf, Inv, DataOf, Apply;
    InvReady(cfg, s, w);
    LocalAccounted(cfg, s.table, s.workers[w], Total(s), a);
    DataMoves(Tables.View(s.table.rows), EventOf(s.table, s.workers[w], a), Tables.View(Step(cfg, s, w, a).value.table.rows));
    StepKeepsInv(cfg, s, w, a);
  }

  // ---- Stable reads ----

  /**
   * While worker `w` claims row k, no step of another worker removes the row, and none
   * changes its record except the replay of an UPDATE whose buffered tuple names k.
   */
  lemma StableReads(cfg: Config, s: State, w: nat, lock: Lock, v: nat, a: Act)
    requires Inv(cfg, s) && Enabled(cfg, s, v, a)
    requires w < |s.workers| && w != v && lock in Claims(s.workers[w]) && lock.key.tbl == STUDENT_TBL
    ensures var e := EventOf(s.table, s.workers[v], a);
            var d, d' := Store(s), Store(Step(cfg, s, v, a).value);
            && lock.key.key in d && lock.key.key in d'
            && d'[lock.key.key] == if e.Writing? && e.tuple.key == lock.key.key then e.tuple.student else d[lock.key.key]
  {
    hide TableOk, WorkerOk, Balanced, Claims, Step, Tables.View, EventOf, Inv;
    var k, e := lock.key.key, EventOf(s.table, s.workers[v], a);
    StepMoves(cfg, s, v, a);
    WorkerClaimsRow(cfg, s, w, lock);
    if e.Removal? && e.key == k {
      BothClaim(cfg, s, w, lock, v, Lock(Row(k), EXCLUSIVE));
    }
  }

  /** Two workers never claim the same row unless both share it. */
  lemma BothClaim(cfg: Config, s: State, w: nat, x: Lock, v: nat, y: Lock)
    requires Inv(cfg, s) && w < |s.workers| && v < |s.workers| && w != v
    requires x in Claims(s.workers[w]) && y in Claims(s.workers[v]) && x.key == y.key && x.key.tbl == STUDENT_TBL
    ensures x.mode == SHARED && y.mode == SHARED
  {
    hide TableOk, WorkerOk, Claims, Tables.View, AllClaims;
    var a, b := Claims(s.workers[w]), Claims(s.workers[v]);
    if w < v { TwoClaimsCounted(s.workers, w, v); } else { TwoClaimsCounted(s.workers, v, w); }
    assert x.key == Row(x.key.key) && (x.mode == SHARED || x.mode == EXCLUSIVE) && (y.mode == SHARED || y.mode == EXCLUSIVE);
    assert x == Lock(Row(x.key.key), SHARED) || x == Lock(Row(x.key.key), EXCLUSIVE);
    assert y == Lock(Row(x.key.key), SHARED) || y == Lock(Row(x.key.key), EXCLUSIVE);
    assert BalancedAt(Tables.View(s.table.rows), Total(s), x.key.key);
    var all := AllClaims(s.workers);
    assert a[x] + b[x] <= all[x] && a[y] + b[y] <= all[y] by {
      assert (a + b)[x] <= all[x] || (b + a)[x] <= all[x];
      assert (a + b)[y] <= all[y] || (b + a)[y] <= all[y];
    }
    assert Total(s)[x] >= all[x] && Total(s)[y] >= all[y];
  }

  // ---- Which row an UPDATE reaches ----

  /**
   * The replay of an UPDATE of row k writes the row that the decoded tuple's key names;
   * it reaches row k exactly when decoding stamps the tuple with k.
   */
  lemma UpdateReaches(cfg: Config, s: State, w: nat)
    requires Inv(cfg, s) && Enabled(cfg, s, w, Proceed)
    requires s.workers[w].pc.Replaying? && s.workers[w].queue != [] && s.workers[w].queue[0].UpdateItem?
    ensures var item := s.workers[w].queue[0];
            var k, n := item.key.key, cfg.stamp(item.key.key);
            var d, d' := Store(s), Store(Step(cfg, s, w, Proceed).value);
            && d' == (if n in d then d[n := item.tuple.student] else d)
            && (k in d && d[k] != item.tuple.student ==> (d'[k] == item.tuple.student <==> n == k))
  {
    hide TableOk, ListOk, NoStale, Balanced, Moves, Step, Tables.View, PcOk, Inv, DataOf;
    StepMoves(cfg, s, w, Proceed);
    HeadStamped(cfg, s, w);
  }

  lemma HeadStamped(cfg: Config, s: State, w: nat)
    requires Inv(cfg, s) && w < |s.workers|
    ensures forall i :: 0 <= i < |s.workers[w].queue| && !s.workers[w].queue[i].AddItem? ==>
              s.workers[w].queue[i].key.tbl == STUDENT_TBL
    ensures forall i :: 0 <= i < |s.workers[w].queue| && s.workers[w].queue[i].UpdateItem? ==>
              s.workers[w].queue[i].tuple.key == cfg.stamp(s.workers[w].queue[i].key.key)
  {
    hide TableOk, ListOk, NoStale, Balanced, Tables.View, PcOk;
    assert WorkerOk(cfg, Tables.View(s.table.rows), s.workers[w]);
  }

  /** As the source decodes, no step but an insertion or a removal ever changes a row other than row 0. */
  lemma SourceWritesRowZeroOnly(cfg: Config, s: State, w: nat, a: Act, k: nat)
    requires Inv(cfg, s) && Enabled(cfg, s, w, a) && (forall n :: cfg.stamp(n) == SourceStamp(n)) && k != 0
    requires k in Store(s) && k in Store(Step(cfg, s, w, a).value)
    ensures Store(Step(cfg, s, w, a).value)[k] == Store(s)[k]
  {
    hide TableOk, WorkerOk, Balanced, Step, Tables.View, Inv;
    StepMoves(cfg, s, w, a);
    HeadStamped(cfg, s, w);
    if EventOf(s.table, s.workers[w], a).Insertion? {
      assert k in Tables.View(s.table.rows);
    }
  }

  // ---- Aborts ----

  datatype Effect = Effect(worker: nat, event: Event)

  /** Who did what, step by step. */
  function Log(cfg: Config, s: State, ls: seq<Label>): seq<Effect>
    requires Exec(cfg, s, ls).Some?
    decreases |ls|
  {
    if ls == [] then []
    else [Effect(ls[0].worker, EventOf(s.table, s.workers[ls[0].worker], ls[0].act))]
         + Log(cfg, Step(cfg, s, ls[0].worker, ls[0].act).value, ls[1..])
  }

  function ApplyLog(d: Data, log: seq<Effect>): Data
    decreases |log|
  {
    if log == [] then d else ApplyLog(Apply(d, log[0].event), log[1..])
  }

  function Others(log: seq<Effect>, w: nat): seq<Effect> {
    if log == [] then []
    else (if log[0].worker == w then [] else [log[0]]) + Others(log[1..], w)
  }

  /** The records after a run are the logged events applied in order. */
  lemma {:induction false} LogExplainsStore(cfg: Config, s: State, ls: seq<Label>)
    requires Inv(cfg, s) && TameRun(cfg, s, ls) && Exec(cfg, s, ls).Some?
    ensures Store(Exec(cfg, s, ls).value) == ApplyLog(Store(s), Log(cfg, s, ls))
    decreases |ls|
  {
    hide Inv, Tame, Step, Store, Apply, EventOf;
    if ls != [] {
      StepMoves(cfg, s, ls[0].worker, ls[0].act);
      LogExplainsStore(cfg, Step(cfg, s, ls[0].worker, ls[0].act).value, ls[1..]);
    }
  }

  /** The run holds no COMMIT that worker `w` serves in its shrinking phase. */
  predicate NeverCommits(cfg: Config, s: State, ls: seq<Label>, w: nat)
    requires Exec(cfg, s, ls).Some?
    decreases |ls|
  {
    ls != [] ==>
      && !(ls[0] == Label(w, Receive(CommitTxn)) && s.workers[w].phase == SHRINKING)
      && NeverCommits(cfg, Step(cfg, s, ls[0].worker, ls[0].act).value, ls[1..], w)
  }

  lemma NoReplayNoData(t: Tables.Table, w: Worker, a: Act)
    requires Shaped(t, w) && !w.pc.Replaying?
    ensures !TouchesData(EventOf(t, w, a))
  {
  }

  lemma ReplayNeedsCommit(cfg: Config, t: Tables.Table, w: Worker, a: Act)
    requires Shaped(t, w) && StepLocal(cfg, t, w, a).Some? && !w.pc.Replaying?
    requires !(a == Receive(CommitTxn) && w.phase == SHRINKING)
    ensures !StepLocal(cfg, t, w, a).value.worker.pc.Replaying?
  {
    hide GetLock, SearchLock, SeekLock, RmLock, AddLock, InsertSlot, PromoteLock, NextLive, Tables.Release, Tables.SeekRow,
         Tables.SharedScan, Tables.ExclusiveScan, Tables.GrantShared, Tables.GrantExclusive, Tables.PromoteAt;
  }

  lemma {:induction false} NoCommitNoData(cfg: Config, s: State, ls: seq<Label>, w: nat)
    requires Exec(cfg, s, ls).Some? && NeverCommits(cfg, s, ls, w)
    requires w < |s.workers| && !s.workers[w].pc.Replaying?
    ensures forall i :: 0 <= i < |Log(cfg, s, ls)| && Log(cfg, s, ls)[i].worker == w ==> !TouchesData(Log(cfg, s, ls)[i].event)
    decreases |ls|
  {
    hide EventOf, StepLocal, TouchesData;
    if ls != [] {
      var v, a := ls[0].worker, ls[0].act;
      if v == w {
        NoReplayNoData(s.table, s.workers[w], a);
        ReplayNeedsCommit(cfg, s.table, s.workers[w], a);
      }
      NoCommitNoData(cfg, Step(cfg, s, v, a).value, ls[1..], w);
    }
  }

  lemma {:induction false} SkipQuiet(d: Data, log: seq<Effect>, w: nat)
    requires forall i :: 0 <= i < |log| && log[i].worker == w ==> !TouchesData(log[i].event)
    ensures ApplyLog(d, log) == ApplyLog(d, Others(log, w))
    decreases |log|
  {
    if log != [] {
      SkipQuiet(Apply(d, log[0].event), log[1..], w);
      if log[0].worker != w {
        assert Others(log, w)[1..] == Others(log[1..], w);
      } else {
        assert Others(log, w) == Others(log[1..], w);
      }
    }
  }

  /**
   * A worker that aborts, is stopped, or commits in any phase but the shrinking one leaves
   * the records exactly as the other workers' steps alone make them.
   */
  lemma AbortLeavesNoTrace(cfg: Config, s: State, ls: seq<Label>, w: nat)
    requires Inv(cfg, s) && TameRun(cfg, s, ls) && Exec(cfg, s, ls).Some?
    requires w < |s.workers| && !s.workers[w].pc.Replaying? && NeverCommits(cfg, s, ls, w)
    ensures Store(Exec(cfg, s, ls).value) == ApplyLog(Store(s), Others(Log(cfg, s, ls), w))
  {
    LogExplainsStore(cfg, s, ls);
    NoCommitNoData(cfg, s, ls, w);
    SkipQuiet(Store(s), Log(cfg, s, ls), w);
  }
}
