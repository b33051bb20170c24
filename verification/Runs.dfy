/** Whole runs: what holds in every state that any interleaving of any number of workers can reach. */
module Runs {
  import opened Basics
  import opened StudentTuples
  import opened LockLists
  import opened Workers
  import opened Protocol
  import OA = OpenAddressing
  import Tables = StudentTables

  datatype Label = Label(worker: nat, act: Act)

  /** The state after the labelled steps, one after another; None when one of them is not enabled. */
  function Exec(cfg: Config, s: State, ls: seq<Label>): Option<State>
    decreases |ls|
  {
    if ls == [] then Some(s)
    else if !WellShaped(s) || ls[0].worker >= |s.workers| then None
    else
      match Step(cfg, s, ls[0].worker, ls[0].act)
      case None => None
      case Some(s1) => Exec(cfg, s1, ls[1..])
  }

  /** No step of the run hands out a live key again or pushes a lock word past 127. */
  ghost predicate TameRun(cfg: Config, s: State, ls: seq<Label>)
    decreases |ls|
  {
    ls != [] && WellShaped(s) && ls[0].worker < |s.workers| && Step(cfg, s, ls[0].worker, ls[0].act).Some? ==>
      && Tame(s.table, s.workers[ls[0].worker], ls[0].act)
      && TameRun(cfg, Step(cfg, s, ls[0].worker, ls[0].act).value, ls[1..])
  }

  /** An empty table and workers that have done nothing. */
  predicate Initial(s: State) {
    && 0 < |s.table.rows| < 256
    && (forall i :: 0 <= i < |s.table.rows| ==> !s.table.rows[i].used && !s.table.rows[i].deleted)
    && s.table == Tables.Table(s.table.rows, 0, 0, 0, 0)
    && (forall w :: 0 <= w < |s.workers| ==> |s.workers[w].locks.slots| > 0 && s.workers[w] == Fresh(s.workers[w]))
    && s.leaks == multiset{}
  }

  lemma {:induction false} FreshHoldsNothing(ws: seq<Worker>)
    requires forall w :: 0 <= w < |ws| ==> ws[w] == Fresh(ws[w])
    ensures AllClaims(ws) == multiset{}
  {
    if ws != [] {
      HeldNothing(ws[|ws|-1].locks.slots, 0);
      FreshHoldsNothing(ws[..|ws|-1]);
    }
  }

  lemma FreshOk(cfg: Config, v: View, w: Worker)
    requires |w.locks.slots| > 0 && w == Fresh(w)
    ensures WorkerOk(cfg, v, w)
  {
    CountNone(w.locks.slots, OA.Live<UniqueKey, LockType>);
    HeldNothing(w.locks.slots, 0);
  }

  lemma InitialInv(cfg: Config, s: State)
    requires Initial(s)
    ensures Inv(cfg, s) && Tables.View(s.table.rows) == map[]
  {
    hide WorkerOk, Fresh;
    CountNone(s.table.rows, OA.Live<nat, Tables.Cell>);
    CountNone(s.table.rows, Tables.Shareable);
    CountNone(s.table.rows, Tables.Unlocked);
    Tables.ViewIs(s.table.rows, map[]);
    FreshHoldsNothing(s.workers);
    forall w | 0 <= w < |s.workers| ensures WorkerOk(cfg, Tables.View(s.table.rows), s.workers[w]) {
      FreshOk(cfg, Tables.View(s.table.rows), s.workers[w]);
    }
  }

  /** The invariant holds after every tame run. */
  lemma {:induction false} RunKeepsInv(cfg: Config, s: State, ls: seq<Label>)
    requires Inv(cfg, s) && TameRun(cfg, s, ls) && Exec(cfg, s, ls).Some?
    ensures Inv(cfg, Exec(cfg, s, ls).value)
    decreases |ls|
  {
    hide Inv, Tame, Step;
    if ls != [] {
      StepKeepsInv(cfg, s, ls[0].worker, ls[0].act);
      RunKeepsInv(cfg, Step(cfg, s, ls[0].worker, ls[0].act).value, ls[1..]);
    }
  }

  // ---- Mutual exclusion ----

  /** Slot `i` of worker `w`'s list holds a lock that the worker has not given back. */
  predicate Claimed(s: State, w: nat, i: nat) {
    && w < |s.workers| && i < |s.workers[w].locks.slots| && OA.Live(s.workers[w].locks.slots[i])
    && (s.workers[w].pc.Releasing? ==> s.workers[w].pc.next <= i)
  }

  function LockAt(s: State, w: nat, i: nat): Lock
    requires w < |s.workers| && i < |s.workers[w].locks.slots|
  {
    Lock(s.workers[w].locks.slots[i].key, s.workers[w].locks.slots[i].value)
  }

  /**
   * An EXCLUSIVE entry is the only entry for its row in all the lists, and the row's
   * lock word is -1; the lock word of any other row counts its SHARED entries in all
   * the lists together with the shares that were granted and then not recorded. A row
   * at -1 has exactly one claimant, a list entry or a leak.
   */
  ghost predicate Exclusion(s: State) {
    var v := Tables.View(s.table.rows);
    && (forall w, i, w', i' | Claimed(s, w, i) && Claimed(s, w', i') ::
          LockAt(s, w, i).mode == EXCLUSIVE && LockAt(s, w, i).key == LockAt(s, w', i').key ==> w == w' && i == i')
    && (forall w, i :: Claimed(s, w, i) ==> LockAt(s, w, i).key.tbl == STUDENT_TBL && LockAt(s, w, i).key.key in v)
    && (forall w, i :: Claimed(s, w, i) && LockAt(s, w, i).mode == EXCLUSIVE ==> v[LockAt(s, w, i).key.key].lock == -1)
    && (forall k :: k in v && v[k].lock >= 0 ==>
          v[k].lock == AllClaims(s.workers)[Lock(Row(k), SHARED)] + s.leaks[Lock(Row(k), SHARED)])
    && (forall k :: k in v ==> v[k].lock >= -1)
    && (forall k :: k in v && v[k].lock == -1 ==>
          Total(s)[Lock(Row(k), EXCLUSIVE)] == 1 && Total(s)[Lock(Row(k), SHARED)] == 0)
  }

  lemma ClaimedCounts(cfg: Config, s: State, w: nat, i: nat)
    requires Inv(cfg, s) && Claimed(s, w, i)
    ensures LockAt(s, w, i) in Claims(s.workers[w]) && LockAt(s, w, i).key.tbl == STUDENT_TBL
  {
    hide Balanced, TableOk, QueueOk, NoStale, HeldFrom, Tables.View;
    var u := s.workers[w];
    assert WorkerOk(cfg, Tables.View(s.table.rows), u);
    HeldMember(u.locks.slots, 0, i);
    if u.pc.Releasing? { HeldMember(u.locks.slots, u.pc.next, i); }
    StudentLock(u.locks, LockAt(s, w, i));
  }

  lemma HeldFromCount(slots: seq<LockSlot>, from: nat, y: Lock)
    requires from < |slots|
    ensures HeldFrom(slots, from)[y] == One(slots[from])[y] + HeldFrom(slots, from + 1)[y]
  {
    assert HeldFrom(slots, from) == One(slots[from]) + HeldFrom(slots, from + 1);
  }

  lemma {:induction false} TwoSlotsCount(slots: seq<LockSlot>, from: nat, i: nat, j: nat)
    requires from <= i < j < |slots| && OA.Live(slots[i]) && OA.Live(slots[j])
    ensures var x, y := Lock(slots[i].key, slots[i].value), Lock(slots[j].key, slots[j].value);
            HeldFrom(slots, from)[y] >= if x == y then 2 else 1
    decreases |slots| - from
  {
    hide HeldFrom;
    HeldFromCount(slots, from, Lock(slots[j].key, slots[j].value));
    if from < i { TwoSlotsCount(slots, from + 1, i, j); } else { HeldMember(slots, from + 1, j); }
  }

  /** Two entries, wherever they are, count as two claims. */
  lemma TwoClaims(cfg: Config, s: State, w: nat, i: nat, w': nat, i': nat)
    requires Inv(cfg, s) && Claimed(s, w, i) && Claimed(s, w', i') && (w < w' || (w == w' && i < i'))
    ensures var x, y := LockAt(s, w, i), LockAt(s, w', i');
            AllClaims(s.workers)[y] >= if x == y then 2 else 1
  {
    hide Inv, AllClaims, HeldFrom;
    var x, y := LockAt(s, w, i), LockAt(s, w', i');
    ClaimedCounts(cfg, s, w, i);
    ClaimedCounts(cfg, s, w', i');
    if w < w' {
      TwoClaimsCounted(s.workers, w, w');
      assert (Claims(s.workers[w]) + Claims(s.workers[w']))[y] <= AllClaims(s.workers)[y];
    } else {
      ClaimsCounted(s.workers, w);
      TwoSlotsCount(s.workers[w].locks.slots, if s.workers[w].pc.Releasing? then s.workers[w].pc.next else 0, i, i');
      assert Claims(s.workers[w])[y] <= AllClaims(s.workers)[y];
    }
  }

  lemma ExclusiveAlone(cfg: Config, s: State, w: nat, i: nat, w': nat, i': nat)
    requires Inv(cfg, s) && Claimed(s, w, i) && Claimed(s, w', i') && (w < w' || (w == w' && i < i'))
    requires LockAt(s, w, i).key == LockAt(s, w', i').key
    ensures LockAt(s, w, i).mode == SHARED && LockAt(s, w', i').mode == SHARED
  {
    hide TableOk, WorkerOk, Claims, AllClaims, Tables.View;
    var x, y := LockAt(s, w, i), LockAt(s, w', i');
    ClaimedCounts(cfg, s, w, i);
    ClaimsCounted(s.workers, w);
    TwoClaims(cfg, s, w, i, w', i');
    assert x.key == Row(x.key.key);
    assert BalancedAt(Tables.View(s.table.rows), Total(s), x.key.key);
    assert x in Total(s) && Total(s)[y] >= AllClaims(s.workers)[y];
  }

  lemma InvExcludes(cfg: Config, s: State)
    requires Inv(cfg, s)
    ensures Exclusion(s)
  {
    hide TableOk, WorkerOk, Claims, AllClaims, Tables.View;
    var v := Tables.View(s.table.rows);
    forall w, i, w', i' | Claimed(s, w, i) && Claimed(s, w', i') && LockAt(s, w, i).mode == EXCLUSIVE
                          && LockAt(s, w, i).key == LockAt(s, w', i').key
      ensures w == w' && i == i'
    {
      if w < w' || (w == w' && i < i') { ExclusiveAlone(cfg, s, w, i, w', i'); }
      else if w' < w || i' < i { ExclusiveAlone(cfg, s, w', i', w, i); }
    }
    forall w, i | Claimed(s, w, i)
      ensures LockAt(s, w, i).key.tbl == STUDENT_TBL && LockAt(s, w, i).key.key in v
      ensures LockAt(s, w, i).mode == EXCLUSIVE ==> v[LockAt(s, w, i).key.key].lock == -1
    {
      ClaimedCounts(cfg, s, w, i);
      WorkerClaimsRow(cfg, s, w, LockAt(s, w, i));
    }
    forall k | k in v
      ensures v[k].lock >= -1
      ensures v[k].lock == -1 ==> Total(s)[Lock(Row(k), EXCLUSIVE)] == 1 && Total(s)[Lock(Row(k), SHARED)] == 0
      ensures v[k].lock >= 0 ==> v[k].lock == AllClaims(s.workers)[Lock(Row(k), SHARED)] + s.leaks[Lock(Row(k), SHARED)]
    {
      assert BalancedAt(v, Total(s), k);
    }
  }

  /** Mutual exclusion, for any number of workers and any interleaving of their steps. */
  lemma MutualExclusion(cfg: Config, s: State, ls: seq<Label>)
    requires Initial(s) && TameRun(cfg, s, ls) && Exec(cfg, s, ls).Some?
    ensures Exclusion(Exec(cfg, s, ls).value)
    ensures TableOk(Exec(cfg, s, ls).value.table)
  {
    InitialInv(cfg, s);
    RunKeepsInv(cfg, s, ls);
    InvExcludes(cfg, Exec(cfg, s, ls).value);
  }

  // ---- When a run is tame ----

  function Inserts(cfg: Config, s: State, ls: seq<Label>): nat
    requires Exec(cfg, s, ls).Some?
    decreases |ls|
  {
    if ls == [] then 0
    else Bit(EventOf(s.table, s.workers[ls[0].worker], ls[0].act).Insertion?)
         + Inserts(cfg, Step(cfg, s, ls[0].worker, ls[0].act).value, ls[1..])
  }

  /** No row is shared more than 127 times at once, recorded and leaked shares together. */
  ghost predicate SharesFit(s: State) {
    forall k :: Total(s)[Lock(Row(k), SHARED)] <= Tables.LOCK_MAX
  }

  ghost predicate StepFresh(t: Tables.Table, w: Worker, a: Act)
    requires Shaped(t, w)
  {
    EventOf(t, w, a).Insertion? ==> t.nextKey !in Tables.View(t.rows)
  }

  /** Shares fit in every state that the run comes to, and every insertion is given a key that is not in use. */
  ghost predicate FittingRun(cfg: Config, s: State, ls: seq<Label>)
    requires Exec(cfg, s, ls).Some?
    decreases |ls|
  {
    ls != [] ==>
      var s' := Step(cfg, s, ls[0].worker, ls[0].act).value;
      StepFresh(s.table, s.workers[ls[0].worker], ls[0].act) && SharesFit(s') && FittingRun(cfg, s', ls[1..])
  }

  lemma InvSharesFit(cfg: Config, s: State)
    requires Inv(cfg, s)
    ensures SharesFit(s)
  {
    hide TableOk, WorkerOk, Tables.View, Total;
    forall k ensures Total(s)[Lock(Row(k), SHARED)] <= Tables.LOCK_MAX {
      assert BalancedAt(Tables.View(s.table.rows), Total(s), k);
    }
  }

  /** A shared grant adds one share to the total, whether or not the list records it, and even where the lock word wraps. */
  lemma GrantCounts(cfg: Config, s: State, w: nat)
    requires Inv(cfg, s) && WellShaped(s) && w < |s.workers| && Step(cfg, s, w, Proceed).Some?
    requires s.workers[w].pc.Calling? && s.workers[w].pc.want.WantShared? && Tables.SharedScan(s.table).Some? && s.table.sAvail > 0
    ensures Total(Step(cfg, s, w, Proceed).value) ==
            Total(s) + multiset{Lock(Row(s.table.rows[Tables.SharedScan(s.table).value].key), SHARED)}
  {
    hide TableOk, Balanced, Tables.View, HeldFrom, AllClaims, Tables.GrantShared, QueueOk, PcOk, NoStale;
    var u, s' := s.workers[w], Step(cfg, s, w, Proceed).value;
    var lock := Lock(Row(s.table.rows[Tables.SharedScan(s.table).value].key), SHARED);
    assert WorkerOk(cfg, Tables.View(s.table.rows), u);
    AddLockEffect(u.locks, lock);
    TotalUpdate(s.workers, w, s'.workers[w]);
    GrantSums(AllClaims(s.workers), AllClaims(s'.workers), Claims(u), Claims(s'.workers[w]), s.leaks, s'.leaks, lock);
  }

  lemma GrantSums(all: multiset<Lock>, all': multiset<Lock>, own: multiset<Lock>, own': multiset<Lock>,
                  leaks: multiset<Lock>, leaks': multiset<Lock>, lock: Lock)
    requires all' + own == all + own'
    requires (own' == own + multiset{lock} && leaks' == leaks + multiset{}) || (own' == own && leaks' == leaks + multiset{lock})
    ensures all' + leaks' == all + leaks + multiset{lock}
  {
    forall x ensures (all' + leaks')[x] == (all + leaks + multiset{lock})[x] {
      assert (all' + own)[x] == (all + own')[x];
    }
  }

  /** A step overruns no counter exactly when the key it hands out is not in use and the shares still fit afterwards. */
  lemma TameExactly(cfg: Config, s: State, w: nat, a: Act)
    requires Inv(cfg, s) && WellShaped(s) && w < |s.workers| && Step(cfg, s, w, a).Some?
    ensures Tame(s.table, s.workers[w], a) <==> StepFresh(s.table, s.workers[w], a) && SharesFit(Step(cfg, s, w, a).value)
  {
    hide Inv, Step, SharesFit, Tables.View, EventOf;
    var t, u := s.table, s.workers[w];
    TameParts(t, u, a);
    if Tame(t, u, a) {
      StepKeepsInv(cfg, s, w, a);
      InvSharesFit(cfg, Step(cfg, s, w, a).value);
    } else if StepFresh(t, u, a) {
      Overfull(cfg, s, w);
    }
  }

  lemma TameParts(t: Tables.Table, w: Worker, a: Act)
    requires Shaped(t, w)
    ensures Tame(t, w, a) <==>
            && StepFresh(t, w, a)
            && (a.Proceed? && w.pc.Calling? && w.pc.want.WantShared? && Tables.SharedScan(t).Some? ==>
                  t.rows[Tables.SharedScan(t).value].value.lock < Tables.LOCK_MAX)
  {
    hide Tables.View, Tables.SharedScan, Tables.ExclusiveScan;
  }

  /** One share too many shows in the totals. */
  lemma Overfull(cfg: Config, s: State, w: nat)
    requires Inv(cfg, s) && WellShaped(s) && w < |s.workers| && Step(cfg, s, w, Proceed).Some?
    requires s.workers[w].pc.Calling? && s.workers[w].pc.want.WantShared? && Tables.SharedScan(s.table).Some?
    requires s.table.rows[Tables.SharedScan(s.table).value].value.lock >= Tables.LOCK_MAX
    ensures !SharesFit(Step(cfg, s, w, Proceed).value)
  {
    hide WorkerOk, Tables.View, Total, Step;
    var i := Tables.SharedScan(s.table).value;
    var k := s.table.rows[i].key;
    Tables.SharedScanFinds(s.table);
    Tables.EntryAt(s.table, i);
    assert BalancedAt(Tables.View(s.table.rows), Total(s), k);
    GrantCounts(cfg, s, w);
    assert Total(Step(cfg, s, w, Proceed).value)[Lock(Row(k), SHARED)] > Tables.LOCK_MAX;
  }

  /** A run overruns no counter exactly when it is fitting: a matter of outstanding shares, not of how many were ever granted. */
  lemma {:induction false} TameRunExactly(cfg: Config, s: State, ls: seq<Label>)
    requires Inv(cfg, s) && Exec(cfg, s, ls).Some?
    ensures TameRun(cfg, s, ls) <==> FittingRun(cfg, s, ls)
    decreases |ls|
  {
    hide Inv, Step, Tame, StepFresh, SharesFit;
    if ls != [] {
      var w, a := ls[0].worker, ls[0].act;
      TameExactly(cfg, s, w, a);
      if Tame(s.table, s.workers[w], a) {
        StepKeepsInv(cfg, s, w, a);
        TameRunExactly(cfg, Step(cfg, s, w, a).value, ls[1..]);
      }
    }
  }

  // ---- Keys ----

  /** `m` keys have been handed out so far. */
  ghost predicate Within(t: Tables.Table, m: nat) {
    m <= Tables.KEY_SPACE && t.nextKey == m % Tables.KEY_SPACE && forall k :: k in Tables.View(t.rows) ==> k < m
  }

  lemma NextKeyMoves(cfg: Config, t: Tables.Table, w: Worker, a: Act)
    requires Shaped(t, w) && StepLocal(cfg, t, w, a).Some?
    ensures StepLocal(cfg, t, w, a).value.table.nextKey ==
            if EventOf(t, w, a).Insertion? then (t.nextKey + 1) % Tables.KEY_SPACE else t.nextKey
  {
    hide GetLock, SearchLock, SeekLock, RmLock, AddLock, InsertSlot, PromoteLock, NextLive, Tables.SeekRow,
         Tables.SharedScan, Tables.ExclusiveScan, Tables.InsertSlot;
  }

  lemma WithinMoves(v: View, e: Event, v': View, m: nat)
    requires Moves(v, e, v') && (e.Insertion? ==> e.key == m) && (forall k :: k in v ==> k < m)
    ensures forall k :: k in v' ==> k < m + Bit(e.Insertion?)
  {
  }

  lemma InsertionTakesNextKey(t: Tables.Table, w: Worker, a: Act)
    requires Shaped(t, w) && EventOf(t, w, a).Insertion?
    ensures EventOf(t, w, a).key == t.nextKey
  {
  }

  lemma WithinStep(cfg: Config, s: State, w: nat, a: Act, m: nat)
    requires Inv(cfg, s) && WellShaped(s) && w < |s.workers| && Step(cfg, s, w, a).Some? && Within(s.table, m)
    requires Tame(s.table, s.workers[w], a) && (EventOf(s.table, s.workers[w], a).Insertion? ==> m < Tables.KEY_SPACE)
    ensures Within(Step(cfg, s, w, a).value.table, m + Bit(EventOf(s.table, s.workers[w], a).Insertion?))
  {
    hide StepLocal, EventOf, Tables.View, TableOk, WorkerOk, Balanced, Claims, Moves, Tame, Inv;
    InvReady(cfg, s, w);
    LocalAccounted(cfg, s.table, s.workers[w], Total(s), a);
    var t', e := Step(cfg, s, w, a).value.table, EventOf(s.table, s.workers[w], a);
    NextKeyMoves(cfg, s.table, s.workers[w], a);
    if e.Insertion? { InsertionTakesNextKey(s.table, s.workers[w], a); }
    WithinMoves(Tables.View(s.table.rows), e, Tables.View(t'.rows), m);
  }

  /** A run that hands out at most 256 keys from the start and never shares a row more than 127 times at once is tame, however long it is. */
  lemma {:induction false} ModestRunIsTame(cfg: Config, s: State, ls: seq<Label>, m: nat)
    requires Inv(cfg, s) && Exec(cfg, s, ls).Some? && Within(s.table, m)
    requires m + Inserts(cfg, s, ls) <= Tables.KEY_SPACE && SharesFitAlong(cfg, s, ls)
    ensures TameRun(cfg, s, ls)
    decreases |ls|
  {
    hide Step, EventOf, Tame, Inv, Within, SharesFit;
    if ls != [] {
      var w, a := ls[0].worker, ls[0].act;
      var e, s' := EventOf(s.table, s.workers[w], a), Step(cfg, s, w, a).value;
      if e.Insertion? { WithinFresh(s.table, m); }
      TameExactly(cfg, s, w, a);
      StepKeepsInv(cfg, s, w, a);
      WithinStep(cfg, s, w, a, m);
      ModestRunIsTame(cfg, s', ls[1..], m + Bit(e.Insertion?));
    }
  }

  lemma WithinFresh(t: Tables.Table, m: nat)
    requires Within(t, m) && m < Tables.KEY_SPACE
    ensures t.nextKey !in Tables.View(t.rows)
  {
  }

  ghost predicate SharesFitAlong(cfg: Config, s: State, ls: seq<Label>)
    requires Exec(cfg, s, ls).Some?
    decreases |ls|
  {
    ls != [] ==>
      var s' := Step(cfg, s, ls[0].worker, ls[0].act).value;
      SharesFit(s') && SharesFitAlong(cfg, s', ls[1..])
  }

  // ---- Leaked locks ----

  /** A granted lock leaks exactly when the worker's list refuses it. */
  lemma RecordLeaks(t: Tables.Table, w: Worker, lock: Lock)
    requires Shaped(t, w) && LockLists.Valid(w.locks)
    ensures Record(t, w, lock).Some?
    ensures Record(t, w, lock).value.leaked == if Refuses(w.locks, lock.key) then multiset{lock} else multiset{}
  {
    hide LockLists.Valid, AddLock, Refuses;
    AddLockRefuses(w.locks, lock);
  }

  /**
   * A granted shared read leaks its share exactly when the reader's list is full, or
   * holds the row that the scan found with no tombstone before it.
   */
  lemma SharedReadLeaks(cfg: Config, t: Tables.Table, w: Worker, c: multiset<Lock>)
    requires Ready(cfg, t, w, c) && Shaped(t, w) && w.pc.Calling? && t.sAvail > 0
    ensures Tables.SharedScan(t).Some? && CallShared(t, w, w.pc.tries).Some?
    ensures var k := Row(t.rows[Tables.SharedScan(t).value].key);
            CallShared(t, w, w.pc.tries).value.leaked == if Refuses(w.locks, k) then multiset{Lock(k, SHARED)} else multiset{}
  {
    hide NoStale, QueueOk, Balanced, HeldFrom, Tables.View, Tables.GrantShared, Record, Refuses;
    Tables.SharedScanFinds(t);
    var i := Tables.SharedScan(t).value;
    GrantKeepsShape(t, i);
    RecordLeaks(Tables.GrantShared(t, i), w, Lock(Row(t.rows[i].key), SHARED));
  }

  lemma GrantKeepsShape(t: Tables.Table, i: nat)
    requires i < |t.rows|
    ensures |Tables.GrantShared(t, i).rows| == |t.rows| == |Tables.GrantExclusive(t, i).rows|
  {
  }

  /** A granted exclusive read leaks its lock exactly when the reader's list is full: a row it holds is never unlocked. */
  lemma ExclusiveReadLeaks(cfg: Config, t: Tables.Table, w: Worker, c: multiset<Lock>)
    requires Ready(cfg, t, w, c) && Shaped(t, w) && w.pc.Calling? && t.xAvail > 0
    ensures Tables.ExclusiveScan(t).Some? && CallExclusive(t, w, w.pc.tries).Some?
    ensures var k := Row(t.rows[Tables.ExclusiveScan(t).value].key);
            CallExclusive(t, w, w.pc.tries).value.leaked ==
            if w.locks.size == |w.locks.slots| then multiset{Lock(k, EXCLUSIVE)} else multiset{}
  {
    hide NoStale, QueueOk, Balanced, HeldFrom, Tables.View, Tables.GrantExclusive, Record, FindLock;
    Tables.ExclusiveScanFinds(t);
    var i := Tables.ExclusiveScan(t).value;
    GrantKeepsShape(t, i);
    RecordLeaks(Tables.GrantExclusive(t, i), w, Lock(Row(t.rows[i].key), EXCLUSIVE));
    UnlockedNotHeld(cfg, t, w, c, i);
  }

  lemma UnlockedNotHeld(cfg: Config, t: Tables.Table, w: Worker, c: multiset<Lock>, i: nat)
    requires Ready(cfg, t, w, c) && Shaped(t, w) && !w.pc.Releasing? && i < |t.rows| && Tables.Unlocked(t.rows[i])
    ensures FindLock(w.locks, Row(t.rows[i].key)).None?
  {
    hide NoStale, QueueOk, Balanced, HeldFrom, Tables.View, FindLock;
    var k := Row(t.rows[i].key);
    Tables.EntryAt(t, i);
    LookupsAgree(w.locks, k);
    if FindLock(w.locks, k).Some? {
      ClaimedRow(Tables.View(t.rows), c, Lock(k, GetLock(w.locks, k).value));
    }
  }

  /** A lock that was granted and not recorded is never given back: it stays among the leaks of every later state. */
  lemma {:induction false} LeaksRemain(cfg: Config, s: State, ls: seq<Label>)
    requires Exec(cfg, s, ls).Some?
    ensures s.leaks <= Exec(cfg, s, ls).value.leaks
    decreases |ls|
  {
    hide StepLocal;
    if ls != [] { LeaksRemain(cfg, Step(cfg, s, ls[0].worker, ls[0].act).value, ls[1..]); }
  }

  /**
   * One leaked share pins its row for ever: after any run the row is still live and
   * locked, and nobody holds it EXCLUSIVE. A leaked exclusive grant shuts out everybody.
   */
  lemma LeakPinsRow(cfg: Config, s: State, ls: seq<Label>, lock: Lock, w: nat, held: Lock)
    requires Inv(cfg, s) && TameRun(cfg, s, ls) && Exec(cfg, s, ls).Some?
    requires lock in s.leaks && lock.key.tbl == STUDENT_TBL
    ensures var v := Tables.View(Exec(cfg, s, ls).value.table.rows);
            lock.key.key in v && v[lock.key.key].lock != 0
    ensures var ws := Exec(cfg, s, ls).value.workers;
            w < |ws| && held in Claims(ws[w]) && held.key == lock.key ==> lock.mode == SHARED && held.mode == SHARED
  {
    hide Inv, Claims, AllClaims, Tables.View;
    RunKeepsInv(cfg, s, ls);
    LeaksRemain(cfg, s, ls);
    var s' := Exec(cfg, s, ls).value;
    LeakShown(cfg, s', lock);
    if w < |s'.workers| && held in Claims(s'.workers[w]) && held.key == lock.key { LeakExcludes(cfg, s', lock, w, held); }
  }

  lemma LeakShown(cfg: Config, s: State, lock: Lock)
    requires Inv(cfg, s) && lock in s.leaks && lock.key.tbl == STUDENT_TBL
    ensures lock.key.key in Tables.View(s.table.rows) && Tables.View(s.table.rows)[lock.key.key].lock != 0
  {
    hide TableOk, WorkerOk, Balanced, Tables.View, AllClaims;
    ClaimedRow(Tables.View(s.table.rows), Total(s), lock);
    assert lock.mode == SHARED || lock.mode == EXCLUSIVE;
  }

  lemma LeakExcludes(cfg: Config, s: State, lock: Lock, w: nat, held: Lock)
    requires Inv(cfg, s) && lock in s.leaks && lock.key.tbl == STUDENT_TBL
    requires w < |s.workers| && held in Claims(s.workers[w]) && held.key == lock.key
    ensures lock.mode == SHARED && held.mode == SHARED
  {
    hide TableOk, WorkerOk, Claims, Tables.View, AllClaims;
    ClaimsCounted(s.workers, w);
    var all := AllClaims(s.workers);
    assert held in all;
    assert lock.key == Row(lock.key.key) && (lock.mode == SHARED || lock.mode == EXCLUSIVE) && (held.mode == SHARED || held.mode == EXCLUSIVE);
    assert BalancedAt(Tables.View(s.table.rows), Total(s), lock.key.key);
    assert Total(s)[lock] == all[lock] + s.leaks[lock] && Total(s)[held] == all[held] + s.leaks[held];
  }
}
