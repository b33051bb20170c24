/**
 * What each request and each step of a worker's own does, stated outright; and what
 * follows for runs: a commit applies what its client was granted, in order, and every
 * transaction comes to its end.
 */
module Requests {
  import opened Basics
  import opened StudentTuples
  import opened LockLists
  import opened Workers
  import opened Protocol
  import opened Runs
  import opened Transactions
  import opened Commits
  import opened InTurn
  import opened Progress
  import OA = OpenAddressing
  import Tables = StudentTables

  // ---- What a lookup in the list means for a worker that has nothing given back ----

  /** The list answers EXCLUSIVE, or SHARED, exactly for keys that are held so. */
  lemma AnswersHeld(cfg: Config, t: Tables.Table, w: Worker, c: multiset<Lock>, k: UniqueKey)
    requires Ready(cfg, t, w, c) && !w.pc.Releasing?
    ensures |w.locks.slots| > 0
    ensures GetLock(w.locks, k) == Some(EXCLUSIVE) <==> Lock(k, EXCLUSIVE) in Held(w.locks)
    ensures GetLock(w.locks, k) == Some(SHARED) <==> Lock(k, SHARED) in Held(w.locks)
    ensures Lock(k, EXCLUSIVE) in Held(w.locks) || Lock(k, SHARED) in Held(w.locks) ==> k == Row(k.key)
  {
    hide Ready, HeldFrom, GetLock, LockLists.Valid, ListOk;
    ReadyFacts(cfg, t, w, c);
    LookupsAgree(w.locks, k);
    if Lock(k, EXCLUSIVE) in Held(w.locks) {
      NotShared(cfg, t, w, c, k);
      DeleteFinds(w.locks, k);
    } else if Lock(k, SHARED) in Held(w.locks) {
      StudentLock(w.locks, Lock(k, SHARED));
      SharedFinds(w.locks, k);
    }
  }

  lemma SharedFinds(l: LockList, k: UniqueKey)
    requires LockLists.Valid(l) && Lock(k, SHARED) in Held(l) && Lock(k, EXCLUSIVE) !in Held(l)
    ensures GetLock(l, k) == Some(SHARED)
  {
    hide HeldFrom, GetLock;
    LookupsAgree(l, k);
    LookupsAnswer(l, k);
  }

  // ---- Requests that queue a write ----

  function Advanced(p: Phase): Phase { if p == GROWING then SHRINKING else p }

  lemma AddRequest(cfg: Config, t: Tables.Table, w: Worker, tbl: Option<nat>, student: Student)
    requires Shaped(t, w) && w.pc.Receiving?
    ensures StepLocal(cfg, t, w, Receive(AddTuple(tbl, student))) ==
            Some(Local(Worker(Advanced(w.phase), w.locks,
                              if tbl == Some(1) && |w.queue| < cfg.maxCommits then w.queue + [AddItem(1, student)] else w.queue,
                              LoopHead, w.running), t, multiset{}))
  {
  }

  lemma UpdateRequest(cfg: Config, t: Tables.Table, w: Worker, c: multiset<Lock>, tbl: Option<nat>, key: Option<nat>, student: Student)
    requires Ready(cfg, t, w, c) && Shaped(t, w) && w.pc.Receiving?
    ensures StepLocal(cfg, t, w, Receive(UpdateRow(tbl, key, student))) ==
            Some(Local(Worker(Advanced(w.phase), w.locks,
                              if tbl == Some(1) && key.Some? && Lock(UniqueKey(1, key.value), EXCLUSIVE) in Held(w.locks) && |w.queue| < cfg.maxCommits
                              then w.queue + [UpdateItem(UniqueKey(1, key.value), StudentTuple(student, cfg.stamp(key.value)))] else w.queue,
                              LoopHead, w.running), t, multiset{}))
  {
    hide Ready, GetLock, Held;
    if tbl.Some? && key.Some? { AnswersHeld(cfg, t, w, c, UniqueKey(tbl.value, key.value)); }
  }

  lemma DeleteRequest(cfg: Config, t: Tables.Table, w: Worker, c: multiset<Lock>, tbl: Option<nat>, key: Option<nat>)
    requires Ready(cfg, t, w, c) && Shaped(t, w) && w.pc.Receiving?
    ensures StepLocal(cfg, t, w, Receive(DeleteRow(tbl, key))) ==
            Some(Local(Worker(Advanced(w.phase), w.locks,
                              if tbl == Some(1) && key.Some? && Lock(UniqueKey(1, key.value), EXCLUSIVE) in Held(w.locks) && |w.queue| < cfg.maxCommits
                              then w.queue + [DeleteItem(UniqueKey(1, key.value))] else w.queue,
                              LoopHead, w.running), t, multiset{}))
  {
    hide Ready, GetLock, Held;
    if tbl.Some? && key.Some? { AnswersHeld(cfg, t, w, c, UniqueKey(tbl.value, key.value)); }
  }

  // ---- Requests that start something or are answered at once ----

  /** A read starts its retry loop in the growing phase and is refused in any other; other tables have no rows. */
  lemma ReadRequest(cfg: Config, t: Tables.Table, w: Worker, tbl: Option<nat>)
    requires Shaped(t, w) && w.pc.Receiving?
    ensures StepLocal(cfg, t, w, Receive(SharedRead(tbl))) ==
            Some(Local(w.(pc := if w.phase == GROWING && tbl == Some(1) then Trying(WantShared, 0) else LoopHead), t, multiset{}))
    ensures StepLocal(cfg, t, w, Receive(ExclusiveRead(tbl))) ==
            Some(Local(w.(pc := if w.phase == GROWING && tbl == Some(1) then Trying(WantExclusive, 0) else LoopHead), t, multiset{}))
  {
  }

  /** A promotion starts exactly for a row that the worker shares, and for that row. */
  lemma PromoteRequest(cfg: Config, t: Tables.Table, w: Worker, c: multiset<Lock>, tbl: Option<nat>, key: Option<nat>)
    requires Ready(cfg, t, w, c) && Shaped(t, w) && w.pc.Receiving?
    ensures StepLocal(cfg, t, w, Receive(Promote(tbl, key))) ==
            Some(Local(w.(pc := if w.phase == GROWING && tbl == Some(1) && key.Some? && Lock(UniqueKey(1, key.value), SHARED) in Held(w.locks)
                                then Trying(WantPromote(UniqueKey(1, key.value)), 0) else LoopHead), t, multiset{}))
  {
    hide Ready, GetLock, Held;
    if tbl.Some? && key.Some? { AnswersHeld(cfg, t, w, c, UniqueKey(tbl.value, key.value)); }
  }

  /** A yield takes one share of the named row off the list and off the row, if the worker is growing and shares it; otherwise it does nothing. */
  lemma YieldRequest(cfg: Config, t: Tables.Table, w: Worker, c: multiset<Lock>, tbl: Option<nat>, key: Option<nat>)
    requires Ready(cfg, t, w, c) && Shaped(t, w) && w.pc.Receiving?
    ensures StepLocal(cfg, t, w, Receive(YieldRead(tbl, key))).Some?
    ensures var r := StepLocal(cfg, t, w, Receive(YieldRead(tbl, key))).value;
            if w.phase == GROWING && tbl == Some(1) && key.Some? && Lock(UniqueKey(1, key.value), SHARED) in Held(w.locks)
            then && r.worker == w.(locks := r.worker.locks, pc := LoopHead) && r.leaked == multiset{}
                 && Held(w.locks) == Held(r.worker.locks) + multiset{Lock(UniqueKey(1, key.value), SHARED)}
                 && var v := Tables.View(t.rows);
                    key.value in v && Tables.View(r.table.rows) == v[key.value := v[key.value].(lock := v[key.value].lock - 1)]
            else r == Local(w.(pc := LoopHead), t, multiset{})
  {
    hide Ready, GetLock, SeekLock, RmLock, Tables.SeekRow, Tables.Release, Held, Tables.View, Accounted, StepLocal;
    if tbl.Some? && key.Some? { AnswersHeld(cfg, t, w, c, UniqueKey(tbl.value, key.value)); }
    if w.phase == GROWING && tbl.Some? && key.Some? && GetLock(w.locks, UniqueKey(tbl.value, key.value)) == Some(SHARED) {
      var k := UniqueKey(tbl.value, key.value);
      YieldAccounted(cfg, t, w, c, k);
      YieldStep(cfg, t, w, k);
      SharedGivenBack(cfg, t, w, c, k, Local(Back(w).(locks := RmLock(w.locks, k)), Tables.Release(t, k.key), multiset{}));
    } else {
      NoYieldStep(cfg, t, w, tbl, key);
    }
  }

  lemma YieldStep(cfg: Config, t: Tables.Table, w: Worker, k: UniqueKey)
    requires Shaped(t, w) && w.pc.Receiving? && w.phase == GROWING && GetLock(w.locks, k) == Some(SHARED)
    requires SeekLock(w.locks, k).Some? && Tables.SeekRow(t, k.key).Some? && k.tbl == STUDENT_TBL
    ensures StepLocal(cfg, t, w, Receive(YieldRead(Some(k.tbl), Some(k.key)))) ==
            Some(Local(Back(w).(locks := RmLock(w.locks, k)), Tables.Release(t, k.key), multiset{}))
  {
    hide GetLock, SeekLock, RmLock, Tables.SeekRow, Tables.Release;
    assert k == UniqueKey(k.tbl, k.key);
  }

  lemma NoYieldStep(cfg: Config, t: Tables.Table, w: Worker, tbl: Option<nat>, key: Option<nat>)
    requires Shaped(t, w) && w.pc.Receiving?
    requires !(w.phase == GROWING && tbl.Some? && key.Some? && GetLock(w.locks, UniqueKey(tbl.value, key.value)) == Some(SHARED))
    ensures StepLocal(cfg, t, w, Receive(YieldRead(tbl, key))) == Some(Local(w.(pc := LoopHead), t, multiset{}))
  {
    hide GetLock, SeekLock, RmLock, Tables.SeekRow, Tables.Release;
  }

  lemma SharedGivenBack(cfg: Config, t: Tables.Table, w: Worker, c: multiset<Lock>, k: UniqueKey, r: Local)
    requires Ready(cfg, t, w, c) && w.pc.Receiving? && k.tbl == STUDENT_TBL && Accounted(cfg, t, w, Return(k.key, SHARED), r)
    requires r.leaked == multiset{} && r.worker.pc.LoopHead? && Lock(k, SHARED) in Held(w.locks)
    ensures Held(w.locks) == Held(r.worker.locks) + multiset{Lock(k, SHARED)}
    ensures var v := Tables.View(t.rows);
            k.key in v && Tables.View(r.table.rows) == v[k.key := v[k.key].(lock := v[k.key].lock - 1)]
  {
    hide WorkerOk, TableOk, Held, HeldFrom, Tables.View, Balanced;
    assert k == Row(k.key);
    assert Claims(w) == Held(w.locks) && Claims(r.worker) == Held(r.worker.locks);
    assert Lock(k, SHARED) in c;
    ClaimedRow(Tables.View(t.rows), c, Lock(k, SHARED));
    Balances(Held(r.worker.locks), Held(w.locks), Lock(k, SHARED));
  }

  lemma Balances(h': multiset<Lock>, h: multiset<Lock>, x: Lock)
    requires h' + multiset{} + multiset{x} == h + multiset{}
    ensures h == h' + multiset{x}
  {
    assert h' + multiset{} == h' && h + multiset{} == h;
  }

  lemma PlainRequest(cfg: Config, t: Tables.Table, w: Worker)
    requires Shaped(t, w) && w.pc.Receiving?
    ensures StepLocal(cfg, t, w, Receive(StartTxn)) == Some(Local(w.(pc := LoopHead), t, multiset{}))
    ensures StepLocal(cfg, t, w, Receive(BadRequest)) == Some(Local(w.(pc := LoopHead), t, multiset{}))
  {
  }

  /** The two requests that end a transaction. */
  lemma EndRequest(cfg: Config, t: Tables.Table, w: Worker)
    requires Shaped(t, w) && w.pc.Receiving?
    ensures StepLocal(cfg, t, w, Receive(AbortTxn)) == Some(Local(w.(pc := Releasing(0)), t, multiset{}))
    ensures StepLocal(cfg, t, w, Receive(CommitTxn)) ==
            Some(Local(w.(pc := if w.phase == SHRINKING then Replaying else Releasing(0)), t, multiset{}))
  {
  }

  // ---- The worker's own steps outside its table calls ----

  /**
   * At its loop head a worker goes on if it is running and quits if not. At the head of a
   * retry loop it gives up after the last retry, which aborts a promotion but not a read;
   * being stopped aborts a read but not a promotion.
   */
  lemma CheckStep(cfg: Config, t: Tables.Table, w: Worker)
    requires Shaped(t, w)
    ensures w.pc.LoopHead? ==> StepLocal(cfg, t, w, Check) == Some(Local(w.(pc := if w.running then Receiving else Releasing(0)), t, multiset{}))
    ensures w.pc.Trying? ==>
              StepLocal(cfg, t, w, Check) ==
              Some(Local(if w.pc.tries >= cfg.maxRetries then w.(pc := LoopHead, phase := if w.pc.want.WantPromote? then ABORTED else w.phase)
                         else if !w.running then w.(pc := LoopHead, phase := if w.pc.want.WantPromote? then w.phase else ABORTED)
                         else w.(pc := Calling(w.pc.want, w.pc.tries)), t, multiset{}))
    ensures !w.pc.LoopHead? && !w.pc.Trying? ==> StepLocal(cfg, t, w, Check).None?
  {
  }

  /** A wait times out only while its condition fails, and then counts as one more try; a worker without a job looks again. */
  lemma TimeoutStep(cfg: Config, t: Tables.Table, w: Worker)
    requires Shaped(t, w)
    ensures w.pc.Receiving? ==> StepLocal(cfg, t, w, Timeout) == Some(Local(w.(pc := LoopHead), t, multiset{}))
    ensures w.pc.Calling? && w.pc.want.WantShared? ==>
              StepLocal(cfg, t, w, Timeout) ==
              if t.size == 0 || t.sAvail == 0 then Some(Local(w.(pc := Trying(WantShared, w.pc.tries + 1)), t, multiset{})) else None
    ensures w.pc.Calling? && w.pc.want.WantExclusive? ==>
              StepLocal(cfg, t, w, Timeout) ==
              if t.size == 0 || t.xAvail == 0 then Some(Local(w.(pc := Trying(WantExclusive, w.pc.tries + 1)), t, multiset{})) else None
    ensures w.pc.Parked? && w.pc.slot < |t.rows| ==>
              StepLocal(cfg, t, w, Timeout) ==
              if t.rows[w.pc.slot].value.lock != 1 then Some(Local(w.(pc := Trying(WantPromote(w.pc.key), w.pc.tries + 1)), t, multiset{})) else None
  {
  }

  /** A scan that finds no row, were it ever to happen, counts as one more try. */
  lemma MissedScan(cfg: Config, t: Tables.Table, w: Worker)
    requires Shaped(t, w) && w.pc.Calling?
    ensures w.pc.want.WantShared? && t.sAvail > 0 && Tables.SharedScan(t).None? ==>
              StepLocal(cfg, t, w, Proceed) == Some(Local(w.(pc := Trying(WantShared, w.pc.tries + 1)), t, multiset{}))
    ensures w.pc.want.WantExclusive? && t.xAvail > 0 && Tables.ExclusiveScan(t).None? ==>
              StepLocal(cfg, t, w, Proceed) == Some(Local(w.(pc := Trying(WantExclusive, w.pc.tries + 1)), t, multiset{}))
    ensures w.pc.want.WantShared? && t.sAvail == 0 ==> StepLocal(cfg, t, w, Proceed).None?
    ensures w.pc.want.WantExclusive? && t.xAvail == 0 ==> StepLocal(cfg, t, w, Proceed).None?
  {
  }

  /** A stop only clears the running flag; a stopped worker starts over with nothing held and nothing queued. */
  lemma StopAndStart(cfg: Config, t: Tables.Table, w: Worker)
    requires Shaped(t, w)
    ensures StepLocal(cfg, t, w, Stop) == Some(Local(w.(running := false), t, multiset{}))
    ensures StepLocal(cfg, t, w, Start).Some? <==> w.pc.Stopped?
    ensures w.pc.Stopped? ==>
              var r := StepLocal(cfg, t, w, Start).value;
              && r.table == t && r.leaked == multiset{} && r.worker == Worker(GROWING, r.worker.locks, [], LoopHead, true)
              && r.worker.locks.size == 0 && |r.worker.locks.slots| == |w.locks.slots|
              && forall i :: 0 <= i < |w.locks.slots| ==> !r.worker.locks.slots[i].used && !r.worker.locks.slots[i].deleted
  {
  }

  // ---- The end of a transaction ----

  /** What the rows look like once worker `u` has given back all that it held. */
  ghost predicate GivenBack(v: View, u: Worker, v': View) {
    && v'.Keys == v.Keys
    && forall k :: k in v ==>
         v'[k] == v[k].(lock := if Lock(Row(k), EXCLUSIVE) in Held(u.locks) then 0 else v[k].lock - Held(u.locks)[Lock(Row(k), SHARED)])
  }

  lemma AfterIsGivenBack(v: View, u: Worker, v': View)
    requires v'.Keys == v.Keys && forall k :: k in v ==> v'[k] == v[k].(lock := After(v[k].lock, Held(u.locks), k))
    ensures GivenBack(v, u, v')
    ensures DataOf(v') == DataOf(v)
  {
    hide HeldFrom, Held;
  }

  /** The acts that make a worker quit: ABORT_TXN, COMMIT_TXN outside the shrinking phase, or finding itself stopped. */
  predicate Quits(u: Worker, a: Act) {
    || (u.pc.Receiving? && a == Receive(AbortTxn))
    || (u.pc.Receiving? && a == Receive(CommitTxn) && u.phase != SHRINKING)
    || (u.pc.LoopHead? && a == Check && !u.running)
  }

  /**
   * A worker that quits comes to its end by its own turns: it stops with nothing held and
   * nothing queued, every row has back exactly what it held, and no record has changed.
   */
  lemma QuittingEnds(cfg: Config, s: State, w: nat, a: Act) returns (acts: seq<Act>, r: Local)
    requires Inv(cfg, s) && WellShaped(s) && w < |s.workers| && Quits(s.workers[w], a)
    ensures acts != [] && acts[0] == a && forall i :: 0 < i < |acts| ==> acts[i] == Proceed
    ensures Exec(cfg, s, By(w, acts)) == Some(Put(s, w, r)) && r.leaked == multiset{}
    ensures r.worker.pc.Stopped? && r.worker.queue == [] && Held(r.worker.locks) == multiset{}
    ensures TableOk(r.table) && GivenBack(Tables.View(s.table.rows), s.workers[w], Tables.View(r.table.rows))
    ensures DataOf(Tables.View(r.table.rows)) == Store(s)
  {
    var t, u := s.table, s.workers[w];
    var u1 := u.(pc := Releasing(0));
    QuitsToReleasing(cfg, t, u, a);
    StartsReleasing(cfg, s, w);
    acts, r := ReleasingEnds(cfg, t, u1);
    hide Inv, StepLocal, Alone, Exec, Tables.View, TableOk, DataOf, GivenBack, Quits;
    AloneFront(cfg, t, u, a, acts, Only(u1, t));
    acts := [a] + acts;
    AloneIsRun(cfg, s, w, acts);
    AfterIsGivenBack(Tables.View(t.rows), u, Tables.View(r.table.rows));
  }

  lemma QuitsToReleasing(cfg: Config, t: Tables.Table, u: Worker, a: Act)
    requires Shaped(t, u) && Quits(u, a)
    ensures StepLocal(cfg, t, u, a) == Some(Only(u.(pc := Releasing(0)), t))
  {
    CheckStep(cfg, t, u);
    if u.pc.Receiving? { EndRequest(cfg, t, u); }
  }

  /** The release loop from its start, in a state where the worker has given nothing back. */
  lemma StartsReleasing(cfg: Config, s: State, w: nat)
    requires Inv(cfg, s) && WellShaped(s) && w < |s.workers| && !s.workers[w].pc.Releasing?
    ensures ReleaseFrom(s.table, s.workers[w].locks, 0).Some? && TableOk(ReleaseFrom(s.table, s.workers[w].locks, 0).value)
    ensures var v, v' := Tables.View(s.table.rows), Tables.View(ReleaseFrom(s.table, s.workers[w].locks, 0).value.rows);
            v'.Keys == v.Keys && forall k :: k in v ==> v'[k] == v[k].(lock := After(v[k].lock, Held(s.workers[w].locks), k))
  {
    hide Inv, ReleaseFrom, TableOk, Tables.View, After, HeldFrom;
    ReleaseLoopExact(cfg, s, w);
  }

  lemma ReleasingEnds(cfg: Config, t: Tables.Table, u: Worker) returns (acts: seq<Act>, r: Local)
    requires Shaped(t, u) && u.pc == Releasing(0) && ReleaseFrom(t, u.locks, 0).Some?
    ensures Alone(cfg, t, u, acts) == Some(r) && r.leaked == multiset{} && forall i :: 0 <= i < |acts| ==> acts[i] == Proceed
    ensures r.worker.pc.Stopped? && r.worker.queue == [] && Held(r.worker.locks) == multiset{}
    ensures r.table == ReleaseFrom(t, u.locks, 0).value
  {
    hide Alone, ReleaseFrom, HeldFrom;
    ReleaseIsSteps(cfg, t, u);
    LockLists.ClearEffect(u.locks);
    acts := seq(Turns(u.locks, 0), _ => Proceed);
    r := Only(u.(locks := LockLists.Clear(u.locks), queue := [], pc := Stopped), ReleaseFrom(t, u.locks, 0).value);
  }

  lemma AloneFront(cfg: Config, t: Tables.Table, u: Worker, a: Act, acts: seq<Act>, r: Local)
    requires Shaped(t, u) && StepLocal(cfg, t, u, a) == Some(r) && r.leaked == multiset{}
    requires Alone(cfg, r.table, r.worker, acts).Some? && Alone(cfg, r.table, r.worker, acts).value.leaked == multiset{}
    ensures Alone(cfg, t, u, [a] + acts) == Alone(cfg, r.table, r.worker, acts)
  {
    hide StepLocal;
    assert ([a] + acts)[1..] == acts;
    var q := Alone(cfg, r.table, r.worker, acts).value;
    assert r.leaked + q.leaked == q.leaked;
  }

  /**
   * A worker that commits in the shrinking phase comes to its end by its own turns, if
   * its replay ends: it stops with nothing held and nothing queued, and its write set has
   * been applied in order.
   */
  lemma CommittingEnds(cfg: Config, s: State, w: nat) returns (acts: seq<Act>, r: Local)
    requires Inv(cfg, s) && WellShaped(s) && w < |s.workers| && s.workers[w].pc.Receiving? && s.workers[w].phase == SHRINKING
    requires FreshOnes(Store(s).Keys, s.table.nextKey, s.workers[w].queue)
    requires Roomy(s.table.size, |s.table.rows|, s.workers[w].queue) && DeletesHeld(ExclusiveKeys(s.workers[w].locks), s.workers[w].queue)
    requires UpdatesStop(s.table, s.workers[w].(pc := Replaying))
    ensures acts != [] && acts[0] == Receive(CommitTxn) && forall i :: 0 < i < |acts| ==> acts[i] == Proceed
    ensures Exec(cfg, s, By(w, acts)) == Some(Put(s, w, r)) && r.leaked == multiset{}
    ensures r.worker.pc.Stopped? && r.worker.queue == [] && Held(r.worker.locks) == multiset{} && TableOk(r.table)
    ensures DataOf(Tables.View(r.table.rows)) == Replayed(Store(s), s.table.nextKey, AllRekeyed(s.workers[w].queue))
  {
    hide Inv, StepLocal, Alone, Exec, Tables.View, TableOk, DataOf, Replayed, FreshOnes, Roomy, DeletesHeld, UpdatesStop, Drain, ReleaseFrom, HeldFrom;
    var t, u := s.table, s.workers[w];
    var u1 := u.(pc := Replaying);
    var s1 := State(t, s.workers[w := u1], s.leaks);
    EndRequest(cfg, t, u);
    BeginsReplaying(cfg, s, w, s1);
    DrainExactly(cfg, s1, w);
    var d := Drain(t, u1).value;
    var s2 := State(d.table, s1.workers[w := d.worker], s.leaks);
    InvShaped(cfg, s2);
    ReleaseLoopExact(cfg, s2, w);
    var more: seq<Act>;
    more, r := ReleasingEnds(cfg, d.table, d.worker);
    DrainIsSteps(cfg, t, u1);
    var turns := seq(|u.queue| + 1, _ => Proceed);
    AloneBack(cfg, t, u1, turns, d.(leaked := multiset{}), more, r);
    AloneFront(cfg, t, u, Receive(CommitTxn), turns + more, Only(u1, t));
    acts := [Receive(CommitTxn)] + (turns + more);
    AloneIsRun(cfg, s, w, acts);
    SameRecords(Tables.View(d.table.rows), Tables.View(r.table.rows), Claims(d.worker));
  }

  lemma BeginsReplaying(cfg: Config, s: State, w: nat, s1: State)
    requires Inv(cfg, s) && WellShaped(s) && w < |s.workers| && s.workers[w].pc.Receiving? && s.workers[w].phase == SHRINKING
    requires s1 == State(s.table, s.workers[w := s.workers[w].(pc := Replaying)], s.leaks)
    ensures Inv(cfg, s1) && WellShaped(s1)
  {
    hide Inv, StepLocal;
    EndRequest(cfg, s.table, s.workers[w]);
    assert s.leaks + multiset{} == s.leaks;
    assert Step(cfg, s, w, Receive(CommitTxn)) == Some(s1);
    StepKeepsInv(cfg, s, w, Receive(CommitTxn));
  }

  lemma AloneBack(cfg: Config, t: Tables.Table, u: Worker, a: seq<Act>, d: Local, b: seq<Act>, r: Local)
    requires Alone(cfg, t, u, a) == Some(d) && d.leaked == multiset{} && Alone(cfg, d.table, d.worker, b) == Some(r) && r.leaked == multiset{}
    ensures Alone(cfg, t, u, a + b) == Some(r)
  {
    hide Alone;
    AloneConcat(cfg, t, u, a, b);
    assert d.leaked + r.leaked == r.leaked;
  }

  lemma SameRecords(v: View, v': View, h: multiset<Lock>)
    requires v'.Keys == v.Keys && forall k :: k in v ==> v'[k] == v[k].(lock := After(v[k].lock, h, k))
    ensures DataOf(v') == DataOf(v)
  {
  }

  // ---- What a commit applies is what its client was granted ----

  /** The item that a request adds to the queue, if the worker grants it. */
  ghost function Granted(cfg: Config, w: Worker, a: Act): seq<Commit> {
    if !w.pc.Receiving? || |w.queue| >= cfg.maxCommits then []
    else
      match a
      case Receive(AddTuple(tbl, student)) => if tbl == Some(1) then [AddItem(1, student)] else []
      case Receive(UpdateRow(tbl, key, student)) =>
        if tbl == Some(1) && key.Some? && Lock(UniqueKey(1, key.value), EXCLUSIVE) in Held(w.locks)
        then [UpdateItem(UniqueKey(1, key.value), StudentTuple(student, cfg.stamp(key.value)))] else []
      case Receive(DeleteRow(tbl, key)) =>
        if tbl == Some(1) && key.Some? && Lock(UniqueKey(1, key.value), EXCLUSIVE) in Held(w.locks)
        then [DeleteItem(UniqueKey(1, key.value))] else []
      case _ => []
  }

  /** The requests granted since the worker last started, as they stand after one more act. */
  ghost function Noted(cfg: Config, w: Worker, a: Act, asked: seq<Commit>): seq<Commit> {
    if a.Start? then [] else asked + Granted(cfg, w, a)
  }

  /** The worker has not begun to end its transaction. */
  predicate Serving(w: Worker) { !w.pc.Replaying? && !w.pc.Releasing? && !w.pc.Stopped? }

  /** Nothing but a granted request changes the queue of a worker that goes on serving. */
  lemma QueueStep(cfg: Config, t: Tables.Table, w: Worker, c: multiset<Lock>, a: Act)
    requires Ready(cfg, t, w, c) && Shaped(t, w) && StepLocal(cfg, t, w, a).Some? && (Serving(w) || a.Start?)
    ensures var w' := StepLocal(cfg, t, w, a).value.worker;
            w'.queue == if a.Start? then [] else w.queue + Granted(cfg, w, a)
  {
    hide Ready, StepLocal, Held;
    match a {
      case Receive(AddTuple(tbl, student)) => OnlyReceiving(cfg, t, w, a); AddRequest(cfg, t, w, tbl, student);
      case Receive(UpdateRow(tbl, key, student)) => OnlyReceiving(cfg, t, w, a); UpdateRequest(cfg, t, w, c, tbl, key, student);
      case Receive(DeleteRow(tbl, key)) => OnlyReceiving(cfg, t, w, a); DeleteRequest(cfg, t, w, c, tbl, key);
      case Start => StopAndStart(cfg, t, w);
      case _ => OtherKeepsQueue(cfg, t, w, a);
    }
  }

  lemma OnlyReceiving(cfg: Config, t: Tables.Table, w: Worker, a: Act)
    requires Shaped(t, w) && a.Receive? && StepLocal(cfg, t, w, a).Some?
    ensures w.pc.Receiving?
  {
  }

  lemma OtherKeepsQueue(cfg: Config, t: Tables.Table, w: Worker, a: Act)
    requires Shaped(t, w) && StepLocal(cfg, t, w, a).Some? && Serving(w) && !a.Start?
    requires a.Receive? ==> !a.request.AddTuple? && !a.request.UpdateRow? && !a.request.DeleteRow?
    ensures StepLocal(cfg, t, w, a).value.worker.queue == w.queue
  {
    hide GetLock, SearchLock, SeekLock, RmLock, AddLock, InsertSlot, PromoteLock, Tables.Release, Tables.SeekRow,
         Tables.SharedScan, Tables.ExclusiveScan, Tables.GrantShared, Tables.GrantExclusive, Tables.PromoteAt;
  }

  /** Who has been granted what, worker by worker. */
  type Notes = seq<seq<Commit>>

  ghost predicate NotesTrue(s: State, notes: Notes) {
    |notes| == |s.workers| && forall w :: 0 <= w < |notes| && Serving(s.workers[w]) ==> s.workers[w].queue == notes[w]
  }

  lemma NotesStep(cfg: Config, s: State, w: nat, a: Act, notes: Notes)
    requires Inv(cfg, s) && WellShaped(s) && w < |s.workers| && Step(cfg, s, w, a).Some? && NotesTrue(s, notes)
    ensures NotesTrue(Step(cfg, s, w, a).value, notes[w := Noted(cfg, s.workers[w], a, notes[w])])
  {
    hide Inv, StepLocal, Granted;
    InvReady(cfg, s, w);
    var s' := Step(cfg, s, w, a).value;
    if Serving(s'.workers[w]) {
      ServingFrom(cfg, s.table, s.workers[w], a);
      QueueStep(cfg, s.table, s.workers[w], Total(s), a);
    }
  }

  lemma ServingFrom(cfg: Config, t: Tables.Table, w: Worker, a: Act)
    requires Shaped(t, w) && StepLocal(cfg, t, w, a).Some? && Serving(StepLocal(cfg, t, w, a).value.worker)
    ensures Serving(w) || a.Start?
  {
    if w.pc.Replaying? && a.Proceed? && w.queue != [] { ItemKeepsPc(t, w, w.queue[0]); }
    hide GetLock, SearchLock, SeekLock, RmLock, AddLock, InsertSlot, PromoteLock, NextLive, ReplayItem, Tables.Release, Tables.SeekRow,
         Tables.SharedScan, Tables.ExclusiveScan, Tables.GrantShared, Tables.GrantExclusive, Tables.PromoteAt;
  }

  ghost function NotesAfter(cfg: Config, s: State, ls: seq<Label>, notes: Notes): Notes
    requires Exec(cfg, s, ls).Some? && |notes| == |s.workers|
    decreases |ls|
  {
    if ls == [] then notes
    else
      var w, a := ls[0].worker, ls[0].act;
      NotesAfter(cfg, Step(cfg, s, w, a).value, ls[1..], notes[w := Noted(cfg, s.workers[w], a, notes[w])])
  }

  /** After any run a serving worker's queue is exactly what it has been granted since it started, in the order it was sent. */
  lemma {:induction false} QueueIsGranted(cfg: Config, s: State, ls: seq<Label>, notes: Notes)
    requires Inv(cfg, s) && TameRun(cfg, s, ls) && Exec(cfg, s, ls).Some? && NotesTrue(s, notes)
    ensures NotesTrue(Exec(cfg, s, ls).value, NotesAfter(cfg, s, ls, notes))
    decreases |ls|
  {
    hide Inv, StepLocal, Tame, Noted;
    if ls != [] {
      var w, a := ls[0].worker, ls[0].act;
      NotesStep(cfg, s, w, a, notes);
      StepKeepsInv(cfg, s, w, a);
      QueueIsGranted(cfg, Step(cfg, s, w, a).value, ls[1..], notes[w := Noted(cfg, s.workers[w], a, notes[w])]);
    }
  }

  /** The atomic store driven by what clients were granted: the workers' queues play no part in it. */
  ghost function RequestedRun(cfg: Config, d: Data, s: State, ls: seq<Label>, notes: Notes): Data
    requires Exec(cfg, s, ls).Some? && |notes| == |s.workers|
    decreases |ls|
  {
    if ls == [] then d
    else
      var w, a := ls[0].worker, ls[0].act;
      var d' := if BeginsCommit(s.workers[w], a) then ApplyItems(d, notes[w])
                else if EventOf(s.table, s.workers[w], a).Insertion? then Apply(d, EventOf(s.table, s.workers[w], a))
                else d;
      RequestedRun(cfg, d', Step(cfg, s, w, a).value, ls[1..], notes[w := Noted(cfg, s.workers[w], a, notes[w])])
  }

  lemma {:induction false} QueuesAreRequests(cfg: Config, d: Data, s: State, ls: seq<Label>, notes: Notes)
    requires Inv(cfg, s) && TameRun(cfg, s, ls) && Exec(cfg, s, ls).Some? && NotesTrue(s, notes)
    ensures SpecRun(cfg, d, s, ls) == RequestedRun(cfg, d, s, ls, notes)
    decreases |ls|
  {
    hide Inv, StepLocal, EventOf, Tame, Noted, ApplyItems, Apply;
    if ls != [] {
      var w, a := ls[0].worker, ls[0].act;
      NotesStep(cfg, s, w, a, notes);
      StepKeepsInv(cfg, s, w, a);
      QueuesAreRequests(cfg, SpecStep(d, s.table, s.workers[w], a), Step(cfg, s, w, a).value, ls[1..],
                        notes[w := Noted(cfg, s.workers[w], a, notes[w])]);
    }
  }

  /**
   * Serialisability in terms of what clients sent: with no commit under way, the records
   * are those of a store to which each commit, when it began, applied the updates and
   * deletions its worker had granted since it started, in the order they were sent.
   */
  lemma CommitsAreRequests(cfg: Config, s: State, ls: seq<Label>)
    requires Initial(s) && TameRun(cfg, s, ls) && Exec(cfg, s, ls).Some? && CourteousRun(cfg, s, ls)
    requires forall w :: 0 <= w < |Exec(cfg, s, ls).value.workers| ==> !Exec(cfg, s, ls).value.workers[w].pc.Replaying?
    ensures Store(Exec(cfg, s, ls).value) == RequestedRun(cfg, map[], s, ls, seq(|s.workers|, _ => []))
  {
    NothingNoted(s);
    hide Inv, Initial, TameRun, CourteousRun, Exec, SpecRun, RequestedRun, Store, NotesTrue;
    CommitsAreSerial(cfg, s, ls);
    InitialSettled(cfg, s);
    QueuesAreRequests(cfg, map[], s, ls, seq(|s.workers|, _ => []));
  }

  lemma NothingNoted(s: State)
    requires Initial(s)
    ensures NotesTrue(s, seq(|s.workers|, _ => []))
  {
  }
}
