/** When the loops of a worker end, and what the commit loop and the release loop do as wholes. */
module Progress {
  import opened Basics
  import opened StudentTuples
  import opened LockLists
  import opened Workers
  import opened Protocol
  import opened Runs
  import opened Transactions
  import opened Commits
  import opened InTurn
  import OA = OpenAddressing
  import Tables = StudentTables

  /** The one place where a worker may have to wait without a timeout: an insertion into a full table. */
  predicate WaitsForRoom(s: State, w: nat)
    requires w < |s.workers|
  {
    var u := s.workers[w];
    u.pc.Replaying? && u.queue != [] && u.queue[0].AddItem? && u.queue[0].tbl == STUDENT_TBL && s.table.size == |s.table.rows|
  }

  /** One of the worker's own acts is enabled. */
  predicate CanMove(cfg: Config, t: Tables.Table, w: Worker)
    requires Shaped(t, w)
  {
    StepLocal(cfg, t, w, Check).Some? || StepLocal(cfg, t, w, Timeout).Some? || StepLocal(cfg, t, w, Proceed).Some?
  }

  /** The replay of a DELETE ends exactly when the worker's list still holds the row. */
  lemma DeleteEnds(cfg: Config, t: Tables.Table, w: Worker, c: multiset<Lock>)
    requires Ready(cfg, t, w, c) && Shaped(t, w) && w.pc.Replaying? && w.queue != [] && w.queue[0].DeleteItem?
    ensures ReplayTurn(t, w).Some? <==> Lock(w.queue[0].key, EXCLUSIVE) in Held(w.locks)
  {
    var k := w.queue[0].key;
    assert k.tbl == STUDENT_TBL && Lock(k, SHARED) !in Held(w.locks);
    hide ListOk, NoStale, QueueOk, TableOk, Balanced, Tables.View, HeldFrom, PcOk, GetLock, SeekLock, RmLock, Tables.Remove, Tables.SeekRow;
    ReadyFacts(cfg, t, w, c);
    DeleteFindsLock(cfg, Tables.View(t.rows), w, k);
    if Lock(k, EXCLUSIVE) in Held(w.locks) {
      assert Lock(k, EXCLUSIVE) in c;
      ClaimedRow(Tables.View(t.rows), c, Lock(k, EXCLUSIVE));
      TableValid(t);
      Tables.LiveKeyFound(t, k.key);
    }
  }

  lemma TableValid(t: Tables.Table)
    requires TableOk(t)
    ensures Tables.Valid(t) && Tables.Exact(t)
  {
  }

  /** The replay of an UPDATE ends exactly when some slot carries the tuple's own key and no tombstone mark. */
  lemma UpdateEnds(t: Tables.Table, w: Worker)
    requires Shaped(t, w) && w.queue != [] && w.queue[0].UpdateItem? && w.queue[0].key.tbl == STUDENT_TBL
    ensures ReplayTurn(t, w).Some? <==> Stops(t, w.queue[0].tuple.key)
  {
    hide Tables.SeekRow, Tables.Write;
    Tables.SeekEnds(t, w.queue[0].tuple.key);
  }

  /** Some slot would stop an unbounded probe for `k`. */
  predicate Stops(t: Tables.Table, k: nat) {
    exists i :: 0 <= i < |t.rows| && t.rows[i].key == k && !t.rows[i].deleted
  }

  /**
   * The worker can do nothing more for now, or for good: it waits to insert into a full
   * table, or it is in a probing loop for a DELETE of a row that it no longer holds, or
   * for an UPDATE whose tuple carries a key that no slot would stop at.
   */
  predicate Blocked(t: Tables.Table, w: Worker) {
    w.pc.Replaying? && w.queue != []
    && match w.queue[0]
       case AddItem(tbl, student) => tbl == STUDENT_TBL && t.size == |t.rows|
       case DeleteItem(k) => Lock(k, EXCLUSIVE) !in Held(w.locks)
       case UpdateItem(k, tuple) => !Stops(t, tuple.key)
  }

  /** A replay turn is made exactly when the worker is not blocked. */
  lemma TurnEnds(cfg: Config, t: Tables.Table, w: Worker, c: multiset<Lock>)
    requires Ready(cfg, t, w, c) && Shaped(t, w) && w.pc.Replaying?
    ensures ReplayTurn(t, w).Some? <==> !Blocked(t, w)
  {
    hide ListOk, NoStale, TableOk, Balanced, Tables.View, Tables.Valid, HeldFrom, Stops,
         Tables.SeekRow, Tables.Write, Tables.Remove, Tables.Insert, Tables.InsertSlot, RmLock, SeekLock;
    TableValid(t);
    if w.queue != [] {
      match w.queue[0] {
        case AddItem(tbl, student) => Tables.InsertEnds(t);
        case DeleteItem(k) => DeleteEnds(cfg, t, w, c);
        case UpdateItem(k, tuple) => UpdateEnds(t, w);
      }
    }
  }

  /** In an orderly state only a full table blocks. */
  lemma OrderlyBlocked(cfg: Config, s: State, w: nat)
    requires Inv(cfg, s) && Orderly(s) && w < |s.workers|
    ensures Blocked(s.table, s.workers[w]) <==> WaitsForRoom(s, w)
  {
    var t, u := s.table, s.workers[w];
    InvReady(cfg, s, w);
    ReadyFacts(cfg, t, u, Total(s));
    TableValid(t);
    assert OrderlyWorker(u);
    hide Inv, Orderly, OrderlyWorker, WorkerOk, ListOk, NoStale, TableOk, Balanced, Tables.View, Tables.Valid, Claims, HeldFrom, Tables.SeekRow;
    if u.pc.Replaying? && u.queue != [] {
      HeadHeld(u);
      if u.queue[0].UpdateItem? {
        var k := u.queue[0].key;
        assert Lock(k, EXCLUSIVE) in Claims(u) by { ClaimsHeld(u); }
        assert k.tbl == STUDENT_TBL by { StudentLock(u.locks, Lock(k, EXCLUSIVE)); }
        WorkerClaimsRow(cfg, s, w, Lock(k, EXCLUSIVE));
        Tables.LiveKeyFound(t, k.key);
        Tables.SeekEnds(t, k.key);
      }
    }
  }

  /** A replay turn of an orderly worker is blocked only by a full table. */
  lemma ReplayMoves(cfg: Config, s: State, w: nat)
    requires Inv(cfg, s) && Orderly(s) && WellShaped(s) && w < |s.workers| && s.workers[w].pc.Replaying?
    ensures StepLocal(cfg, s.table, s.workers[w], Proceed).Some? <==> !WaitsForRoom(s, w)
  {
    hide Inv, Orderly, ReplayTurn;
    InvReady(cfg, s, w);
    OrderlyBlocked(cfg, s, w);
    TurnEnds(cfg, s.table, s.workers[w], Total(s));
  }

  lemma HeadHeld(w: Worker)
    requires OrderlyWorker(w) && w.pc.Replaying? && w.queue != []
    ensures !w.queue[0].AddItem? ==> Lock(w.queue[0].key, EXCLUSIVE) in Held(w.locks)
    ensures w.queue[0].UpdateItem? ==> w.queue[0].tuple.key == w.queue[0].key.key
  {
  }

  lemma ClaimsHeld(w: Worker)
    requires !w.pc.Releasing?
    ensures Claims(w) == Held(w.locks)
  {
  }

  /** In every state the invariant admits, a worker that has not stopped can move exactly when it is not blocked. */
  lemma NobodyHangs(cfg: Config, s: State, w: nat)
    requires Inv(cfg, s) && WellShaped(s) && w < |s.workers| && !s.workers[w].pc.Stopped?
    ensures CanMove(cfg, s.table, s.workers[w]) <==> !Blocked(s.table, s.workers[w])
  {
    hide Inv, CanMove, ReplayTurn;
    InvReady(cfg, s, w);
    if s.workers[w].pc.Replaying? {
      ReplayingMoves(cfg, s.table, s.workers[w]);
      TurnEnds(cfg, s.table, s.workers[w], Total(s));
    } else {
      MovesOutsideReplay(cfg, s.table, s.workers[w], Total(s));
    }
  }

  lemma ReplayingMoves(cfg: Config, t: Tables.Table, w: Worker)
    requires Shaped(t, w) && w.pc.Replaying?
    ensures CanMove(cfg, t, w) <==> ReplayTurn(t, w).Some?
  {
    hide ReplayTurn;
  }

  /** With courteous clients every worker can move but one that waits to insert into a full table. */
  lemma OrderlyNobodyHangs(cfg: Config, s: State, w: nat)
    requires Inv(cfg, s) && Orderly(s) && WellShaped(s) && w < |s.workers| && !s.workers[w].pc.Stopped?
    ensures CanMove(cfg, s.table, s.workers[w]) <==> !WaitsForRoom(s, w)
  {
    hide Inv, Orderly, Blocked, CanMove;
    NobodyHangs(cfg, s, w);
    OrderlyBlocked(cfg, s, w);
  }

  lemma MovesOutsideReplay(cfg: Config, t: Tables.Table, w: Worker, c: multiset<Lock>)
    requires Ready(cfg, t, w, c) && Shaped(t, w) && !w.pc.Stopped? && !w.pc.Replaying?
    ensures CanMove(cfg, t, w)
  {
    hide Ready, CallShared, CallExclusive, Park, ReleaseTurn, Unpark, Serve, ReplayTurn, CheckRetry, Accounted;
    match w.pc {
      case Calling(WantShared, n) => if t.sAvail > 0 { SharedEnds(cfg, t, w, c); }
      case Calling(WantExclusive, n) => if t.xAvail > 0 { ExclusiveAccounted(cfg, t, w, c); }
      case Calling(WantPromote(k), n) => ParkAccounted(cfg, t, w, c);
      case Parked(k, n, i) =>
        SlotThere(cfg, t, w, c);
        if t.rows[i].value.lock == 1 { UnparkEnds(cfg, t, w, c); }
      case Releasing(i) => ReleaseAccounted(cfg, t, w, c);
      case _ =>
    }
  }

  lemma SlotThere(cfg: Config, t: Tables.Table, w: Worker, c: multiset<Lock>)
    requires Ready(cfg, t, w, c) && w.pc.Parked?
    ensures w.pc.slot < |t.rows|
  {
    hide Ready;
    ParkedRow(cfg, t, w, c);
  }

  lemma SharedEnds(cfg: Config, t: Tables.Table, w: Worker, c: multiset<Lock>)
    requires Ready(cfg, t, w, c) && w.pc.Calling? && t.sAvail > 0
    ensures Shaped(t, w) && CallShared(t, w, w.pc.tries).Some?
    ensures Tables.SharedScan(t).Some?
  {
    hide NoStale, QueueOk, Balanced, HeldFrom, Tables.GrantShared, Tables.View;
    Tables.SharedScanFinds(t);
    AddLockEffect(w.locks, Lock(UniqueKey(STUDENT_TBL, t.rows[Tables.SharedScan(t).value].key), SHARED));
  }

  lemma UnparkEnds(cfg: Config, t: Tables.Table, w: Worker, c: multiset<Lock>)
    requires Ready(cfg, t, w, c) && w.pc.Parked?
    requires Shaped(t, w) && w.pc.slot < |t.rows| && t.rows[w.pc.slot].value.lock == 1
    ensures Unpark(t, w, w.pc.key, w.pc.slot).Some?
  {
    hide NoStale, QueueOk, Balanced, HeldFrom, TableOk, Tables.View, Tables.PromoteAt, PromoteLock;
  }

  // ---- The commit loop as a whole ----

  /** The whole commit loop with nobody else in between; None when it blocks or when one of its probe loops would not end. */
  function Drain(t: Tables.Table, w: Worker): Option<Local>
    requires Shaped(t, w)
    decreases |w.queue|
  {
    match ReplayTurn(t, w)
    case None => None
    case Some(r) => if w.queue == [] then Some(r) else Drain(r.table, r.worker)
  }

  /** Every insertion of the queue finds room in a table of `room` rows, of which `size` are taken at first. */
  predicate Roomy(size: int, room: int, items: seq<Commit>)
    decreases |items|
  {
    items == []
    || match items[0]
       case AddItem(tbl, student) => if tbl == STUDENT_TBL then size != room && Roomy(size + 1, room, items[1..]) else Roomy(size, room, items[1..])
       case DeleteItem(k) => Roomy(size - 1, room, items[1..])
       case UpdateItem(k, tuple) => Roomy(size, room, items[1..])
  }

  /** No insertion of the queue is given a key that is in use by then. */
  predicate FreshOnes(keys: set<nat>, next: nat, items: seq<Commit>)
    decreases |items|
  {
    items == []
    || match items[0]
       case AddItem(tbl, student) =>
         if tbl == STUDENT_TBL then next !in keys && FreshOnes(keys + {next}, (next + 1) % Tables.KEY_SPACE, items[1..])
         else FreshOnes(keys, next, items[1..])
       case DeleteItem(k) => FreshOnes(keys - {k.key}, next, items[1..])
       case UpdateItem(k, tuple) => FreshOnes(keys, next, items[1..])
  }

  /** Every key of the queue's deletions is held when its turn comes: deleted at most once, and held at first. */
  predicate DeletesHeld(keys: set<UniqueKey>, items: seq<Commit>)
    decreases |items|
  {
    items != [] ==>
      if items[0].DeleteItem? then items[0].key in keys && DeletesHeld(keys - {items[0].key}, items[1..])
      else DeletesHeld(keys, items[1..])
  }

  function ExclusiveKeys(l: LockList): set<UniqueKey> { set x | x in Held(l) && x.mode == EXCLUSIVE :: x.key }

  /** Every UPDATE of the queue finds a slot to stop at when its turn comes. */
  predicate UpdatesStop(t: Tables.Table, w: Worker)
    requires Shaped(t, w) && w.pc.Replaying?
    decreases |w.queue|
  {
    w.queue != [] ==>
      && (w.queue[0].UpdateItem? ==> Stops(t, w.queue[0].tuple.key))
      && match ReplayTurn(t, w)
         case None => true
         case Some(r) => TurnLeaksNothing(t, w); UpdatesStop(r.table, r.worker)
  }

  /** An UPDATE as it is carried out: of the row that its tuple names. */
  function Rekeyed(item: Commit): Commit { if item.UpdateItem? then UpdateItem(Row(item.tuple.key), item.tuple) else item }

  function AllRekeyed(items: seq<Commit>): seq<Commit> { seq(|items|, i requires 0 <= i < |items| => Rekeyed(items[i])) }

  /**
   * The whole commit loop of any worker, however its queue came about, ends exactly when
   * every insertion finds room, no key is deleted that is not held by then, and every
   * UPDATE finds a slot to stop at; then the write set has been applied in its order, each
   * UPDATE to the row its tuple names, and what it adds filed under the next keys.
   */
  lemma {:induction false} DrainExactly(cfg: Config, s: State, w: nat)
    requires Inv(cfg, s) && WellShaped(s) && w < |s.workers| && s.workers[w].pc.Replaying?
    requires FreshOnes(Store(s).Keys, s.table.nextKey, s.workers[w].queue)
    ensures var t, u := s.table, s.workers[w];
            Drain(t, u).Some? <==>
            Roomy(t.size, |t.rows|, u.queue) && DeletesHeld(ExclusiveKeys(u.locks), u.queue) && UpdatesStop(t, u)
    ensures Drain(s.table, s.workers[w]).Some? ==>
              var r := Drain(s.table, s.workers[w]).value;
              && r.worker.queue == [] && r.worker.pc == Releasing(0)
              && DataOf(Tables.View(r.table.rows)) == Replayed(Store(s), s.table.nextKey, AllRekeyed(s.workers[w].queue))
              && Inv(cfg, State(r.table, s.workers[w := r.worker], s.leaks))
    decreases |s.workers[w].queue|
  {
    hide Inv, Tables.View, ApplyItem, EventOf, ReplayItem, ReplayTurn, Tame, DataOf, Stops, Held, ExclusiveKeys;
    var t, u := s.table, s.workers[w];
    InvReady(cfg, s, w);
    TurnEnds(cfg, t, u, Total(s));
    if !Blocked(t, u) {
      DrainTurn(cfg, s, w);
      if u.queue != [] {
        var s' := Step(cfg, s, w, Proceed).value;
        DrainExactly(cfg, s', w);
        var r := Drain(s'.table, s'.workers[w]);
        if r.Some? { assert s'.workers[w := r.value.worker] == s.workers[w := r.value.worker]; }
      } else {
        assert AllRekeyed([]) == [];
        EmptyDrain(t, u);
      }
    } else {
      ExclusiveKeyHeld(u.locks, if u.queue[0].DeleteItem? then u.queue[0].key else Row(0));
    }
  }

  lemma EmptyDrain(t: Tables.Table, w: Worker)
    requires Shaped(t, w) && w.queue == []
    ensures ReplayTurn(t, w) == Some(Local(w.(pc := Releasing(0)), t, multiset{}))
  {
  }

  lemma ExclusiveKeyHeld(l: LockList, k: UniqueKey)
    ensures k in ExclusiveKeys(l) <==> Lock(k, EXCLUSIVE) in Held(l)
  {
  }

  /** With orderly queues only room is left to ask for, and every UPDATE goes where it should. */
  lemma DrainApplies(cfg: Config, s: State, w: nat)
    requires Inv(cfg, s) && Orderly(s) && WellShaped(s) && w < |s.workers| && s.workers[w].pc.Replaying?
    requires FreshOnes(Store(s).Keys, s.table.nextKey, s.workers[w].queue)
    ensures Drain(s.table, s.workers[w]).Some? <==> Roomy(s.table.size, |s.table.rows|, s.workers[w].queue)
    ensures Drain(s.table, s.workers[w]).Some? ==>
              var r := Drain(s.table, s.workers[w]).value;
              && r.worker.queue == [] && r.worker.pc == Releasing(0)
              && DataOf(Tables.View(r.table.rows)) == Replayed(Store(s), s.table.nextKey, s.workers[w].queue)
              && Inv(cfg, State(r.table, s.workers[w := r.worker], s.leaks))
  {
    hide Inv, Orderly, Store, Drain, Replayed, Roomy, DeletesHeld, UpdatesStop, ExclusiveKeys, AllRekeyed;
    DrainExactly(cfg, s, w);
    OrderlyDeletes(cfg, s, w);
    OrderlyStops(cfg, s, w);
    OrderlyKeys(cfg, s, w);
  }

  lemma OrderlyDeletes(cfg: Config, s: State, w: nat)
    requires Orderly(s) && w < |s.workers| && s.workers[w].pc.Replaying?
    ensures DeletesHeld(ExclusiveKeys(s.workers[w].locks), s.workers[w].queue)
  {
    hide Held;
    assert OrderlyWorker(s.workers[w]);
    DeletesOnce(ExclusiveKeys(s.workers[w].locks), s.workers[w].queue);
  }

  lemma {:induction false} DeletesOnce(keys: set<UniqueKey>, items: seq<Commit>)
    requires WellFormed(items) && forall i :: 0 <= i < |items| && !items[i].AddItem? ==> items[i].key in keys
    ensures DeletesHeld(keys, items)
    decreases |items|
  {
    if items != [] {
      var rest := items[1..];
      assert forall i :: 0 <= i < |rest| ==> rest[i] == items[i + 1];
      DeletesOnce(if items[0].DeleteItem? then keys - {items[0].key} else keys, rest);
    }
  }

  lemma {:induction false} OrderlyStops(cfg: Config, s: State, w: nat)
    requires Inv(cfg, s) && Orderly(s) && WellShaped(s) && w < |s.workers| && s.workers[w].pc.Replaying?
    requires FreshOnes(Store(s).Keys, s.table.nextKey, s.workers[w].queue)
    ensures UpdatesStop(s.table, s.workers[w])
    decreases |s.workers[w].queue|
  {
    hide Inv, Orderly, Tables.View, ReplayTurn, Tame, Store, Stops, Held, FreshOnes, Roomy, Replayed;
    var t, u := s.table, s.workers[w];
    if u.queue != [] {
      OrderlyBlocked(cfg, s, w);
      InvReady(cfg, s, w);
      TurnEnds(cfg, t, u, Total(s));
      if !Blocked(t, u) {
        DrainTurn(cfg, s, w);
        StepKeepsOrderly(cfg, s, w, Proceed);
        OrderlyStops(cfg, Step(cfg, s, w, Proceed).value, w);
      }
    }
  }

  lemma OrderlyKeys(cfg: Config, s: State, w: nat)
    requires Inv(cfg, s) && Orderly(s) && w < |s.workers|
    ensures AllRekeyed(s.workers[w].queue) == s.workers[w].queue
  {
    hide Inv;
    HeadStamped(cfg, s, w);
    assert OrderlyWorker(s.workers[w]);
  }

  /** The whole loop is what the worker's turns do one after another when nobody else steps in between. */
  lemma {:induction false} DrainIsSteps(cfg: Config, t: Tables.Table, w: Worker)
    requires Shaped(t, w) && w.pc.Replaying? && Drain(t, w).Some?
    ensures Alone(cfg, t, w, seq(|w.queue| + 1, _ => Proceed)) == Some(Drain(t, w).value.(leaked := multiset{}))
    decreases |w.queue|
  {
    hide ReplayTurn, Alone;
    var r := ReplayTurn(t, w).value;
    TurnLeaksNothing(t, w);
    AloneFirst(cfg, t, w, Proceed, |w.queue|, r);
    if w.queue != [] {
      DrainIsSteps(cfg, r.table, r.worker);
    } else {
      AloneNothing(cfg, r);
    }
  }

  /** One turn of a worker that is not blocked. */
  lemma DrainTurn(cfg: Config, s: State, w: nat)
    requires Inv(cfg, s) && WellShaped(s) && w < |s.workers| && s.workers[w].pc.Replaying?
    requires ReplayTurn(s.table, s.workers[w]).Some? && !Blocked(s.table, s.workers[w])
    requires FreshOnes(Store(s).Keys, s.table.nextKey, s.workers[w].queue)
    ensures Enabled(cfg, s, w, Proceed)
    ensures Step(cfg, s, w, Proceed) == Some(Put(s, w, ReplayTurn(s.table, s.workers[w]).value))
    ensures var s', q := Step(cfg, s, w, Proceed).value, s.workers[w].queue;
            && WellShaped(s') && Inv(cfg, s') && s'.leaks == s.leaks && |s'.table.rows| == |s.table.rows|
            && (q == [] ==> Store(s') == Store(s))
            && (q != [] ==>
                  && s'.workers[w].pc.Replaying? && s'.workers[w].queue == q[1..]
                  && Replayed(Store(s'), s'.table.nextKey, AllRekeyed(q[1..])) == Replayed(Store(s), s.table.nextKey, AllRekeyed(q))
                  && FreshOnes(Store(s').Keys, s'.table.nextKey, q[1..])
                  && (Roomy(s'.table.size, |s'.table.rows|, q[1..]) <==> Roomy(s.table.size, |s.table.rows|, q))
                  && (DeletesHeld(ExclusiveKeys(s'.workers[w].locks), q[1..]) <==> DeletesHeld(ExclusiveKeys(s.workers[w].locks), q)))
  {
    hide Inv, Tables.View, ApplyItem, Apply, EventOf, ReplayTurn, Store, FreshOnes, Roomy, Replayed, DeletesHeld, ExclusiveKeys, Rekeyed, AllRekeyed, Held;
    TurnTame(cfg, s, w);
    StepMoves(cfg, s, w, Proceed);
    TurnLeaksNothing(s.table, s.workers[w]);
    InvShaped(cfg, Step(cfg, s, w, Proceed).value);
    if s.workers[w].queue != [] {
      TurnEvent(cfg, s, w, Store(s));
      HeadStamped(cfg, s, w);
      TurnCounts(s.table, s.workers[w]);
      TurnIsHead(s.table, s.workers[w], Step(cfg, s, w, Proceed).value.table, Store(s), Store(Step(cfg, s, w, Proceed).value),
                 EventOf(s.table, s.workers[w], Proceed), s.workers[w].queue);
      TurnDeletes(cfg, s, w);
    } else {
      EmptyTurn(s.table, s.workers[w], Store(s));
      EmptyDrain(s.table, s.workers[w]);
    }
  }

  /** Unless it is an insertion, the event of a turn carries out the item as it is rekeyed. */
  lemma TurnEvent(cfg: Config, s: State, w: nat, d: Data)
    requires Inv(cfg, s) && WellShaped(s) && w < |s.workers| && s.workers[w].pc.Replaying? && s.workers[w].queue != []
    ensures var e, item := EventOf(s.table, s.workers[w], Proceed), s.workers[w].queue[0];
            if e.Insertion? then item.AddItem? && e == Insertion(s.table.nextKey, item.student)
            else Apply(d, e) == ApplyItem(d, Rekeyed(item))
  {
    hide Inv;
    HeadStamped(cfg, s, w);
  }

  /** A turn takes a key off the list exactly when it is the head's to delete. */
  lemma TurnDeletes(cfg: Config, s: State, w: nat)
    requires Inv(cfg, s) && WellShaped(s) && w < |s.workers| && s.workers[w].pc.Replaying? && s.workers[w].queue != []
    requires ReplayTurn(s.table, s.workers[w]).Some? && !Blocked(s.table, s.workers[w])
    ensures var u, u' := s.workers[w], ReplayTurn(s.table, s.workers[w]).value.worker;
            DeletesHeld(ExclusiveKeys(u'.locks), u.queue[1..]) <==> DeletesHeld(ExclusiveKeys(u.locks), u.queue)
  {
    hide Inv, Tables.View, Held, ExclusiveKeys, RmLock, Tables.SeekRow, Tables.Remove, Tables.Write, Tables.Insert, Tables.InsertSlot, Stops, SeekLock;
    var u := s.workers[w];
    if u.queue[0].DeleteItem? {
      HeadStamped(cfg, s, w);
      ExclusiveKeyHeld(u.locks, u.queue[0].key);
      KeyGone(cfg, s, w, u.queue[0].key);
    }
  }

  lemma KeyGone(cfg: Config, s: State, w: nat, k: UniqueKey)
    requires Inv(cfg, s) && w < |s.workers| && s.workers[w].pc.Replaying? && k.tbl == STUDENT_TBL
    requires Lock(k, EXCLUSIVE) in Held(s.workers[w].locks) && |s.workers[w].locks.slots| > 0 && SeekLock(s.workers[w].locks, k).Some?
    ensures ExclusiveKeys(RmLock(s.workers[w].locks, k)) == ExclusiveKeys(s.workers[w].locks) - {k}
  {
    var u := s.workers[w];
    OnlyOnce(cfg, s, w, k);
    hide Inv, Tables.View, Held, RmLock, SeekLock, GetLock, ExclusiveKeys;
    InvReady(cfg, s, w);
    ReadyFacts(cfg, s.table, u, Total(s));
    DeleteFinds(u.locks, k);
    RmKeeps(u.locks, k);
    KeysWithout(u.locks, RmLock(u.locks, k), k);
  }

  lemma KeysWithout(l: LockList, l': LockList, k: UniqueKey)
    requires Held(l) == Held(l') + multiset{Lock(k, EXCLUSIVE)} && Held(l)[Lock(k, EXCLUSIVE)] == 1
    ensures ExclusiveKeys(l') == ExclusiveKeys(l) - {k}
  {
    hide Held;
    var h, h', x := Held(l), Held(l'), Lock(k, EXCLUSIVE);
    forall y: Lock ensures y in h' && y.mode == EXCLUSIVE <==> y in h && y.mode == EXCLUSIVE && y != x {
      assert h[y] == h'[y] + multiset{x}[y];
    }
    forall j ensures j in ExclusiveKeys(l') <==> j in ExclusiveKeys(l) && j != k {
      ExclusiveKeyHeld(l, j);
      ExclusiveKeyHeld(l', j);
    }
  }

  /** A row held EXCLUSIVE is held once and not shared. */
  lemma OnlyOnce(cfg: Config, s: State, w: nat, k: UniqueKey)
    requires Inv(cfg, s) && w < |s.workers| && !s.workers[w].pc.Releasing? && k.tbl == STUDENT_TBL
    requires Lock(k, EXCLUSIVE) in Held(s.workers[w].locks)
    ensures Held(s.workers[w].locks)[Lock(k, EXCLUSIVE)] == 1 && Lock(k, SHARED) !in Held(s.workers[w].locks)
  {
    hide TableOk, WorkerOk, Tables.View, HeldFrom, AllClaims;
    ClaimsCounted(s.workers, w);
    assert k == Row(k.key);
    assert BalancedAt(Tables.View(s.table.rows), Total(s), k.key);
    var h := Held(s.workers[w].locks);
    assert h[Lock(k, EXCLUSIVE)] <= Total(s)[Lock(k, EXCLUSIVE)] && h[Lock(k, SHARED)] <= Total(s)[Lock(k, SHARED)];
  }

  lemma DeleteFinds(l: LockList, k: UniqueKey)
    requires LockLists.Valid(l) && Lock(k, EXCLUSIVE) in Held(l) && Lock(k, SHARED) !in Held(l)
    ensures GetLock(l, k) == Some(EXCLUSIVE)
  {
    hide HeldFrom, GetLock;
    LookupsAgree(l, k);
    LookupsAnswer(l, k);
  }

  lemma LookupsAnswer(l: LockList, k: UniqueKey)
    requires |l.slots| > 0 && SearchLock(l, k).Some?
    ensures GetLock(l, k).Some? && (GetLock(l, k).value == SHARED || GetLock(l, k).value == EXCLUSIVE)
  {
  }

  lemma TurnTame(cfg: Config, s: State, w: nat)
    requires WellShaped(s) && w < |s.workers| && s.workers[w].pc.Replaying?
    requires FreshOnes(Store(s).Keys, s.table.nextKey, s.workers[w].queue)
    ensures Tame(s.table, s.workers[w], Proceed)
  {
    hide Tables.View;
  }

  /** How a turn moves the row count and the next key. */
  lemma TurnCounts(t: Tables.Table, w: Worker)
    requires Shaped(t, w) && w.pc.Replaying? && w.queue != [] && ReplayTurn(t, w).Some?
    requires !w.queue[0].AddItem? ==> w.queue[0].key.tbl == STUDENT_TBL
    ensures var t', adds := ReplayTurn(t, w).value.table, w.queue[0].AddItem? && w.queue[0].tbl == STUDENT_TBL;
            && |t'.rows| == |t.rows|
            && t'.size == t.size + (if adds then 1 else if w.queue[0].DeleteItem? then -1 else 0)
            && t'.nextKey == (if adds then (t.nextKey + 1) % Tables.KEY_SPACE else t.nextKey)
            && (EventOf(t, w, Proceed).Insertion? <==> adds)
  {
  }

  /** What a turn does to the records is what the predicates of the queue take off its head. */
  lemma TurnIsHead(t: Tables.Table, w: Worker, t': Tables.Table, d: Data, d': Data, e: Event, q: seq<Commit>)
    requires q != [] && d' == Apply(d, e) && |t'.rows| == |t.rows| && FreshOnes(d.Keys, t.nextKey, q)
    requires e.Insertion? <==> q[0].AddItem? && q[0].tbl == STUDENT_TBL
    requires if e.Insertion? then e == Insertion(t.nextKey, q[0].student) else Apply(d, e) == ApplyItem(d, Rekeyed(q[0]))
    requires t'.size == t.size + (if e.Insertion? then 1 else if q[0].DeleteItem? then -1 else 0)
    requires t'.nextKey == (if e.Insertion? then (t.nextKey + 1) % Tables.KEY_SPACE else t.nextKey)
    requires e.Insertion? ==> t.size != |t.rows|
    ensures Replayed(d', t'.nextKey, AllRekeyed(q[1..])) == Replayed(d, t.nextKey, AllRekeyed(q))
    ensures FreshOnes(d'.Keys, t'.nextKey, q[1..])
    ensures Roomy(t'.size, |t'.rows|, q[1..]) <==> Roomy(t.size, |t.rows|, q)
  {
    hide Apply, ApplyItem, Replayed, FreshOnes, Roomy, AllRekeyed, Rekeyed;
    ReplayedTurn(d, t.nextKey, e, q);
    FreshTurn(d, t.nextKey, e, q);
    RoomyHead(t.size, |t.rows|, q);
  }

  lemma ReplayedTurn(d: Data, next: nat, e: Event, q: seq<Commit>)
    requires q != [] && (e.Insertion? <==> q[0].AddItem? && q[0].tbl == STUDENT_TBL)
    requires if e.Insertion? then e == Insertion(next, q[0].student) else Apply(d, e) == ApplyItem(d, Rekeyed(q[0]))
    ensures Replayed(d, next, AllRekeyed(q)) ==
            Replayed(Apply(d, e), if e.Insertion? then (next + 1) % Tables.KEY_SPACE else next, AllRekeyed(q[1..]))
  {
    RekeyedHead(q);
    hide ApplyItem, Replayed, AllRekeyed;
    ReplayedHead(d, next, AllRekeyed(q));
  }

  lemma FreshTurn(d: Data, next: nat, e: Event, q: seq<Commit>)
    requires q != [] && (e.Insertion? <==> q[0].AddItem? && q[0].tbl == STUDENT_TBL) && FreshOnes(d.Keys, next, q)
    requires if e.Insertion? then e == Insertion(next, q[0].student) else Apply(d, e) == ApplyItem(d, Rekeyed(q[0]))
    ensures FreshOnes(Apply(d, e).Keys, if e.Insertion? then (next + 1) % Tables.KEY_SPACE else next, q[1..])
  {
    hide Apply, ApplyItem, FreshOnes;
    FreshHead(d.Keys, next, q);
    if e.Insertion? { KeysPut(d, next, q[0].student); } else { KeysApplied(d, Rekeyed(q[0])); }
  }

  lemma RekeyedHead(q: seq<Commit>)
    requires q != []
    ensures AllRekeyed(q) != [] && AllRekeyed(q)[0] == Rekeyed(q[0]) && AllRekeyed(q)[1..] == AllRekeyed(q[1..])
  {
  }

  lemma ReplayedHead(d: Data, next: nat, q: seq<Commit>)
    requires q != []
    ensures Replayed(d, next, q) ==
            if q[0].AddItem? && q[0].tbl == STUDENT_TBL then Replayed(d[next := q[0].student], (next + 1) % Tables.KEY_SPACE, q[1..])
            else Replayed(ApplyItem(d, q[0]), next, q[1..])
  {
  }

  lemma FreshHead(keys: set<nat>, next: nat, q: seq<Commit>)
    requires q != [] && FreshOnes(keys, next, q)
    ensures if q[0].AddItem? && q[0].tbl == STUDENT_TBL then FreshOnes(keys + {next}, (next + 1) % Tables.KEY_SPACE, q[1..])
            else FreshOnes(if q[0].DeleteItem? then keys - {q[0].key.key} else keys, next, q[1..])
  {
  }

  lemma RoomyHead(size: int, room: int, q: seq<Commit>)
    requires q != [] && (q[0].AddItem? && q[0].tbl == STUDENT_TBL ==> size != room)
    ensures Roomy(size, room, q) <==>
            Roomy(size + (if q[0].AddItem? && q[0].tbl == STUDENT_TBL then 1 else if q[0].DeleteItem? then -1 else 0), room, q[1..])
  {
  }

  lemma KeysPut(d: Data, k: nat, student: Student)
    ensures Apply(d, Insertion(k, student)) == d[k := student] && d[k := student].Keys == d.Keys + {k}
  {
  }

  lemma KeysApplied(d: Data, item: Commit)
    ensures item.AddItem? ==> ApplyItem(d, item) == d
    ensures ApplyItem(d, item).Keys == if item.DeleteItem? then d.Keys - {item.key.key} else d.Keys
  {
  }

  lemma EmptyTurn(t: Tables.Table, w: Worker, d: Data)
    requires Shaped(t, w) && w.pc.Replaying? && w.queue == []
    ensures Apply(d, EventOf(t, w, Proceed)) == d
  {
  }

  lemma TurnLeaksNothing(t: Tables.Table, w: Worker)
    requires Shaped(t, w) && w.pc.Replaying? && ReplayTurn(t, w).Some?
    ensures ReplayTurn(t, w).value.leaked == multiset{} && Shaped(ReplayTurn(t, w).value.table, ReplayTurn(t, w).value.worker)
    ensures w.queue != [] ==> ReplayTurn(t, w).value.worker.pc == w.pc && ReplayTurn(t, w).value.worker.queue == w.queue[1..]
  {
  }

  // ---- The release loop as a whole ----

  /** The table after the release loop has run from slot `i` to the end with nobody else in between. */
  function ReleaseFrom(t: Tables.Table, l: LockList, i: nat): Option<Tables.Table>
    requires |t.rows| > 0 && i <= |l.slots|
    decreases |l.slots| - i
  {
    var j := NextLive(l, i);
    if j == |l.slots| then Some(t)
    else if l.slots[j].key.tbl != STUDENT_TBL then ReleaseFrom(t, l, j + 1)
    else if Tables.SeekRow(t, l.slots[j].key.key).None? then None
    else ReleaseFrom(Tables.Release(t, l.slots[j].key.key), l, j + 1)
  }

  /** The locks in `h` are all shown by the rows they name. */
  ghost predicate Shown(v: View, h: multiset<Lock>) { forall k :: ShownAt(v, h, k) }

  ghost predicate ShownAt(v: View, h: multiset<Lock>, k: nat) {
    var shared, exclusive := h[Lock(Row(k), SHARED)], h[Lock(Row(k), EXCLUSIVE)];
    && (exclusive > 0 ==> exclusive == 1 && shared == 0 && k in v && v[k].lock == -1)
    && (shared > 0 ==> k in v && shared <= v[k].lock <= Tables.LOCK_MAX)
  }

  /** A lock word after all the locks in `h` on its row have been given back. */
  function After(lock: int, h: multiset<Lock>, k: nat): int {
    if h[Lock(Row(k), EXCLUSIVE)] > 0 then 0 else lock - h[Lock(Row(k), SHARED)]
  }

  /**
   * The release loop ends; every row loses exactly its SHARED entries or goes from -1
   * to 0, every other row keeps its lock word, no row appears, goes or changes its
   * record, and the counters stay exact.
   */
  lemma {:induction false} ReleaseFromExact(t: Tables.Table, l: LockList, i: nat)
    requires TableOk(t) && i <= |l.slots|
    requires forall x :: x in HeldFrom(l.slots, i) ==> x.key.tbl == STUDENT_TBL
    requires Shown(Tables.View(t.rows), HeldFrom(l.slots, i))
    ensures ReleaseFrom(t, l, i).Some? && TableOk(ReleaseFrom(t, l, i).value)
    ensures var v, v' := Tables.View(t.rows), Tables.View(ReleaseFrom(t, l, i).value.rows);
            && v'.Keys == v.Keys
            && forall k :: k in v ==> v'[k] == v[k].(lock := After(v[k].lock, HeldFrom(l.slots, i), k))
    decreases |l.slots| - i
  {
    hide HeldFrom, NextLive, TableOk, Tables.View, Shown, After, Tables.Release;
    var j := NextLive(l, i);
    HeldFromSkip(l, i);
    if j < |l.slots| {
      var lock, h := Lock(l.slots[j].key, l.slots[j].value), HeldFrom(l.slots, j + 1);
      HeldFromStep(l, i, j);
      assert lock in HeldFrom(l.slots, i);
      TableRows(t);
      ReleaseOneShown(t, h, lock);
      ReleaseFromExact(Tables.Release(t, lock.key.key), l, j + 1);
    } else {
      HeldNothing(l.slots, j);
      TableRows(t);
      NothingReleased(Tables.View(t.rows));
    }
  }

  lemma TableRows(t: Tables.Table)
    requires TableOk(t)
    ensures |t.rows| > 0
  {
  }

  lemma NothingReleased(v: View)
    ensures forall k :: k in v ==> v[k] == v[k].(lock := After(v[k].lock, multiset{}, k))
  {
  }

  /** Giving back one of the shown locks leaves the rest shown. */
  lemma OneReturned(v: View, h: multiset<Lock>, lock: Lock, k: nat)
    requires Shown(v, multiset{lock} + h) && lock.key == Row(k)
    ensures k in v && (v[k].lock == -1 || 0 < v[k].lock <= Tables.LOCK_MAX)
    ensures var v' := v[k := v[k].(lock := Tables.Released(v[k].lock))];
            && Shown(v', h)
            && forall n :: n in v ==> After(v'[n].lock, h, n) == After(v[n].lock, multiset{lock} + h, n)
  {
    assert lock.mode == SHARED || lock.mode == EXCLUSIVE;
    assert ShownAt(v, multiset{lock} + h, k);
    var v' := v[k := v[k].(lock := Tables.Released(v[k].lock))];
    forall n ensures ShownAt(v', h, n) {
      assert ShownAt(v, multiset{lock} + h, n);
    }
  }

  /** One release in front of the rest. */
  lemma ReleaseOneShown(t: Tables.Table, h: multiset<Lock>, lock: Lock)
    requires TableOk(t) && |t.rows| > 0 && lock.key.tbl == STUDENT_TBL && Shown(Tables.View(t.rows), multiset{lock} + h)
    ensures Tables.SeekRow(t, lock.key.key).Some? && TableOk(Tables.Release(t, lock.key.key))
    ensures var v, v' := Tables.View(t.rows), Tables.View(Tables.Release(t, lock.key.key).rows);
            && Shown(v', h) && v'.Keys == v.Keys
            && forall k :: k in v ==> v'[k] == v[k].(lock := v'[k].lock) && After(v'[k].lock, h, k) == After(v[k].lock, multiset{lock} + h, k)
  {
    hide Tables.View, Tables.Release, Tables.Valid, Tables.Exact, Shown, After;
    assert lock.key == Row(lock.key.key);
    OneReturned(Tables.View(t.rows), h, lock, lock.key.key);
    Tables.ReleaseEffect(t, lock.key.key);
  }

  /** What a worker claims is shown by the rows, whoever else claims something. */
  lemma InvShows(cfg: Config, s: State, w: nat)
    requires Inv(cfg, s) && w < |s.workers|
    ensures Shown(Tables.View(s.table.rows), Claims(s.workers[w]))
  {
    hide WorkerOk, TableOk, Claims, Tables.View;
    ClaimsCounted(s.workers, w);
    var v, h, all := Tables.View(s.table.rows), Claims(s.workers[w]), Total(s);
    forall k ensures ShownAt(v, h, k) {
      assert BalancedAt(v, all, k);
      assert h[Lock(Row(k), SHARED)] <= all[Lock(Row(k), SHARED)] && h[Lock(Row(k), EXCLUSIVE)] <= all[Lock(Row(k), EXCLUSIVE)];
    }
  }

  /** Where the worker's release loop stands, or would start. */
  function ReleasedUpTo(w: Worker): nat { if w.pc.Releasing? then w.pc.next else 0 }

  lemma ClaimsFrom(cfg: Config, v: View, w: Worker)
    requires WorkerOk(cfg, v, w)
    ensures ReleasedUpTo(w) <= |w.locks.slots| && Claims(w) == HeldFrom(w.locks.slots, ReleasedUpTo(w))
    ensures forall x :: x in Claims(w) ==> x.key.tbl == STUDENT_TBL
  {
    hide QueueOk, NoStale, LockLists.Valid, HeldFrom;
    if w.pc.Releasing? {
      forall x | x in Claims(w) ensures x.key.tbl == STUDENT_TBL { HeldFromIsHeld(w.locks.slots, w.pc.next, x); }
    }
  }

  lemma HeldFromIsHeld(slots: seq<LockSlot>, i: nat, x: Lock)
    requires i <= |slots| && x in HeldFrom(slots, i)
    ensures x in HeldFrom(slots, 0)
  {
    ClaimsAreHeld(slots, i, 0);
  }

  /**
   * In every state of every run the release loop of any worker ends when it is run to its
   * end: each row loses exactly the shares that the worker still claimed on it, or goes
   * from -1 to 0, and nothing else changes.
   */
  lemma ReleaseLoopExact(cfg: Config, s: State, w: nat)
    requires Inv(cfg, s) && WellShaped(s) && w < |s.workers|
    ensures var u, i := s.workers[w], ReleasedUpTo(s.workers[w]);
            && i <= |u.locks.slots| && ReleaseFrom(s.table, u.locks, i).Some?
            && TableOk(ReleaseFrom(s.table, u.locks, i).value)
            && var v, v' := Tables.View(s.table.rows), Tables.View(ReleaseFrom(s.table, u.locks, i).value.rows);
               v'.Keys == v.Keys && forall k :: k in v ==> v'[k] == v[k].(lock := After(v[k].lock, Claims(u), k))
  {
    hide WorkerOk, TableOk, Claims, Tables.View, Shown, Balanced, HeldFrom, ReleaseFrom, After;
    InvShows(cfg, s, w);
    ClaimsFrom(cfg, Tables.View(s.table.rows), s.workers[w]);
    ReleaseFromExact(s.table, s.workers[w].locks, ReleasedUpTo(s.workers[w]));
  }

  /** How many turns the release loop still takes. */
  function Turns(l: LockList, i: nat): nat
    requires i <= |l.slots|
    decreases |l.slots| - i
  {
    var j := NextLive(l, i);
    1 + if j == |l.slots| then 0 else Turns(l, j + 1)
  }

  /** The whole loop is what the worker's turns do one after another when nobody else steps in between. */
  lemma {:induction false} ReleaseIsSteps(cfg: Config, t: Tables.Table, w: Worker)
    requires Shaped(t, w) && w.pc.Releasing? && w.pc.next <= |w.locks.slots| && ReleaseFrom(t, w.locks, w.pc.next).Some?
    ensures Alone(cfg, t, w, seq(Turns(w.locks, w.pc.next), _ => Proceed))
         == Some(Only(w.(locks := LockLists.Clear(w.locks), queue := [], pc := Stopped), ReleaseFrom(t, w.locks, w.pc.next).value))
    decreases |w.locks.slots| - w.pc.next
  {
    hide NextLive, ReleaseTurn, Alone, Tables.Release, Tables.SeekRow;
    var j := NextLive(w.locks, w.pc.next);
    ReleaseTurnIs(t, w, j);
    var r := ReleaseTurn(t, w, w.pc.next).value;
    if j < |w.locks.slots| {
      AloneFirst(cfg, t, w, Proceed, Turns(w.locks, j + 1), r);
      ReleaseIsSteps(cfg, r.table, r.worker);
    } else {
      AloneFirst(cfg, t, w, Proceed, 0, r);
      AloneNothing(cfg, r);
    }
  }

  lemma AloneNothing(cfg: Config, r: Local)
    ensures Alone(cfg, r.table, r.worker, seq(0, _ => Proceed)) == Some(Only(r.worker, r.table))
  {
  }

  lemma ReleaseTurnIs(t: Tables.Table, w: Worker, j: nat)
    requires Shaped(t, w) && w.pc.Releasing? && w.pc.next <= |w.locks.slots| && ReleaseFrom(t, w.locks, w.pc.next).Some?
    requires j == NextLive(w.locks, w.pc.next)
    ensures ReleaseTurn(t, w, w.pc.next).Some?
    ensures var r := ReleaseTurn(t, w, w.pc.next).value;
            && r.leaked == multiset{} && Shaped(r.table, r.worker)
            && if j == |w.locks.slots|
               then r == Only(w.(locks := LockLists.Clear(w.locks), queue := [], pc := Stopped), t)
               else r.worker == w.(pc := Releasing(j + 1)) && ReleaseFrom(r.table, w.locks, j + 1) == ReleaseFrom(t, w.locks, w.pc.next)
  {
    hide NextLive;
  }
}
