/**
 * Any number of workers over one shared table, one mutex-protected call at a time:
 * the lock-accounting invariant, and that every step keeps it.
 */
module Protocol {
  import opened Basics
  import opened StudentTuples
  import opened LockLists
  import opened Workers
  import OA = OpenAddressing
  import Tables = StudentTables

  /** `leaks` are the row locks granted to a worker whose list refused to record them. */
  datatype State = State(table: Tables.Table, workers: seq<Worker>, leaks: multiset<Lock>)

  type View = map<nat, Tables.Entry>

  predicate WellShaped(s: State) {
    |s.table.rows| > 0 && forall w :: 0 <= w < |s.workers| ==> |s.workers[w].locks.slots| > 0
  }

  /** Worker `w` takes one step; None when the act is not enabled there. */
  function Step(cfg: Config, s: State, w: nat, a: Act): Option<State>
    requires WellShaped(s) && w < |s.workers|
  {
    match StepLocal(cfg, s.table, s.workers[w], a)
    case None => None
    case Some(r) => Some(State(r.table, s.workers[w := r.worker], s.leaks + r.leaked))
  }

  // ---- What is claimed ----

  function Row(k: nat): UniqueKey { UniqueKey(STUDENT_TBL, k) }

  /** The locks a worker still has to give back: those its release loop has passed are gone already. */
  function Claims(w: Worker): multiset<Lock> {
    if w.pc.Releasing? && w.pc.next <= |w.locks.slots| then HeldFrom(w.locks.slots, w.pc.next) else Held(w.locks)
  }

  function AllClaims(ws: seq<Worker>): multiset<Lock> {
    if ws == [] then multiset{} else Claims(ws[|ws|-1]) + AllClaims(ws[..|ws|-1])
  }

  function Total(s: State): multiset<Lock> { AllClaims(s.workers) + s.leaks }

  /** The lock word of every row says exactly who claims it. */
  ghost predicate Balanced(v: View, c: multiset<Lock>) {
    forall k :: BalancedAt(v, c, k)
  }

  ghost predicate BalancedAt(v: View, c: multiset<Lock>, k: nat) {
    var shared, exclusive := c[Lock(Row(k), SHARED)], c[Lock(Row(k), EXCLUSIVE)];
    if k !in v then shared == 0 && exclusive == 0
    else if exclusive > 0 then v[k].lock == -1 && exclusive == 1 && shared == 0
    else v[k].lock == shared <= Tables.LOCK_MAX
  }

  lemma {:induction false} TotalUpdate(ws: seq<Worker>, i: nat, w: Worker)
    requires i < |ws|
    ensures AllClaims(ws[i := w]) + Claims(ws[i]) == AllClaims(ws) + Claims(w)
  {
    hide Claims;
    var n := |ws| - 1;
    var us := ws[i := w];
    if i == n {
      assert us[..n] == ws[..n];
      Rotate(Claims(w), AllClaims(ws[..n]), Claims(ws[n]));
    } else {
      assert us[..n] == ws[..n][i := w];
      TotalUpdate(ws[..n], i, w);
      AddBoth(Claims(ws[n]), AllClaims(us[..n]), Claims(ws[i]), AllClaims(ws[..n]), Claims(w));
    }
  }

  lemma {:induction false} ClaimsCounted(ws: seq<Worker>, i: nat)
    requires i < |ws|
    ensures Claims(ws[i]) <= AllClaims(ws)
  {
    if i < |ws| - 1 { ClaimsCounted(ws[..|ws|-1], i); }
  }

  lemma {:induction false} TwoClaimsCounted(ws: seq<Worker>, i: nat, j: nat)
    requires i < j < |ws|
    ensures Claims(ws[i]) + Claims(ws[j]) <= AllClaims(ws)
  {
    if j < |ws| - 1 { TwoClaimsCounted(ws[..|ws|-1], i, j); } else { ClaimsCounted(ws[..|ws|-1], i); }
  }

  // ---- The invariant ----

  /** Every UPDATE or DELETE in the queue names a row that the worker's own list holds EXCLUSIVE. */
  ghost predicate WriteSetHeld(queue: seq<Commit>, locks: LockList) {
    forall i :: 0 <= i < |queue| && !queue[i].AddItem? ==> Lock(queue[i].key, EXCLUSIVE) in Held(locks)
  }

  /** No slot that is not in use carries the name of a student row. */
  predicate NoStale(l: LockList) {
    forall i :: 0 <= i < |l.slots| && l.slots[i].key.tbl == STUDENT_TBL ==> l.slots[i].used
  }

  ghost predicate PcOk(v: View, w: Worker) {
    match w.pc
    case Trying(want, n) => w.phase == GROWING && (want.WantPromote? ==> Promotable(w, want.key))
    case Calling(want, n) => w.phase == GROWING && (want.WantPromote? ==> Promotable(w, want.key))
    case Parked(k, n, i) => w.phase == GROWING && Promotable(w, k) && k.key in v && v[k.key].slot == i
    case Replaying => w.phase == SHRINKING
    case Releasing(i) => i <= |w.locks.slots|
    case Stopped => w.queue == [] && Held(w.locks) == multiset{}
    case _ => true
  }

  ghost predicate Promotable(w: Worker, k: UniqueKey) {
    |w.locks.slots| > 0 && k.tbl == STUDENT_TBL && GetLock(w.locks, k) == Some(SHARED)
  }

  /** A list holding locks of student rows only. */
  ghost predicate ListOk(l: LockList) {
    LockLists.Valid(l) && forall lock :: lock in Held(l) ==> lock.key.tbl == STUDENT_TBL
  }

  ghost predicate QueueOk(cfg: Config, w: Worker) {
    && |w.queue| <= cfg.maxCommits
    && (w.phase == GROWING ==> w.queue == [])
    && (forall i :: 0 <= i < |w.queue| && !w.queue[i].AddItem? ==>
          w.queue[i].key.tbl == STUDENT_TBL && Lock(w.queue[i].key, SHARED) !in Held(w.locks))
    && (forall i :: 0 <= i < |w.queue| && w.queue[i].UpdateItem? ==>
          w.queue[i].tuple.key == cfg.stamp(w.queue[i].key.key))
    && (!w.pc.Replaying? && !w.pc.Releasing? ==> WriteSetHeld(w.queue, w.locks))
  }

  ghost predicate WorkerOk(cfg: Config, v: View, w: Worker) {
    ListOk(w.locks) && QueueOk(cfg, w) && (!w.pc.Stopped? ==> NoStale(w.locks)) && PcOk(v, w)
  }

  ghost predicate TableOk(t: Tables.Table) { Tables.Valid(t) && Tables.Exact(t) }

  ghost predicate Inv(cfg: Config, s: State) {
    && TableOk(s.table)
    && (forall w :: 0 <= w < |s.workers| ==> WorkerOk(cfg, Tables.View(s.table.rows), s.workers[w]))
    && Balanced(Tables.View(s.table.rows), Total(s))
  }

  /** Neither of the two 8-bit counters runs over in this step: no key still live is handed out again, no lock word passes 127. */
  ghost predicate Tame(t: Tables.Table, w: Worker, a: Act)
    requires Shaped(t, w)
  {
    a.Proceed? ==>
      && (w.pc.Replaying? && w.queue != [] && w.queue[0].AddItem? && w.queue[0].tbl == STUDENT_TBL ==> t.nextKey !in Tables.View(t.rows))
      && (w.pc.Calling? && w.pc.want.WantShared? && Tables.SharedScan(t).Some? ==>
            t.rows[Tables.SharedScan(t).value].value.lock < Tables.LOCK_MAX)
  }

  // ---- The abstract effect of a step on the rows and on the claims ----

  datatype Event =
    | Quiet
    | SharedGrant(key: nat)
    | ExclusiveGrant(key: nat)
    | Promotion(key: nat)
    | Return(key: nat, mode: LockType)
    | Insertion(key: nat, student: Student)
    | Removal(key: nat)
    | Writing(tuple: StudentTuple)

  /** What a step does, read off the state it starts in. */
  function EventOf(t: Tables.Table, w: Worker, a: Act): Event
    requires Shaped(t, w)
  {
    match a
    case Receive(YieldRead(tbl, key)) =>
      if w.pc.Receiving? && w.phase == GROWING && Workers.Holds(w, tbl, key, SHARED) && tbl.value == STUDENT_TBL
      then Return(key.value, SHARED) else Quiet
    case Proceed =>
      (match w.pc
       case Calling(WantShared, n) =>
         if t.sAvail > 0 && Tables.SharedScan(t).Some? then SharedGrant(t.rows[Tables.SharedScan(t).value].key) else Quiet
       case Calling(WantExclusive, n) =>
         if t.xAvail > 0 && Tables.ExclusiveScan(t).Some? then ExclusiveGrant(t.rows[Tables.ExclusiveScan(t).value].key) else Quiet
       case Parked(k, n, i) => Promotion(k.key)
       case Replaying =>
         if w.queue == [] then Quiet
         else
           (match w.queue[0]
            case AddItem(tbl, student) => if tbl == STUDENT_TBL then Insertion(t.nextKey, student) else Quiet
            case DeleteItem(k) => if k.tbl == STUDENT_TBL then Removal(k.key) else Quiet
            case UpdateItem(k, tuple) => if k.tbl == STUDENT_TBL then Writing(tuple) else Quiet)
       case Releasing(i) =>
         var j := if i <= |w.locks.slots| then NextLive(w.locks, i) else |w.locks.slots|;
         if j < |w.locks.slots| && w.locks.slots[j].key.tbl == STUDENT_TBL
         then Return(w.locks.slots[j].key.key, w.locks.slots[j].value) else Quiet
       case _ => Quiet)
    case _ => Quiet
  }

  function Gain(e: Event): multiset<Lock> {
    match e
    case SharedGrant(k) => multiset{Lock(Row(k), SHARED)}
    case ExclusiveGrant(k) => multiset{Lock(Row(k), EXCLUSIVE)}
    case Promotion(k) => multiset{Lock(Row(k), EXCLUSIVE)}
    case _ => multiset{}
  }

  function Loss(e: Event): multiset<Lock> {
    match e
    case Promotion(k) => multiset{Lock(Row(k), SHARED)}
    case Return(k, m) => multiset{Lock(Row(k), m)}
    case Removal(k) => multiset{Lock(Row(k), EXCLUSIVE)}
    case _ => multiset{}
  }

  /** How the key-to-row map moves under an event. */
  ghost predicate Moves(v: View, e: Event, v': View) {
    match e
    case Quiet => v' == v
    case SharedGrant(k) => k in v && 0 <= v[k].lock < Tables.LOCK_MAX && v' == v[k := v[k].(lock := v[k].lock + 1)]
    case ExclusiveGrant(k) => k in v && v[k].lock == 0 && v' == v[k := v[k].(lock := -1)]
    case Promotion(k) => k in v && v[k].lock == 1 && v' == v[k := v[k].(lock := -1)]
    case Return(k, m) => k in v && v' == v[k := v[k].(lock := Tables.Released(v[k].lock))]
    case Insertion(k, student) => k !in v && exists i :: v' == v[k := Tables.Entry(i, student, 0)]
    case Removal(k) => k in v && v' == v - {k}
    case Writing(tuple) =>
      v' == if tuple.key in v then v[tuple.key := v[tuple.key].(student := tuple.student)] else v
  }

  /** Claims stay balanced under any event whose losses were claimed. */
  lemma MovesKeepBalance(v: View, c: multiset<Lock>, e: Event, v': View, c': multiset<Lock>)
    requires Balanced(v, c) && Moves(v, e, v')
    requires Loss(e) <= c && c' + Loss(e) == c + Gain(e)
    ensures Balanced(v', c')
  {
    forall k ensures BalancedAt(v', c', k) { MoveKeepsBalanceAt(v, c, e, v', c', k); }
  }

  lemma MoveKeepsBalanceAt(v: View, c: multiset<Lock>, e: Event, v': View, c': multiset<Lock>, k: nat)
    requires Balanced(v, c) && Moves(v, e, v')
    requires Loss(e) <= c && c' + Loss(e) == c + Gain(e)
    ensures BalancedAt(v', c', k)
  {
    hide Balanced, BalancedAt, Moves, Loss, Gain;
    match e {
      case SharedGrant(j) => ShareKeepsBalance(v, c, e, v', c', k);
      case ExclusiveGrant(j) => TakingKeepsBalance(v, c, e, v', c', k);
      case Promotion(j) => TakingKeepsBalance(v, c, e, v', c', k);
      case Return(j, m) => ReturnKeepsBalance(v, c, e, v', c', k);
      case _ => RowsKeepBalance(v, c, e, v', c', k);
    }
  }

  lemma ShareKeepsBalance(v: View, c: multiset<Lock>, e: Event, v': View, c': multiset<Lock>, k: nat)
    requires Balanced(v, c) && Moves(v, e, v') && e.SharedGrant?
    requires Loss(e) <= c && c' + Loss(e) == c + Gain(e)
    ensures BalancedAt(v', c', k)
  {
    assert BalancedAt(v, c, e.key);
    assert BalancedAt(v, c, k);
    CountMoves(c, e, c', Lock(Row(k), SHARED));
    CountMoves(c, e, c', Lock(Row(k), EXCLUSIVE));
  }

  lemma TakingKeepsBalance(v: View, c: multiset<Lock>, e: Event, v': View, c': multiset<Lock>, k: nat)
    requires Balanced(v, c) && Moves(v, e, v') && (e.ExclusiveGrant? || e.Promotion?)
    requires Loss(e) <= c && c' + Loss(e) == c + Gain(e)
    ensures BalancedAt(v', c', k)
  {
    assert BalancedAt(v, c, k);
    CountMoves(c, e, c', Lock(Row(k), SHARED));
    CountMoves(c, e, c', Lock(Row(k), EXCLUSIVE));
  }

  lemma ReturnKeepsBalance(v: View, c: multiset<Lock>, e: Event, v': View, c': multiset<Lock>, k: nat)
    requires Balanced(v, c) && Moves(v, e, v') && e.Return?
    requires Loss(e) <= c && c' + Loss(e) == c + Gain(e)
    ensures BalancedAt(v', c', k)
  {
    assert BalancedAt(v, c, k);
    CountMoves(c, e, c', Lock(Row(k), SHARED));
    CountMoves(c, e, c', Lock(Row(k), EXCLUSIVE));
    assert e.mode == SHARED || e.mode == EXCLUSIVE;
  }

  lemma RowsKeepBalance(v: View, c: multiset<Lock>, e: Event, v': View, c': multiset<Lock>, k: nat)
    requires Balanced(v, c) && Moves(v, e, v') && (e.Quiet? || e.Insertion? || e.Removal? || e.Writing?)
    requires Loss(e) <= c && c' + Loss(e) == c + Gain(e)
    ensures BalancedAt(v', c', k)
  {
    assert BalancedAt(v, c, k);
    CountMoves(c, e, c', Lock(Row(k), SHARED));
    CountMoves(c, e, c', Lock(Row(k), EXCLUSIVE));
  }

  lemma CountMoves(c: multiset<Lock>, e: Event, c': multiset<Lock>, x: Lock)
    requires Loss(e) <= c && c' + Loss(e) == c + Gain(e)
    ensures Loss(e)[x] <= c[x] && c'[x] + Loss(e)[x] == c[x] + Gain(e)[x]
  {
    assert (c' + Loss(e))[x] == (c + Gain(e))[x];
  }

  // ---- One worker's step, against any balanced claims that include its own ----

  ghost predicate Ready(cfg: Config, t: Tables.Table, w: Worker, c: multiset<Lock>) {
    && TableOk(t) && WorkerOk(cfg, Tables.View(t.rows), w)
    && Balanced(Tables.View(t.rows), c) && Claims(w) <= c
  }

  /** The step moves the rows as its event says and pays for it with the worker's own claims. */
  ghost predicate Accounted(cfg: Config, t: Tables.Table, w: Worker, e: Event, r: Local) {
    && TableOk(r.table) && WorkerOk(cfg, Tables.View(r.table.rows), r.worker)
    && Moves(Tables.View(t.rows), e, Tables.View(r.table.rows))
    && Loss(e) <= Claims(w)
    && Claims(r.worker) + r.leaked + Loss(e) == Claims(w) + Gain(e)
  }

  lemma ReadyFacts(cfg: Config, t: Tables.Table, w: Worker, c: multiset<Lock>)
    requires Ready(cfg, t, w, c)
    ensures Shaped(t, w) && TableOk(t) && LockLists.Valid(w.locks) && ListOk(w.locks)
    ensures WorkerOk(cfg, Tables.View(t.rows), w) && Balanced(Tables.View(t.rows), c)
    ensures QueueOk(cfg, w) && PcOk(Tables.View(t.rows), w)
    ensures !w.pc.Stopped? ==> NoStale(w.locks)
  {
  }

  lemma StudentLock(l: LockList, lock: Lock)
    requires ListOk(l) && lock in Held(l)
    ensures lock.key.tbl == STUDENT_TBL && lock.key == Row(lock.key.key)
  {
  }

  /** A claimed lock names a live row, whose lock word shows the claim. */
  lemma ClaimedRow(v: View, c: multiset<Lock>, lock: Lock)
    requires Balanced(v, c) && lock in c && lock.key.tbl == STUDENT_TBL
    ensures lock.key.key in v
    ensures lock.mode == EXCLUSIVE ==> v[lock.key.key].lock == -1
    ensures lock.mode == SHARED ==> 0 < v[lock.key.key].lock <= Tables.LOCK_MAX
  {
    assert lock.key == Row(lock.key.key);
    assert BalancedAt(v, c, lock.key.key);
    assert lock.mode == SHARED || lock.mode == EXCLUSIVE;
  }

  lemma {:induction false} ClaimsAreHeld(slots: seq<LockSlot>, i: nat, from: nat)
    requires from <= i <= |slots|
    ensures HeldFrom(slots, i) <= HeldFrom(slots, from)
    decreases i - from
  {
    hide One;
    if from < i { ClaimsAreHeld(slots, i, from + 1); }
  }

  lemma AddKeeps(l: LockList, lock: Lock)
    requires ListOk(l) && NoStale(l) && lock.key.tbl == STUDENT_TBL
    ensures CanAdd(l, lock.key)
    ensures ListOk(AddLock(l, lock).0) && NoStale(AddLock(l, lock).0)
  {
    AddLockEffect(l, lock);
    var l' := AddLock(l, lock).0;
    forall x | x in Held(l') ensures x.key.tbl == STUDENT_TBL {
      assert x in Held(l) + multiset{lock};
    }
  }

  lemma RmKeeps(l: LockList, k: UniqueKey)
    requires ListOk(l) && NoStale(l) && GetLock(l, k).Some?
    ensures SeekLock(l, k).Some?
    ensures ListOk(RmLock(l, k)) && NoStale(RmLock(l, k))
    ensures Held(l) == Held(RmLock(l, k)) + multiset{Lock(k, GetLock(l, k).value)}
    ensures Held(RmLock(l, k)) <= Held(l)
  {
    RmLockEffect(l, k);
    forall x | x in Held(RmLock(l, k)) ensures x.key.tbl == STUDENT_TBL {
      assert x in Held(l);
    }
  }

  /** A growing worker that goes back to its loop head accounts for the step by its list alone. */
  lemma BackAccounted(cfg: Config, t: Tables.Table, w: Worker, e: Event, l: LockList, t': Tables.Table, leaked: multiset<Lock>)
    requires WorkerOk(cfg, Tables.View(t.rows), w) && w.phase == GROWING && !w.pc.Releasing?
    requires ListOk(l) && NoStale(l) && TableOk(t') && Moves(Tables.View(t.rows), e, Tables.View(t'.rows))
    requires Loss(e) <= Held(w.locks) && Held(l) + leaked + Loss(e) == Held(w.locks) + Gain(e)
    ensures Accounted(cfg, t, w, e, Local(Back(w).(locks := l), t', leaked))
  {
    hide ListOk, NoStale, TableOk, Moves;
  }

  lemma RecordAccounted(cfg: Config, t: Tables.Table, t': Tables.Table, w: Worker, e: Event, lock: Lock)
    requires TableOk(t) && WorkerOk(cfg, Tables.View(t.rows), w) && w.pc.Calling?
    requires TableOk(t') && Moves(Tables.View(t.rows), e, Tables.View(t'.rows))
    requires Gain(e) == multiset{lock} && Loss(e) == multiset{} && lock.key.tbl == STUDENT_TBL
    ensures Record(t', w, lock).Some?
    ensures Accounted(cfg, t, w, e, Record(t', w, lock).value)
  {
    hide QueueOk, TableOk, Moves, Tables.View, HeldFrom, InsertSlot, NoStale;
    AddLockEffect(w.locks, lock);
    AddKeeps(w.locks, lock);
    var (l, err) := AddLock(w.locks, lock);
    BackAccounted(cfg, t, w, e, l, t', if err == NoError then multiset{} else multiset{lock});
  }

  lemma SharedAccounted(cfg: Config, t: Tables.Table, w: Worker, c: multiset<Lock>)
    requires Ready(cfg, t, w, c) && w.pc.Calling? && w.pc.want.WantShared? && Tame(t, w, Proceed) && t.sAvail > 0
    ensures CallShared(t, w, w.pc.tries).Some?
    ensures Accounted(cfg, t, w, EventOf(t, w, Proceed), CallShared(t, w, w.pc.tries).value)
  {
    hide ListOk, QueueOk, NoStale, Tables.View, Tables.GrantShared, Balanced, HeldFrom, Record;
    Tables.SharedScanFinds(t);
    var i := Tables.SharedScan(t).value;
    Tables.EntryAt(t, i);
    Tables.GrantSharedEffect(t, i);
    RecordAccounted(cfg, t, Tables.GrantShared(t, i), w, SharedGrant(t.rows[i].key), Lock(Row(t.rows[i].key), SHARED));
  }

  lemma ExclusiveAccounted(cfg: Config, t: Tables.Table, w: Worker, c: multiset<Lock>)
    requires Ready(cfg, t, w, c) && w.pc.Calling? && w.pc.want.WantExclusive? && t.xAvail > 0
    ensures CallExclusive(t, w, w.pc.tries).Some?
    ensures Accounted(cfg, t, w, EventOf(t, w, Proceed), CallExclusive(t, w, w.pc.tries).value)
  {
    hide ListOk, QueueOk, NoStale, Tables.View, Tables.GrantExclusive, Balanced, HeldFrom, Record;
    Tables.ExclusiveScanFinds(t);
    var i := Tables.ExclusiveScan(t).value;
    Tables.EntryAt(t, i);
    Tables.GrantExclusiveEffect(t, i);
    RecordAccounted(cfg, t, Tables.GrantExclusive(t, i), w, ExclusiveGrant(t.rows[i].key), Lock(Row(t.rows[i].key), EXCLUSIVE));
  }

  /** The promotion's probe ends, at the slot of the row whose lock it promotes. */
  lemma ParkAccounted(cfg: Config, t: Tables.Table, w: Worker, c: multiset<Lock>)
    requires Ready(cfg, t, w, c) && w.pc.Calling? && w.pc.want.WantPromote?
    ensures Park(t, w, w.pc.want.key, w.pc.tries).Some?
    ensures Accounted(cfg, t, w, Quiet, Park(t, w, w.pc.want.key, w.pc.tries).value)
  {
    hide ListOk, LockLists.Valid, NoStale, TableOk, Balanced, HeldFrom, Tables.View, Tables.SeekRow, GetLock, WriteSetHeld;
    ReadyFacts(cfg, t, w, c);
    ParkFinds(cfg, t, w, c);
    IdleAccounted(cfg, t, w, w.(pc := Parked(w.pc.want.key, w.pc.tries, Tables.SeekRow(t, w.pc.want.key.key).value)));
  }

  /** The promotion's probe ends at the row that the worker shares. */
  lemma ParkFinds(cfg: Config, t: Tables.Table, w: Worker, c: multiset<Lock>)
    requires Ready(cfg, t, w, c) && w.pc.Calling? && w.pc.want.WantPromote?
    ensures var k := w.pc.want.key;
            Promotable(w, k) && k.key in Tables.View(t.rows) && |t.rows| > 0 && Tables.SeekRow(t, k.key) == Some(Tables.View(t.rows)[k.key].slot)
  {
    hide NoStale, QueueOk, Balanced, HeldFrom, GetLock, Tables.View, Tables.SeekRow;
    LookupsAgree(w.locks, w.pc.want.key);
    ClaimedRow(Tables.View(t.rows), c, Lock(w.pc.want.key, SHARED));
    Tables.LiveKeyFound(t, w.pc.want.key.key);
  }

  lemma UnparkAccounted(cfg: Config, t: Tables.Table, w: Worker, c: multiset<Lock>)
    requires Ready(cfg, t, w, c) && w.pc.Parked? && Unpark(t, w, w.pc.key, w.pc.slot).Some?
    ensures Accounted(cfg, t, w, EventOf(t, w, Proceed), Unpark(t, w, w.pc.key, w.pc.slot).value)
  {
    var k, i := w.pc.key, w.pc.slot;
    ParkedRow(cfg, t, w, c);
    hide WorkerOk, ListOk, QueueOk, PcOk, NoStale, Tables.View, HeldFrom, Balanced, GetLock, LockLists.Valid, SearchLock, Tables.PromoteAt, PromoteLock;
    Tables.PromoteEffect(t, i);
    PromoteKeeps(w.locks, k);
    BackAccounted(cfg, t, w, Promotion(k.key), PromoteLock(w.locks, k), Tables.PromoteAt(t, i), multiset{});
  }

  /** The slot a promotion is parked on still holds its row, which the worker still shares. */
  lemma ParkedRow(cfg: Config, t: Tables.Table, w: Worker, c: multiset<Lock>)
    requires Ready(cfg, t, w, c) && w.pc.Parked?
    ensures Shaped(t, w) && w.pc.slot < |t.rows| && OA.Live(t.rows[w.pc.slot]) && t.rows[w.pc.slot].key == w.pc.key.key
    ensures w.pc.key.key in Tables.View(t.rows) && w.pc.key == Row(w.pc.key.key)
    ensures Tables.View(t.rows)[w.pc.key.key] == Tables.Entry(w.pc.slot, t.rows[w.pc.slot].value.student, t.rows[w.pc.slot].value.lock)
    ensures ListOk(w.locks) && NoStale(w.locks) && GetLock(w.locks, w.pc.key) == Some(SHARED)
    ensures TableOk(t) && WorkerOk(cfg, Tables.View(t.rows), w) && w.phase == GROWING
  {
    hide Balanced, QueueOk, HeldFrom;
    Tables.ViewRepresents(t.rows);
  }

  lemma PromoteKeeps(l: LockList, k: UniqueKey)
    requires ListOk(l) && NoStale(l) && GetLock(l, k) == Some(SHARED) && k.tbl == STUDENT_TBL
    ensures SearchLock(l, k).Some? && Lock(k, SHARED) in Held(l)
    ensures ListOk(PromoteLock(l, k)) && NoStale(PromoteLock(l, k))
    ensures Held(PromoteLock(l, k)) + multiset{} + multiset{Lock(k, SHARED)} == Held(l) + multiset{Lock(k, EXCLUSIVE)}
  {
    hide HeldFrom;
    LookupsAgree(l, k);
    PromoteLockEffect(l, k);
    var l' := PromoteLock(l, k);
    forall x | x in Held(l') ensures x.key.tbl == STUDENT_TBL {
      assert x in Held(l') + multiset{Lock(k, SHARED)};
    }
  }

  /** A yield of a shared row ends, and gives back the share. */
  lemma YieldAccounted(cfg: Config, t: Tables.Table, w: Worker, c: multiset<Lock>, k: UniqueKey)
    requires Ready(cfg, t, w, c) && w.pc.Receiving? && w.phase == GROWING
    requires Shaped(t, w) && GetLock(w.locks, k) == Some(SHARED)
    ensures SeekLock(w.locks, k).Some? && Tables.SeekRow(t, k.key).Some? && k.tbl == STUDENT_TBL
    ensures Accounted(cfg, t, w, Return(k.key, SHARED),
                      Local(Back(w).(locks := RmLock(w.locks, k)), Tables.Release(t, k.key), multiset{}))
  {
    hide WorkerOk, ListOk, LockLists.Valid, NoStale, TableOk, Moves, Tables.View, Tables.Release, Tables.SeekRow, Balanced, HeldFrom, GetLock, RmLock, SeekLock;
    ReadyFacts(cfg, t, w, c);
    LookupsAgree(w.locks, k);
    StudentLock(w.locks, Lock(k, SHARED));
    RmKeeps(w.locks, k);
    ReturnMoves(t, c, Lock(k, SHARED));
    BackAccounted(cfg, t, w, Return(k.key, SHARED), RmLock(w.locks, k), Tables.Release(t, k.key), multiset{});
  }

  /** A step that only moves the worker between places outside its release loop, its list and queue as they were. */
  lemma IdleAccounted(cfg: Config, t: Tables.Table, w: Worker, w': Worker)
    requires TableOk(t) && WorkerOk(cfg, Tables.View(t.rows), w)
    requires w'.locks == w.locks && !w.pc.Stopped? && !w'.pc.Stopped? && Claims(w') == Claims(w)
    requires QueueOk(cfg, w') && PcOk(Tables.View(t.rows), w')
    ensures Accounted(cfg, t, w, Quiet, Local(w', t, multiset{}))
  {
    hide ListOk, NoStale, TableOk, QueueOk, PcOk;
  }

  /** Giving back a claimed lock of a row ends, and moves that row's lock word only. */
  lemma ReturnMoves(t: Tables.Table, c: multiset<Lock>, lock: Lock)
    requires TableOk(t) && Balanced(Tables.View(t.rows), c) && lock in c && lock.key.tbl == STUDENT_TBL
    ensures Tables.SeekRow(t, lock.key.key).Some?
    ensures TableOk(Tables.Release(t, lock.key.key))
    ensures Moves(Tables.View(t.rows), Return(lock.key.key, lock.mode), Tables.View(Tables.Release(t, lock.key.key).rows))
    ensures lock.key == Row(lock.key.key)
  {
    ClaimedRow(Tables.View(t.rows), c, lock);
    assert lock.mode == SHARED || lock.mode == EXCLUSIVE;
    Tables.ReleaseEffect(t, lock.key.key);
  }

  /** The last turn of the release loop finds nothing more to give back and empties the list. */
  lemma ReleaseEndAccounted(cfg: Config, t: Tables.Table, w: Worker, c: multiset<Lock>)
    requires Ready(cfg, t, w, c) && w.pc.Releasing? && NextLive(w.locks, w.pc.next) == |w.locks.slots|
    ensures ReleaseTurn(t, w, w.pc.next).Some?
    ensures Accounted(cfg, t, w, EventOf(t, w, Proceed), ReleaseTurn(t, w, w.pc.next).value)
  {
    assert Shaped(t, w);
    hide Tables.Valid, Tables.Exact, Tables.View, Tables.Release, Tables.SeekRow, LockLists.Valid, NoStale, Balanced, HeldFrom, NextLive;
    assert HeldFrom(w.locks.slots, |w.locks.slots|) == multiset{} by { HeldNothing(w.locks.slots, |w.locks.slots|); }
    HeldFromSkip(w.locks, w.pc.next);
    LockLists.ClearEffect(w.locks);
    assert Claims(w) == multiset{};
  }

  /** Stepping over a live slot gives up that slot's lock and no other. */
  lemma PassOver(w: Worker, j: nat)
    requires w.pc.Releasing? && w.pc.next <= |w.locks.slots| && NextLive(w.locks, w.pc.next) == j < |w.locks.slots|
    ensures var lock := Lock(w.locks.slots[j].key, w.locks.slots[j].value);
            && multiset{lock} <= Claims(w)
            && Claims(w.(pc := Releasing(j + 1))) + multiset{} + multiset{lock} == Claims(w) + multiset{}
            && lock in Held(w.locks)
  {
    hide HeldFrom, NextLive;
    HeldFromStep(w.locks, w.pc.next, j);
    Settle(HeldFrom(w.locks.slots, j + 1), multiset{Lock(w.locks.slots[j].key, w.locks.slots[j].value)});
  }

  lemma ReleasingOk(cfg: Config, v: View, w: Worker, v': View, j: nat)
    requires WorkerOk(cfg, v, w) && w.pc.Releasing? && j <= |w.locks.slots|
    ensures WorkerOk(cfg, v', w.(pc := Releasing(j)))
  {
    hide ListOk, NoStale;
  }

  /** Any other turn gives back exactly the lock the iterator stands on. */
  lemma ReleaseOneAccounted(cfg: Config, t: Tables.Table, w: Worker, c: multiset<Lock>, j: nat)
    requires Ready(cfg, t, w, c) && w.pc.Releasing? && w.pc.next <= |w.locks.slots|
    requires NextLive(w.locks, w.pc.next) == j < |w.locks.slots|
    ensures ReleaseTurn(t, w, w.pc.next).Some?
    ensures Accounted(cfg, t, w, EventOf(t, w, Proceed), ReleaseTurn(t, w, w.pc.next).value)
  {
    hide WorkerOk, TableOk, Moves, Tables.View, Tables.Release, Tables.SeekRow, Balanced, Claims, Held;
    var lock := Lock(w.locks.slots[j].key, w.locks.slots[j].value);
    PassOver(w, j);
    ReadyFacts(cfg, t, w, c);
    StudentLock(w.locks, lock);
    ReturnMoves(t, c, lock);
    ReleasingOk(cfg, Tables.View(t.rows), w, Tables.View(Tables.Release(t, lock.key.key).rows), j + 1);
  }

  /** One turn of the release loop ends and is accounted for. */
  lemma ReleaseAccounted(cfg: Config, t: Tables.Table, w: Worker, c: multiset<Lock>)
    requires Ready(cfg, t, w, c) && w.pc.Releasing?
    ensures ReleaseTurn(t, w, w.pc.next).Some?
    ensures Accounted(cfg, t, w, EventOf(t, w, Proceed), ReleaseTurn(t, w, w.pc.next).value)
  {
    var j := NextLive(w.locks, w.pc.next);
    if j == |w.locks.slots| { ReleaseEndAccounted(cfg, t, w, c); } else { ReleaseOneAccounted(cfg, t, w, c, j); }
  }

  /** The commit loop's `rm_lock` ends exactly when the key is held, and then it is held EXCLUSIVE. */
  lemma DeleteFindsLock(cfg: Config, v: View, w: Worker, k: UniqueKey)
    requires WorkerOk(cfg, v, w) && !w.pc.Stopped? && k.tbl == STUDENT_TBL && Lock(k, SHARED) !in Held(w.locks)
    ensures SeekLock(w.locks, k).Some? <==> Lock(k, EXCLUSIVE) in Held(w.locks)
    ensures SeekLock(w.locks, k).Some? ==> GetLock(w.locks, k) == Some(EXCLUSIVE)
  {
    LookupsAgree(w.locks, k);
    OA.FindsLive(w.locks.slots, TableHash, k);
    if SeekLock(w.locks, k).Some? {
      var m := GetLock(w.locks, k).value;
      assert m == SHARED || m == EXCLUSIVE;
    }
  }

  /** Taking the head off the queue, with no more locks than before, keeps the queue's conditions. */
  lemma PopKeeps(cfg: Config, v: View, w: Worker, l: LockList)
    requires WorkerOk(cfg, v, w) && w.pc.Replaying? && w.queue != []
    requires ListOk(l) && NoStale(l) && Held(l) <= Held(w.locks)
    ensures forall v' :: WorkerOk(cfg, v', w.(locks := l, queue := w.queue[1..]))
  {
    var w' := w.(locks := l, queue := w.queue[1..]);
    forall i | 0 <= i < |w'.queue| && !w'.queue[i].AddItem?
      ensures w'.queue[i].key.tbl == STUDENT_TBL && Lock(w'.queue[i].key, SHARED) !in Held(l)
      ensures w'.queue[i].UpdateItem? ==> w'.queue[i].tuple.key == cfg.stamp(w'.queue[i].key.key)
    {
      assert w'.queue[i] == w.queue[i + 1];
    }
  }

  lemma ReplayAddAccounted(cfg: Config, t: Tables.Table, w: Worker, c: multiset<Lock>)
    requires Ready(cfg, t, w, c) && w.pc.Replaying? && w.queue != [] && w.queue[0].AddItem?
    requires ReplayTurn(t, w).Some? && Tame(t, w, Proceed)
    ensures Accounted(cfg, t, w, EventOf(t, w, Proceed), ReplayTurn(t, w).value)
  {
    hide WorkerOk, ListOk, QueueOk, PcOk, NoStale, Tables.Valid, Tables.Exact, Tables.View, Tables.Insert, Tables.InsertSlot, Balanced, HeldFrom, WriteSetHeld;
    ReadyFacts(cfg, t, w, c);
    if w.queue[0].tbl == STUDENT_TBL { Tables.InsertEffect(t, w.queue[0].student); }
    PopKeeps(cfg, Tables.View(t.rows), w, w.locks);
  }

  lemma ReplayUpdateAccounted(cfg: Config, t: Tables.Table, w: Worker, c: multiset<Lock>)
    requires Ready(cfg, t, w, c) && w.pc.Replaying? && w.queue != [] && w.queue[0].UpdateItem?
    requires ReplayTurn(t, w).Some?
    ensures Accounted(cfg, t, w, EventOf(t, w, Proceed), ReplayTurn(t, w).value)
  {
    hide WorkerOk, ListOk, QueueOk, PcOk, NoStale, Tables.Valid, Tables.Exact, Tables.View, Tables.Write, Tables.SeekRow, Balanced, HeldFrom;
    ReadyFacts(cfg, t, w, c);
    HeadKey(cfg, Tables.View(t.rows), w);
    Tables.WriteEffect(t, w.queue[0].tuple);
    PopKeeps(cfg, Tables.View(t.rows), w, w.locks);
  }

  lemma ReplayAccounted(cfg: Config, t: Tables.Table, w: Worker, c: multiset<Lock>)
    requires Ready(cfg, t, w, c) && w.pc.Replaying? && Tame(t, w, Proceed) && ReplayTurn(t, w).Some?
    ensures Accounted(cfg, t, w, EventOf(t, w, Proceed), ReplayTurn(t, w).value)
  {
    if w.queue != [] {
      match w.queue[0] {
        case AddItem(tbl, student) => ReplayAddAccounted(cfg, t, w, c);
        case DeleteItem(k) => ReplayDeleteAccounted(cfg, t, w, c);
        case UpdateItem(k, tuple) => ReplayUpdateAccounted(cfg, t, w, c);
      }
    }
  }

  /** Removing a row claimed EXCLUSIVE takes it out of the map and keeps the counters exact. */
  lemma RemovalMoves(t: Tables.Table, c: multiset<Lock>, k: UniqueKey)
    requires TableOk(t) && Balanced(Tables.View(t.rows), c) && Lock(k, EXCLUSIVE) in c && k.tbl == STUDENT_TBL
    ensures Tables.SeekRow(t, k.key).Some? && TableOk(Tables.Remove(t, k.key)) && k == Row(k.key)
    ensures Moves(Tables.View(t.rows), Removal(k.key), Tables.View(Tables.Remove(t, k.key).rows))
  {
    ClaimedRow(Tables.View(t.rows), c, Lock(k, EXCLUSIVE));
    Tables.RemoveEffect(t, k.key);
  }

  lemma HeadKey(cfg: Config, v: View, w: Worker)
    requires WorkerOk(cfg, v, w) && w.queue != [] && !w.queue[0].AddItem?
    ensures w.queue[0].key.tbl == STUDENT_TBL && Lock(w.queue[0].key, SHARED) !in Held(w.locks)
  {
    hide ListOk, NoStale, PcOk, WriteSetHeld;
  }

  lemma ReplayDeleteAccounted(cfg: Config, t: Tables.Table, w: Worker, c: multiset<Lock>)
    requires Ready(cfg, t, w, c) && w.pc.Replaying? && w.queue != [] && w.queue[0].DeleteItem?
    requires ReplayTurn(t, w).Some?
    ensures Accounted(cfg, t, w, EventOf(t, w, Proceed), ReplayTurn(t, w).value)
  {
    hide WorkerOk, ListOk, QueueOk, PcOk, NoStale, TableOk, Moves, Tables.View, Tables.Remove, Tables.SeekRow, LockLists.Valid, Balanced,
         RmLock, SeekLock, GetLock, HeldFrom;
    ReadyFacts(cfg, t, w, c);
    HeadKey(cfg, Tables.View(t.rows), w);
    var k := w.queue[0].key;
    DeleteFindsLock(cfg, Tables.View(t.rows), w, k);
    RemovalMoves(t, c, k);
    RmKeeps(w.locks, k);
    PopKeeps(cfg, Tables.View(t.rows), w, RmLock(w.locks, k));
  }

  /** Queueing an operation on a row held EXCLUSIVE keeps the write set held. */
  lemma QueueGrows(cfg: Config, t: Tables.Table, w: Worker, c: multiset<Lock>, item: Commit)
    requires Ready(cfg, t, w, c) && w.pc.Receiving?
    requires item.AddItem? || Lock(item.key, EXCLUSIVE) in Held(w.locks)
    requires item.UpdateItem? ==> item.tuple.key == cfg.stamp(item.key.key)
    ensures QueueOk(cfg, Enqueue(cfg, Shrink(w), item))
  {
    hide ListOk, NoStale, TableOk, HeldFrom, Tables.View, Balanced, PcOk, Claims;
    ReadyFacts(cfg, t, w, c);
    if !item.AddItem? { NotShared(cfg, t, w, c, item.key); }
  }

  /** A row held EXCLUSIVE is not also held SHARED. */
  lemma NotShared(cfg: Config, t: Tables.Table, w: Worker, c: multiset<Lock>, k: UniqueKey)
    requires Ready(cfg, t, w, c) && !w.pc.Releasing? && Lock(k, EXCLUSIVE) in Held(w.locks)
    ensures k.tbl == STUDENT_TBL && Lock(k, SHARED) !in Held(w.locks)
  {
    hide LockLists.Valid, NoStale, TableOk, HeldFrom, Tables.View, QueueOk, PcOk;
    StudentLock(w.locks, Lock(k, EXCLUSIVE));
    assert BalancedAt(Tables.View(t.rows), c, k.key);
    assert Lock(k, SHARED) !in c;
  }

  lemma UpdateAccounted(cfg: Config, t: Tables.Table, w: Worker, c: multiset<Lock>, tbl: Option<nat>, key: Option<nat>, student: Student)
    requires Ready(cfg, t, w, c) && w.pc.Receiving?
    ensures Shaped(t, w)
    ensures Accounted(cfg, t, w, Quiet, Local(ProcessUpdate(cfg, w, tbl, key, student), t, multiset{}))
  {
    hide ListOk, LockLists.Valid, NoStale, TableOk, HeldFrom, Tables.View, Balanced, GetLock;
    ReadyFacts(cfg, t, w, c);
    if Workers.Holds(w, tbl, key, EXCLUSIVE) {
      LookupsAgree(w.locks, UniqueKey(tbl.value, key.value));
      QueueGrows(cfg, t, w, c, UpdateItem(UniqueKey(tbl.value, key.value), StudentTuple(student, cfg.stamp(key.value))));
    }
    IdleAccounted(cfg, t, w, ProcessUpdate(cfg, w, tbl, key, student));
  }

  lemma RmAccounted(cfg: Config, t: Tables.Table, w: Worker, c: multiset<Lock>, tbl: Option<nat>, key: Option<nat>)
    requires Ready(cfg, t, w, c) && w.pc.Receiving?
    ensures Shaped(t, w)
    ensures Accounted(cfg, t, w, Quiet, Local(ProcessRm(cfg, w, tbl, key), t, multiset{}))
  {
    hide ListOk, LockLists.Valid, NoStale, TableOk, HeldFrom, Tables.View, Balanced, GetLock;
    ReadyFacts(cfg, t, w, c);
    if Workers.Holds(w, tbl, key, EXCLUSIVE) {
      LookupsAgree(w.locks, UniqueKey(tbl.value, key.value));
      QueueGrows(cfg, t, w, c, DeleteItem(UniqueKey(tbl.value, key.value)));
    }
    IdleAccounted(cfg, t, w, ProcessRm(cfg, w, tbl, key));
  }

  lemma AddAccounted(cfg: Config, t: Tables.Table, w: Worker, c: multiset<Lock>, tbl: Option<nat>, student: Student)
    requires Ready(cfg, t, w, c) && w.pc.Receiving?
    ensures Accounted(cfg, t, w, Quiet, Local(ProcessAdd(cfg, w, tbl, student), t, multiset{}))
  {
    hide ListOk, LockLists.Valid, NoStale, TableOk, HeldFrom, Tables.View, Balanced;
    ReadyFacts(cfg, t, w, c);
    if tbl == Some(STUDENT_TBL) { QueueGrows(cfg, t, w, c, AddItem(tbl.value, student)); }
    IdleAccounted(cfg, t, w, ProcessAdd(cfg, w, tbl, student));
  }

  lemma PlainAccounted(cfg: Config, t: Tables.Table, w: Worker, c: multiset<Lock>, req: Request)
    requires Ready(cfg, t, w, c) && w.pc.Receiving?
    requires !req.AddTuple? && !req.UpdateRow? && !req.DeleteRow? && !req.YieldRead?
    ensures Shaped(t, w) && Serve(cfg, t, w, req).Some?
    ensures Accounted(cfg, t, w, Quiet, Serve(cfg, t, w, req).value)
  {
    hide ListOk, LockLists.Valid, NoStale, TableOk, HeldFrom, Tables.View, Balanced, GetLock, WriteSetHeld, ProcessAdd, ProcessUpdate, ProcessRm, ProcessYield, Moves;
    ReadyFacts(cfg, t, w, c);
    IdleAccounted(cfg, t, w, Serve(cfg, t, w, req).value.worker);
  }

  /** Every request a worker serves is accounted for, and no probe loop it starts runs for ever. */
  lemma ServeAccounted(cfg: Config, t: Tables.Table, w: Worker, c: multiset<Lock>, req: Request)
    requires Ready(cfg, t, w, c) && w.pc.Receiving?
    ensures Shaped(t, w) && Serve(cfg, t, w, req).Some?
    ensures Accounted(cfg, t, w, EventOf(t, w, Receive(req)), Serve(cfg, t, w, req).value)
  {
    hide WorkerOk, ListOk, QueueOk, PcOk, Claims, NoStale, TableOk, HeldFrom, Tables.View, Balanced, GetLock, SeekLock, RmLock, ProcessAdd, ProcessUpdate, ProcessRm, Moves;
    ReadyFacts(cfg, t, w, c);
    match req {
      case AddTuple(tbl, student) => AddAccounted(cfg, t, w, c, tbl, student);
      case UpdateRow(tbl, key, student) => UpdateAccounted(cfg, t, w, c, tbl, key, student);
      case DeleteRow(tbl, key) => RmAccounted(cfg, t, w, c, tbl, key);
      case YieldRead(tbl, key) =>
        if w.phase == GROWING && Workers.Holds(w, tbl, key, SHARED) {
          YieldAccounted(cfg, t, w, c, UniqueKey(tbl.value, key.value));
        } else {
          IdleBack(cfg, t, w, c);
        }
      case _ => PlainAccounted(cfg, t, w, c, req);
    }
  }

  lemma IdleBack(cfg: Config, t: Tables.Table, w: Worker, c: multiset<Lock>)
    requires Ready(cfg, t, w, c) && w.pc.Receiving?
    ensures Accounted(cfg, t, w, Quiet, Local(Back(w), t, multiset{}))
  {
    hide ListOk, NoStale, TableOk, Tables.View, Balanced;
    ReadyFacts(cfg, t, w, c);
    IdleAccounted(cfg, t, w, Back(w));
  }

  /** The acts that only look at the retry counter, the running flag or a clock. */
  lemma PollAccounted(cfg: Config, t: Tables.Table, w: Worker, c: multiset<Lock>, a: Act)
    requires Ready(cfg, t, w, c) && (a.Check? || a.Timeout? || a.Stop?) && !w.pc.Stopped?
    requires Shaped(t, w) && StepLocal(cfg, t, w, a).Some?
    ensures Accounted(cfg, t, w, Quiet, StepLocal(cfg, t, w, a).value)
  {
    hide ListOk, LockLists.Valid, NoStale, TableOk, HeldFrom, Tables.View, Balanced, GetLock, WriteSetHeld, Serve, CallShared, CallExclusive, Park, Unpark, ReplayTurn, ReleaseTurn;
    ReadyFacts(cfg, t, w, c);
    IdleAccounted(cfg, t, w, StepLocal(cfg, t, w, a).value.worker);
  }

  /** A gone worker is replaced by a fresh one, which holds nothing. */
  lemma StartAccounted(cfg: Config, t: Tables.Table, w: Worker, c: multiset<Lock>)
    requires Ready(cfg, t, w, c) && w.pc.Stopped?
    ensures Accounted(cfg, t, w, Quiet, Local(Fresh(w), t, multiset{}))
    ensures Accounted(cfg, t, w, Quiet, Local(w.(running := false), t, multiset{}))
  {
    hide TableOk, Tables.View, Balanced;
    CountNone(Fresh(w).locks.slots, OA.Live<UniqueKey, LockType>);
    HeldNothing(Fresh(w).locks.slots, 0);
  }

  /** Every enabled step of a ready worker is accounted for by its event. */
  lemma LocalAccounted(cfg: Config, t: Tables.Table, w: Worker, c: multiset<Lock>, a: Act)
    requires Ready(cfg, t, w, c) && Shaped(t, w) && Tame(t, w, a) && StepLocal(cfg, t, w, a).Some?
    ensures Accounted(cfg, t, w, EventOf(t, w, a), StepLocal(cfg, t, w, a).value)
  {
    hide WorkerOk, ListOk, QueueOk, PcOk, Claims, NoStale, TableOk, HeldFrom, Tables.View, Balanced, Moves,
         Serve, Accounted, CallShared, CallExclusive, Park, Unpark, ReplayTurn, ReleaseTurn, CheckRetry, Fresh;
    match a {
      case Start => StartAccounted(cfg, t, w, c);
      case Receive(req) => ServeAccounted(cfg, t, w, c, req);
      case Proceed => ProceedAccounted(cfg, t, w, c);
      case _ => if w.pc.Stopped? { StartAccounted(cfg, t, w, c); } else { PollAccounted(cfg, t, w, c, a); }
    }
  }

  lemma ProceedAccounted(cfg: Config, t: Tables.Table, w: Worker, c: multiset<Lock>)
    requires Ready(cfg, t, w, c) && Shaped(t, w) && Tame(t, w, Proceed) && StepLocal(cfg, t, w, Proceed).Some?
    ensures Accounted(cfg, t, w, EventOf(t, w, Proceed), StepLocal(cfg, t, w, Proceed).value)
  {
    hide WorkerOk, ListOk, QueueOk, PcOk, Claims, NoStale, TableOk, HeldFrom, Tables.View, Balanced, Moves,
         Accounted, Tables.SharedScan, Tables.ExclusiveScan;
    match w.pc {
      case Calling(WantShared, n) => SharedAccounted(cfg, t, w, c);
      case Calling(WantExclusive, n) => ExclusiveAccounted(cfg, t, w, c);
      case Calling(WantPromote(k), n) => ParkAccounted(cfg, t, w, c);
      case Parked(k, n, i) => UnparkAccounted(cfg, t, w, c);
      case Replaying => ReplayAccounted(cfg, t, w, c);
      case Releasing(i) => ReleaseAccounted(cfg, t, w, c);
    }
  }

  // ---- The whole system ----

  lemma InvShaped(cfg: Config, s: State)
    requires Inv(cfg, s)
    ensures WellShaped(s)
  {
    hide Balanced, Tables.View, Tables.Exact, QueueOk, PcOk, NoStale;
    forall v | 0 <= v < |s.workers| ensures |s.workers[v].locks.slots| > 0 {
      assert WorkerOk(cfg, Tables.View(s.table.rows), s.workers[v]);
    }
  }

  lemma InvReady(cfg: Config, s: State, w: nat)
    requires Inv(cfg, s) && w < |s.workers|
    ensures Ready(cfg, s.table, s.workers[w], Total(s))
  {
    hide Balanced, TableOk, WorkerOk, Tables.View;
    ClaimsCounted(s.workers, w);
  }

  /** What any worker claims is a live row, and the row's lock word shows the claim. */
  lemma WorkerClaimsRow(cfg: Config, s: State, w: nat, lock: Lock)
    requires Inv(cfg, s) && w < |s.workers| && lock in Claims(s.workers[w]) && lock.key.tbl == STUDENT_TBL
    ensures lock in Total(s)
    ensures var v := Tables.View(s.table.rows);
            && lock.key.key in v
            && (lock.mode == EXCLUSIVE ==> v[lock.key.key].lock == -1)
            && (lock.mode == SHARED ==> 0 < v[lock.key.key].lock <= Tables.LOCK_MAX)
  {
    hide Tables.View, TableOk, WorkerOk, Balanced, Claims;
    ClaimsCounted(s.workers, w);
    ClaimedRow(Tables.View(s.table.rows), Total(s), lock);
  }

  lemma PromotableClaim(cfg: Config, v: View, u: Worker, k: UniqueKey)
    requires WorkerOk(cfg, v, u) && Promotable(u, k) && !u.pc.Releasing?
    ensures Lock(k, SHARED) in Claims(u)
  {
    hide NoStale, QueueOk, PcOk, HeldFrom, LockLists.Valid, GetLock;
    LookupsAgree(u.locks, k);
  }

  /** The row a promotion is parked on stays where it is, whatever another worker does. */
  lemma ParkedStays(cfg: Config, s: State, w: nat, v: nat, e: Event, view': View)
    requires Inv(cfg, s) && w < |s.workers| && v < |s.workers| && v != w && s.workers[v].pc.Parked?
    requires Moves(Tables.View(s.table.rows), e, view') && Loss(e) <= Claims(s.workers[w])
    ensures s.workers[v].pc.key.key in view' && view'[s.workers[v].pc.key.key].slot == s.workers[v].pc.slot
  {
    hide Tables.View, TableOk, ListOk, NoStale, QueueOk, Balanced, Claims, Promotable;
    var u := s.workers[v];
    assert WorkerOk(cfg, Tables.View(s.table.rows), u);
    PromotableClaim(cfg, Tables.View(s.table.rows), u, u.pc.key);
    assert u.pc.key.tbl == STUDENT_TBL by { PromotableStudent(u, u.pc.key); }
    WorkerClaimsRow(cfg, s, v, Lock(u.pc.key, SHARED));
    if e.Removal? {
      assert Lock(Row(e.key), EXCLUSIVE) in Loss(e);
      WorkerClaimsRow(cfg, s, w, Lock(Row(e.key), EXCLUSIVE));
    }
  }

  lemma PromotableStudent(u: Worker, k: UniqueKey)
    requires Promotable(u, k)
    ensures k.tbl == STUDENT_TBL
  {
  }

  lemma OthersUnmoved(cfg: Config, s: State, w: nat, v: nat, e: Event, view': View)
    requires Inv(cfg, s) && w < |s.workers| && v < |s.workers| && v != w
    requires Moves(Tables.View(s.table.rows), e, view') && Loss(e) <= Claims(s.workers[w])
    ensures WorkerOk(cfg, view', s.workers[v])
  {
    hide Tables.View, TableOk, ListOk, NoStale, QueueOk, Balanced, Claims, Moves, Promotable;
    assert WorkerOk(cfg, Tables.View(s.table.rows), s.workers[v]);
    if s.workers[v].pc.Parked? { ParkedStays(cfg, s, w, v, e, view'); }
  }

  /** Every step that overruns no 8-bit counter keeps the invariant. */
  lemma StepKeepsInv(cfg: Config, s: State, w: nat, a: Act)
    requires Inv(cfg, s) && w < |s.workers| && WellShaped(s)
    requires Tame(s.table, s.workers[w], a) && Step(cfg, s, w, a).Some?
    ensures Inv(cfg, Step(cfg, s, w, a).value)
  {
    hide TableOk, WorkerOk, Balanced, Moves, Claims, StepLocal, Tables.View, EventOf, AllClaims;
    InvReady(cfg, s, w);
    LocalAccounted(cfg, s.table, s.workers[w], Total(s), a);
    var r, e := StepLocal(cfg, s.table, s.workers[w], a).value, EventOf(s.table, s.workers[w], a);
    var s' := Step(cfg, s, w, a).value;
    TotalUpdate(s.workers, w, r.worker);
    Ledger(AllClaims(s.workers), AllClaims(s'.workers), Claims(s.workers[w]), Claims(r.worker), s.leaks, r.leaked, Loss(e), Gain(e));
    MovesKeepBalance(Tables.View(s.table.rows), Total(s), e, Tables.View(s'.table.rows), Total(s'));
    forall v | 0 <= v < |s'.workers| ensures WorkerOk(cfg, Tables.View(s'.table.rows), s'.workers[v]) {
      if v != w { OthersUnmoved(cfg, s, w, v, e, Tables.View(s'.table.rows)); }
    }
  }
}
