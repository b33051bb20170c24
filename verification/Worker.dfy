/**
 * One transaction worker: what each handler does to the worker's own state and, in
 * at most one mutex-protected call, to the shared table.
 */
module Workers {
  import opened Basics
  import opened StudentTuples
  import opened LockLists
  import OA = OpenAddressing
  import Tables = StudentTables

  const STUDENT_TBL := 1

  /**
   * `stamp(k)` is the key carried by the tuple decoded for an UPDATE of key k. Decoding
   * leaves the key of a fresh tuple untouched, so the source has SourceStamp.
   */
  datatype Config = Config(maxCommits: nat, maxRetries: nat, stamp: nat -> nat)

  function SourceStamp(k: nat): nat { 0 }

  datatype Phase = GROWING | SHRINKING | COMMITTED | ABORTED

  datatype Commit =
    | AddItem(tbl: nat, student: Student)
    | UpdateItem(key: UniqueKey, tuple: StudentTuple)
    | DeleteItem(key: UniqueKey)

  /** A decoded request; a field that the message is too short to hold is None. */
  datatype Request =
    | StartTxn
    | CommitTxn
    | AbortTxn
    | AddTuple(tbl: Option<nat>, student: Student)
    | SharedRead(tbl: Option<nat>)
    | ExclusiveRead(tbl: Option<nat>)
    | YieldRead(tbl: Option<nat>, key: Option<nat>)
    | Promote(tbl: Option<nat>, key: Option<nat>)
    | UpdateRow(tbl: Option<nat>, key: Option<nat>, student: Student)
    | DeleteRow(tbl: Option<nat>, key: Option<nat>)
    | BadRequest

  datatype Want = WantShared | WantExclusive | WantPromote(key: UniqueKey)

  /**
   * Where the worker thread is: at the head of its loop, waiting for a job, at the head
   * of a retry loop, inside the waiting table call (for a promotion, already parked on
   * the slot its probe found), in the commit loop, in the release loop, or gone.
   */
  datatype Pc =
    | LoopHead
    | Receiving
    | Trying(want: Want, tries: nat)
    | Calling(want: Want, tries: nat)
    | Parked(key: UniqueKey, tries: nat, slot: nat)
    | Replaying
    | Releasing(next: nat)
    | Stopped

  datatype Worker = Worker(phase: Phase, locks: LockList, queue: seq<Commit>, pc: Pc, running: bool)

  /** A worker, the shared table, and the row locks taken without being recorded in any list. */
  datatype Local = Local(worker: Worker, table: Tables.Table, leaked: multiset<Lock>)

  datatype Act = Stop | Start | Check | Timeout | Receive(request: Request) | Proceed

  predicate Shaped(t: Tables.Table, w: Worker) { |t.rows| > 0 && |w.locks.slots| > 0 }

  function Back(w: Worker): Worker { w.(pc := LoopHead) }

  function Shrink(w: Worker): Worker { if w.phase == GROWING then w.(phase := SHRINKING) else w }

  function Fresh(w: Worker): Worker {
    Worker(GROWING, LockList(seq(|w.locks.slots|, i => OA.Slot(UniqueKey(0, 0), EXCLUSIVE, false, false)), 0), [], LoopHead, true)
  }

  // ---- Handlers without waiting ----

  function Enqueue(cfg: Config, w: Worker, item: Commit): Worker {
    Back(if |w.queue| >= cfg.maxCommits then w else w.(queue := w.queue + [item]))
  }

  function ProcessAdd(cfg: Config, w: Worker, tbl: Option<nat>, student: Student): Worker {
    if tbl != Some(STUDENT_TBL) then Back(Shrink(w)) else Enqueue(cfg, Shrink(w), AddItem(tbl.value, student))
  }

  predicate Holds(w: Worker, tbl: Option<nat>, key: Option<nat>, mode: LockType)
    requires |w.locks.slots| > 0
  {
    tbl.Some? && key.Some? && GetLock(w.locks, UniqueKey(tbl.value, key.value)) == Some(mode)
  }

  function ProcessUpdate(cfg: Config, w: Worker, tbl: Option<nat>, key: Option<nat>, student: Student): Worker
    requires |w.locks.slots| > 0
  {
    if !Holds(w, tbl, key, EXCLUSIVE) || tbl.value != STUDENT_TBL then Back(Shrink(w))
    else Enqueue(cfg, Shrink(w), UpdateItem(UniqueKey(tbl.value, key.value), StudentTuple(student, cfg.stamp(key.value))))
  }

  function ProcessRm(cfg: Config, w: Worker, tbl: Option<nat>, key: Option<nat>): Worker
    requires |w.locks.slots| > 0
  {
    if !Holds(w, tbl, key, EXCLUSIVE) then Back(Shrink(w))
    else Enqueue(cfg, Shrink(w), DeleteItem(UniqueKey(tbl.value, key.value)))
  }

  /** None when a probe loop would not end. */
  function ProcessYield(t: Tables.Table, w: Worker, tbl: Option<nat>, key: Option<nat>): Option<Local>
    requires Shaped(t, w)
  {
    if w.phase != GROWING || !Holds(w, tbl, key, SHARED) then Some(Local(Back(w), t, multiset{}))
    else
      var k := UniqueKey(tbl.value, key.value);
      if SeekLock(w.locks, k).None? then None
      else
        var w' := Back(w).(locks := RmLock(w.locks, k));
        if k.tbl != STUDENT_TBL then Some(Local(w', t, multiset{}))
        else if Tables.SeekRow(t, k.key).None? then None
        else Some(Local(w', Tables.Release(t, k.key), multiset{}))
  }

  function Serve(cfg: Config, t: Tables.Table, w: Worker, req: Request): Option<Local>
    requires Shaped(t, w)
  {
    match req
    case StartTxn | BadRequest => Some(Local(Back(w), t, multiset{}))
    case CommitTxn =>
      Some(Local(w.(pc := if w.phase == SHRINKING then Replaying else Releasing(0)), t, multiset{}))
    case AbortTxn => Some(Local(w.(pc := Releasing(0)), t, multiset{}))
    case AddTuple(tbl, student) => Some(Local(ProcessAdd(cfg, w, tbl, student), t, multiset{}))
    case SharedRead(tbl) =>
      Some(Local(if w.phase != GROWING || tbl != Some(STUDENT_TBL) then Back(w)
                 else w.(pc := Trying(WantShared, 0)), t, multiset{}))
    case ExclusiveRead(tbl) =>
      Some(Local(if w.phase != GROWING || tbl != Some(STUDENT_TBL) then Back(w)
                 else w.(pc := Trying(WantExclusive, 0)), t, multiset{}))
    case YieldRead(tbl, key) => ProcessYield(t, w, tbl, key)
    case Promote(tbl, key) =>
      Some(Local(if w.phase != GROWING || !Holds(w, tbl, key, SHARED) || tbl.value != STUDENT_TBL then Back(w)
                 else w.(pc := Trying(WantPromote(UniqueKey(tbl.value, key.value)), 0)), t, multiset{}))
    case UpdateRow(tbl, key, student) => Some(Local(ProcessUpdate(cfg, w, tbl, key, student), t, multiset{}))
    case DeleteRow(tbl, key) => Some(Local(ProcessRm(cfg, w, tbl, key), t, multiset{}))
  }

  // ---- Reads and promotions: retry loops around waiting calls ----

  function CheckRetry(cfg: Config, w: Worker): Worker
    requires w.pc.Trying?
  {
    if w.pc.tries >= cfg.maxRetries then
      if w.pc.want.WantPromote? then Back(w).(phase := ABORTED) else Back(w)
    else if !w.running then
      if w.pc.want.WantPromote? then Back(w) else Back(w).(phase := ABORTED)
    else w.(pc := Calling(w.pc.want, w.pc.tries))
  }

  function Retry(w: Worker, want: Want, tries: nat): Worker { w.(pc := Trying(want, tries + 1)) }

  /** Record a granted row lock; a grant the list refuses stays on the row without a record. */
  function Record(t: Tables.Table, w: Worker, lock: Lock): Option<Local>
    requires Shaped(t, w)
  {
    if w.locks.size < |w.locks.slots| && InsertSlot(w.locks, lock.key).None? then None
    else
      var (l, e) := AddLock(w.locks, lock);
      Some(Local(Back(w).(locks := l), t, if e == NoError then multiset{} else multiset{lock}))
  }

  function CallShared(t: Tables.Table, w: Worker, tries: nat): Option<Local>
    requires Shaped(t, w)
  {
    if t.sAvail == 0 then None
    else
      match Tables.SharedScan(t)
      case None => Some(Local(Retry(w, WantShared, tries), t, multiset{}))
      case Some(i) => Record(Tables.GrantShared(t, i), w, Lock(UniqueKey(STUDENT_TBL, t.rows[i].key), SHARED))
  }

  function CallExclusive(t: Tables.Table, w: Worker, tries: nat): Option<Local>
    requires Shaped(t, w)
  {
    if t.xAvail == 0 then None
    else
      match Tables.ExclusiveScan(t)
      case None => Some(Local(Retry(w, WantExclusive, tries), t, multiset{}))
      case Some(i) => Record(Tables.GrantExclusive(t, i), w, Lock(UniqueKey(STUDENT_TBL, t.rows[i].key), EXCLUSIVE))
  }

  /** The promotion's probe, which fixes the slot it then waits on. */
  function Park(t: Tables.Table, w: Worker, k: UniqueKey, tries: nat): Option<Local>
    requires Shaped(t, w)
  {
    match Tables.SeekRow(t, k.key)
    case None => None
    case Some(i) => Some(Local(w.(pc := Parked(k, tries, i)), t, multiset{}))
  }

  function Unpark(t: Tables.Table, w: Worker, k: UniqueKey, i: nat): Option<Local>
    requires Shaped(t, w)
  {
    if i >= |t.rows| || t.rows[i].value.lock != 1 || SearchLock(w.locks, k).None? then None
    else Some(Local(Back(w).(locks := PromoteLock(w.locks, k)), Tables.PromoteAt(t, i), multiset{}))
  }

  // ---- Commit and release loops, one table call a turn ----

  /** One item of the commit loop; None while it blocks or when a probe loop would not end. */
  function ReplayItem(t: Tables.Table, w: Worker, item: Commit): Option<Local>
    requires Shaped(t, w)
  {
    match item
    case AddItem(tbl, student) =>
      if tbl != STUDENT_TBL then Some(Local(w, t, multiset{}))
      else if t.size == |t.rows| || Tables.InsertSlot(t).None? then None
      else Some(Local(w, Tables.Insert(t, student), multiset{}))
    case DeleteItem(k) =>
      if SeekLock(w.locks, k).None? then None
      else
        var w' := w.(locks := RmLock(w.locks, k));
        if k.tbl != STUDENT_TBL then Some(Local(w', t, multiset{}))
        else if Tables.SeekRow(t, k.key).None? then None
        else Some(Local(w', Tables.Remove(t, k.key), multiset{}))
    case UpdateItem(k, tuple) =>
      if k.tbl != STUDENT_TBL then Some(Local(w, t, multiset{}))
      else if Tables.SeekRow(t, tuple.key).None? then None
      else Some(Local(w, Tables.Write(t, tuple), multiset{}))
  }

  function ReplayTurn(t: Tables.Table, w: Worker): Option<Local>
    requires Shaped(t, w)
  {
    if w.queue == [] then Some(Local(w.(pc := Releasing(0)), t, multiset{}))
    else
      match ReplayItem(t, w, w.queue[0])
      case None => None
      case Some(r) => Some(r.(worker := r.worker.(queue := w.queue[1..])))
  }

  function ReleaseTurn(t: Tables.Table, w: Worker, i: nat): Option<Local>
    requires Shaped(t, w)
  {
    var n := |w.locks.slots|;
    var j := if i <= n then NextLive(w.locks, i) else n;
    if j == n then Some(Local(w.(locks := Clear(w.locks), queue := [], pc := Stopped), t, multiset{}))
    else
      var k := w.locks.slots[j].key;
      var w' := w.(pc := Releasing(j + 1));
      if k.tbl != STUDENT_TBL then Some(Local(w', t, multiset{}))
      else if Tables.SeekRow(t, k.key).None? then None
      else Some(Local(w', Tables.Release(t, k.key), multiset{}))
  }

  /** One step of one worker; None when the act is not enabled. */
  function StepLocal(cfg: Config, t: Tables.Table, w: Worker, a: Act): Option<Local>
    requires Shaped(t, w)
  {
    match a
    case Stop => Some(Local(w.(running := false), t, multiset{}))
    case Start => if w.pc.Stopped? then Some(Local(Fresh(w), t, multiset{})) else None
    case Check =>
      if w.pc.LoopHead? then Some(Local(w.(pc := if w.running then Receiving else Releasing(0)), t, multiset{}))
      else if w.pc.Trying? then Some(Local(CheckRetry(cfg, w), t, multiset{}))
      else None
    case Timeout =>
      (match w.pc
       case Receiving => Some(Local(Back(w), t, multiset{}))
       case Calling(WantShared, n) =>
         if t.size == 0 || t.sAvail == 0 then Some(Local(Retry(w, WantShared, n), t, multiset{})) else None
       case Calling(WantExclusive, n) =>
         if t.size == 0 || t.xAvail == 0 then Some(Local(Retry(w, WantExclusive, n), t, multiset{})) else None
       case Parked(k, n, i) =>
         if i < |t.rows| && t.rows[i].value.lock != 1 then Some(Local(Retry(w, WantPromote(k), n), t, multiset{})) else None
       case _ => None)
    case Receive(req) => if w.pc.Receiving? then Serve(cfg, t, w, req) else None
    case Proceed =>
      (match w.pc
       case Calling(WantShared, n) => CallShared(t, w, n)
       case Calling(WantExclusive, n) => CallExclusive(t, w, n)
       case Calling(WantPromote(k), n) => Park(t, w, k, n)
       case Parked(k, n, i) => Unpark(t, w, k, i)
       case Replaying => ReplayTurn(t, w)
       case Releasing(i) => ReleaseTurn(t, w, i)
       case _ => None)
  }
}
