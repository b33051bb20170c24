/**
 * Commits are atomic but for what they insert: although replays of several workers
 * interleave item by item, the records evolve as if each commit made all its updates and
 * deletions at the moment it began; insertions take their keys, and effect, one by one.
 */
module Commits {
  import opened Basics
  import opened StudentTuples
  import opened LockLists
  import opened Workers
  import opened Protocol
  import opened Runs
  import opened Transactions
  import OA = OpenAddressing
  import Tables = StudentTables

  // ---- Write sets on the key-to-record map ----

  /** The effect a queued UPDATE or DELETE is meant to have; insertions take their own key and are not part of it. */
  function ApplyItem(d: Data, item: Commit): Data {
    match item
    case AddItem(tbl, student) => d
    case UpdateItem(k, tuple) => if k.key in d then d[k.key := tuple.student] else d
    case DeleteItem(k) => d - {k.key}
  }

  function ApplyItems(d: Data, items: seq<Commit>): Data {
    if items == [] then d else ApplyItems(ApplyItem(d, items[0]), items[1..])
  }

  function KeysOf(items: seq<Commit>): set<nat> {
    set i | 0 <= i < |items| && !items[i].AddItem? :: items[i].key.key
  }

  lemma {:induction false} ApplyConcat(d: Data, a: seq<Commit>, b: seq<Commit>)
    ensures ApplyItems(d, a + b) == ApplyItems(ApplyItems(d, a), b)
    decreases |a|
  {
    if a == [] {
      assert a + b == b;
    } else {
      assert (a + b)[1..] == a[1..] + b;
      ApplyConcat(ApplyItem(d, a[0]), a[1..], b);
    }
  }

  /** An item commutes with a write set that does not name its key. */
  lemma {:induction false} ItemCommutes(d: Data, x: Commit, b: seq<Commit>)
    requires x.AddItem? || x.key.key !in KeysOf(b)
    ensures ApplyItems(ApplyItem(d, x), b) == ApplyItem(ApplyItems(d, b), x)
    decreases |b|
  {
    if b != [] {
      var y := b[0];
      assert !y.AddItem? ==> y.key.key in KeysOf(b);
      assert KeysOf(b[1..]) <= KeysOf(b) by { TailKeys(b); }
      assert ApplyItem(ApplyItem(d, x), y) == ApplyItem(ApplyItem(d, y), x);
      ItemCommutes(ApplyItem(d, y), x, b[1..]);
    }
  }

  lemma TailKeys(b: seq<Commit>)
    requires b != []
    ensures KeysOf(b[1..]) <= KeysOf(b)
  {
    forall k | k in KeysOf(b[1..]) ensures k in KeysOf(b) {
      var i :| 0 <= i < |b[1..]| && !b[1..][i].AddItem? && b[1..][i].key.key == k;
      assert b[i + 1] == b[1..][i];
    }
  }

  /** Write sets on disjoint keys may be applied in either order. */
  lemma {:induction false} WriteSetsCommute(d: Data, a: seq<Commit>, b: seq<Commit>)
    requires KeysOf(a) !! KeysOf(b)
    ensures ApplyItems(ApplyItems(d, a), b) == ApplyItems(ApplyItems(d, b), a)
    decreases |a|
  {
    if a != [] {
      TailKeys(a);
      assert !a[0].AddItem? ==> a[0].key.key in KeysOf(a);
      WriteSetsCommute(ApplyItem(d, a[0]), a[1..], b);
      ItemCommutes(d, a[0], b);
    }
  }

  /** Inserting a record under a key that a write set does not name commutes with it. */
  lemma {:induction false} InsertCommutes(d: Data, k: nat, student: Student, b: seq<Commit>)
    requires k !in KeysOf(b)
    ensures ApplyItems(d[k := student], b) == ApplyItems(d, b)[k := student]
    decreases |b|
  {
    if b != [] {
      assert !b[0].AddItem? ==> b[0].key.key in KeysOf(b);
      TailKeys(b);
      assert ApplyItem(d[k := student], b[0]) == ApplyItem(d, b[0])[k := student];
      InsertCommutes(ApplyItem(d, b[0]), k, student, b[1..]);
    }
  }

  // ---- Interleavings of two queues ----

  /** `q` takes the items of `a` and of `b`, each in its own order. */
  ghost predicate Interleaves(q: seq<Commit>, a: seq<Commit>, b: seq<Commit>)
    decreases |q|
  {
    if q == [] then a == [] && b == []
    else
      || (a != [] && q[0] == a[0] && Interleaves(q[1..], a[1..], b))
      || (b != [] && q[0] == b[0] && Interleaves(q[1..], a, b[1..]))
  }

  /** Any interleaving of two write sets on disjoint keys amounts to one whole write set and then the other. */
  lemma {:induction false} InterleavingIsSerial(d: Data, q: seq<Commit>, a: seq<Commit>, b: seq<Commit>)
    requires Interleaves(q, a, b) && KeysOf(a) !! KeysOf(b)
    ensures ApplyItems(d, q) == ApplyItems(d, a + b) == ApplyItems(d, b + a)
    decreases |q|
  {
    ApplyConcat(d, a, b);
    ApplyConcat(d, b, a);
    WriteSetsCommute(d, a, b);
    if q != [] {
      if a != [] && q[0] == a[0] && Interleaves(q[1..], a[1..], b) {
        TailKeys(a);
        InterleavingIsSerial(ApplyItem(d, a[0]), q[1..], a[1..], b);
        ApplyConcat(ApplyItem(d, a[0]), a[1..], b);
      } else {
        TailKeys(b);
        InterleavingIsSerial(ApplyItem(d, b[0]), q[1..], a, b[1..]);
        ApplyConcat(ApplyItem(d, b[0]), b[1..], a);
      }
    }
  }

  // ---- Insertions: the keys they are given depend on the order they run in ----

  /** The records after a replay that starts when `next` is the next key. */
  function Replayed(d: Data, next: nat, items: seq<Commit>): Data
    decreases |items|
  {
    if items == [] then d
    else
      match items[0]
      case AddItem(tbl, student) =>
        if tbl == STUDENT_TBL then Replayed(d[next := student], (next + 1) % Tables.KEY_SPACE, items[1..])
        else Replayed(d, next, items[1..])
      case _ => Replayed(ApplyItem(d, items[0]), next, items[1..])
  }

  /** The records that a write set adds, in order. */
  function Added(items: seq<Commit>): seq<Student> {
    if items == [] then []
    else (if items[0].AddItem? && items[0].tbl == STUDENT_TBL then [items[0].student] else []) + Added(items[1..])
  }

  /** Records filed under consecutive keys. */
  function Numbered(d: Data, next: nat, students: seq<Student>): Data
    decreases |students|
  {
    if students == [] then d else Numbered(d[next := students[0]], (next + 1) % Tables.KEY_SPACE, students[1..])
  }

  /** None of the next `n` keys is in `keys`. */
  predicate FreshKeys(next: nat, n: nat, keys: set<nat>)
    decreases n
  {
    n > 0 ==> next !in keys && FreshKeys((next + 1) % Tables.KEY_SPACE, n - 1, keys)
  }

  lemma {:induction false} FreshFewer(next: nat, n: nat, keys: set<nat>, fewer: set<nat>)
    requires FreshKeys(next, n, keys) && fewer <= keys
    ensures FreshKeys(next, n, fewer)
    decreases n
  {
    if n > 0 { FreshFewer((next + 1) % Tables.KEY_SPACE, n - 1, keys, fewer); }
  }

  /** A replay does what its updates and deletions do, and files what it adds under the next keys. */
  lemma {:induction false} ReplayedSplits(d: Data, next: nat, items: seq<Commit>)
    requires FreshKeys(next, |Added(items)|, KeysOf(items))
    ensures Replayed(d, next, items) == Numbered(ApplyItems(d, items), next, Added(items))
    decreases |items|
  {
    if items != [] {
      var x, rest := items[0], items[1..];
      TailKeys(items);
      FreshFewer(next, |Added(items)|, KeysOf(items), KeysOf(rest));
      if x.AddItem? && x.tbl == STUDENT_TBL {
        assert Added(items) == [x.student] + Added(rest);
        ReplayedSplits(d[next := x.student], (next + 1) % Tables.KEY_SPACE, rest);
        InsertCommutes(d, next, x.student, rest);
      } else {
        assert Added(items) == Added(rest);
        ReplayedSplits(ApplyItem(d, x), next, rest);
      }
    }
  }

  lemma {:induction false} NumberedElsewhere(d: Data, next: nat, students: seq<Student>, k: nat)
    requires FreshKeys(next, |students|, {k})
    ensures k in Numbered(d, next, students) <==> k in d
    ensures k in d ==> Numbered(d, next, students)[k] == d[k]
    decreases |students|
  {
    if students != [] { NumberedElsewhere(d[next := students[0]], (next + 1) % Tables.KEY_SPACE, students[1..], k); }
  }

  /** Up to 256 consecutive keys differ from one another. */
  lemma {:induction false} KeysAhead(next: nat, m: nat, n: nat, k: nat)
    requires next < Tables.KEY_SPACE && k < Tables.KEY_SPACE && 0 < m && m + n <= Tables.KEY_SPACE && next == (k + m) % Tables.KEY_SPACE
    ensures FreshKeys(next, n, {k})
    decreases n
  {
    if n > 0 {
      KeysAhead((next + 1) % Tables.KEY_SPACE, m + 1, n - 1, k);
    }
  }

  /** The filing shows its order. */
  lemma {:induction false} NumberedInjective(d: Data, next: nat, a: seq<Student>, b: seq<Student>)
    requires next < Tables.KEY_SPACE && |a| == |b| <= Tables.KEY_SPACE
    ensures Numbered(d, next, a) == Numbered(d, next, b) <==> a == b
    decreases |a|
  {
    if a != [] {
      var next' := (next + 1) % Tables.KEY_SPACE;
      KeysAhead(next', 1, |a| - 1, next);
      NumberedElsewhere(d[next := a[0]], next', a[1..], next);
      NumberedElsewhere(d[next := b[0]], next', b[1..], next);
      assert a == [a[0]] + a[1..] && b == [b[0]] + b[1..];
      if a[0] == b[0] { NumberedInjective(d[next := a[0]], next', a[1..], b[1..]); }
    }
  }

  lemma {:induction false} AddedConcat(a: seq<Commit>, b: seq<Commit>)
    ensures Added(a + b) == Added(a) + Added(b)
    decreases |a|
  {
    if a == [] {
      assert a + b == b;
    } else {
      assert (a + b)[1..] == a[1..] + b;
      AddedConcat(a[1..], b);
    }
  }

  lemma KeysConcat(a: seq<Commit>, b: seq<Commit>)
    ensures KeysOf(a + b) == KeysOf(a) + KeysOf(b)
  {
    forall k | k in KeysOf(a) + KeysOf(b) ensures k in KeysOf(a + b) {
      if k in KeysOf(a) {
        var i :| 0 <= i < |a| && !a[i].AddItem? && a[i].key.key == k;
        assert (a + b)[i] == a[i];
      } else {
        var i :| 0 <= i < |b| && !b[i].AddItem? && b[i].key.key == k;
        assert (a + b)[|a| + i] == b[i];
      }
    }
  }

  lemma {:induction false} InterleavingParts(q: seq<Commit>, a: seq<Commit>, b: seq<Commit>)
    requires Interleaves(q, a, b)
    ensures KeysOf(q) <= KeysOf(a) + KeysOf(b) && |Added(q)| == |Added(a)| + |Added(b)|
    decreases |q|
  {
    if q != [] {
      HeadKeys(q);
      if a != [] && q[0] == a[0] && Interleaves(q[1..], a[1..], b) {
        InterleavingParts(q[1..], a[1..], b);
        HeadKeys(a);
      } else {
        InterleavingParts(q[1..], a, b[1..]);
        HeadKeys(b);
      }
    }
  }

  lemma HeadKeys(q: seq<Commit>)
    requires q != []
    ensures KeysOf(q) == (if q[0].AddItem? then {} else {q[0].key.key}) + KeysOf(q[1..])
  {
    assert q == [q[0]] + q[1..];
    KeysConcat([q[0]], q[1..]);
    assert KeysOf([q[0]]) == if q[0].AddItem? then {} else {q[0].key.key} by {
      assert forall k :: k in KeysOf([q[0]]) ==> k == [q[0]][0].key.key;
      if !q[0].AddItem? { assert [q[0]][0].key.key in KeysOf([q[0]]); }
    }
  }

  /**
   * With insertions, an interleaving of two write sets gives the same records as one
   * whole write set after the other exactly when it runs their insertions in that order;
   * updates and deletions never make a difference.
   */
  lemma InterleavingWithInsertions(d: Data, next: nat, q: seq<Commit>, a: seq<Commit>, b: seq<Commit>)
    requires Interleaves(q, a, b) && KeysOf(a) !! KeysOf(b) && next < Tables.KEY_SPACE
    requires |Added(a)| + |Added(b)| <= Tables.KEY_SPACE && FreshKeys(next, |Added(a)| + |Added(b)|, KeysOf(a) + KeysOf(b))
    ensures Replayed(d, next, q) == Replayed(d, next, a + b) <==> Added(q) == Added(a) + Added(b)
    ensures Replayed(d, next, q) == Replayed(d, next, b + a) <==> Added(q) == Added(b) + Added(a)
  {
    hide Replayed, Added, Numbered, ApplyItems, Interleaves, FreshKeys, KeysOf;
    InterleavingIsSerial(d, q, a, b);
    InterleavingParts(q, a, b);
    AddedConcat(a, b);
    AddedConcat(b, a);
    KeysConcat(a, b);
    KeysConcat(b, a);
    var n, keys := |Added(a)| + |Added(b)|, KeysOf(a) + KeysOf(b);
    FreshFewer(next, n, keys, KeysOf(q));
    assert KeysOf(b) + KeysOf(a) == keys && |Added(q)| == |Added(a + b)| == |Added(b + a)| == n;
    ReplayedSplits(d, next, q);
    ReplayedSplits(d, next, a + b);
    ReplayedSplits(d, next, b + a);
    NumberedInjective(ApplyItems(d, q), next, Added(q), Added(a + b));
    NumberedInjective(ApplyItems(d, q), next, Added(q), Added(b + a));
  }

  /** A client can see to it: when only one of two write sets adds anything, every interleaving of them is serial. */
  lemma OneInserterIsSerial(d: Data, next: nat, q: seq<Commit>, a: seq<Commit>, b: seq<Commit>)
    requires Interleaves(q, a, b) && KeysOf(a) !! KeysOf(b) && next < Tables.KEY_SPACE && Added(b) == []
    requires |Added(a)| <= Tables.KEY_SPACE && FreshKeys(next, |Added(a)|, KeysOf(a) + KeysOf(b))
    ensures Replayed(d, next, q) == Replayed(d, next, a + b) == Replayed(d, next, b + a)
  {
    AddedOfOne(q, a, b);
    InterleavingWithInsertions(d, next, q, a, b);
  }

  lemma {:induction false} AddedOfOne(q: seq<Commit>, a: seq<Commit>, b: seq<Commit>)
    requires Interleaves(q, a, b) && Added(b) == []
    ensures Added(q) == Added(a)
    decreases |q|
  {
    if q != [] {
      if a != [] && q[0] == a[0] && Interleaves(q[1..], a[1..], b) { AddedOfOne(q[1..], a[1..], b); }
      else { AddedOfOne(q[1..], a, b[1..]); }
    }
  }

  // ---- What the replaying workers still have to do ----

  function Remaining(w: Worker): seq<Commit> { if w.pc.Replaying? then w.queue else [] }

  function Pending(ws: seq<Worker>): seq<Commit> {
    if ws == [] then [] else Remaining(ws[0]) + Pending(ws[1..])
  }

  lemma {:induction false} PendingConcat(a: seq<Worker>, b: seq<Worker>)
    ensures Pending(a + b) == Pending(a) + Pending(b)
    decreases |a|
  {
    if a == [] {
      assert a + b == b;
    } else {
      assert (a + b)[1..] == a[1..] + b;
      PendingConcat(a[1..], b);
    }
  }

  lemma PendingSplit(ws: seq<Worker>, i: nat)
    requires i < |ws|
    ensures Pending(ws) == Pending(ws[..i]) + Remaining(ws[i]) + Pending(ws[i+1..])
  {
    assert ws == ws[..i] + ws[i..] && ws[i..][1..] == ws[i+1..] && ws[i..][0] == ws[i];
    var rest := ws[i..];
    assert Pending(rest) == Remaining(rest[0]) + Pending(rest[1..]);
    hide Pending, Remaining;
    PendingConcat(ws[..i], rest);
    Regroup(Pending(ws[..i]), Remaining(ws[i]), Pending(ws[i+1..]));
  }

  lemma Regroup<T>(a: seq<T>, b: seq<T>, c: seq<T>)
    ensures a + (b + c) == a + b + c
  {
  }

  lemma {:induction false} PendingKey(ws: seq<Worker>, k: nat) returns (i: nat)
    requires k in KeysOf(Pending(ws))
    ensures i < |ws| && k in KeysOf(Remaining(ws[i]))
    decreases |ws|
  {
    var j :| 0 <= j < |Pending(ws)| && !Pending(ws)[j].AddItem? && Pending(ws)[j].key.key == k;
    var n := |Remaining(ws[0])|;
    if j < n {
      assert Remaining(ws[0])[j] == Pending(ws)[j];
      i := 0;
    } else {
      assert Pending(ws[1..])[j - n] == Pending(ws)[j];
      i := PendingKey(ws[1..], k);
      i := i + 1;
    }
  }

  /** The records as they will be once every commit under way has finished. */
  ghost function Settled(s: State): Data { ApplyItems(Store(s), Pending(s.workers)) }

  // ---- Orderly workers ----

  /** No operation is queued on a key after its DELETE. */
  predicate WellFormed(queue: seq<Commit>) {
    forall i, j :: 0 <= i < j < |queue| && queue[i].DeleteItem? && !queue[j].AddItem? ==> queue[j].key != queue[i].key
  }

  ghost predicate OrderlyWorker(w: Worker) {
    && WellFormed(w.queue)
    && (w.pc.Replaying? ==> WriteSetHeld(w.queue, w.locks))
    && (forall i :: 0 <= i < |w.queue| && w.queue[i].UpdateItem? ==> w.queue[i].tuple.key == w.queue[i].key.key)
  }

  ghost predicate Orderly(s: State) {
    forall w :: 0 <= w < |s.workers| ==> OrderlyWorker(s.workers[w])
  }

  predicate Deletes(w: Worker, key: Option<nat>) {
    exists i :: 0 <= i < |w.queue| && w.queue[i].DeleteItem? && key == Some(w.queue[i].key.key)
  }

  /** What the client can see to: no operation on a row whose DELETE it has sent, no UPDATE whose tuple is stamped with another key. */
  predicate Courteous(cfg: Config, w: Worker, a: Act) {
    match a
    case Receive(UpdateRow(tbl, key, student)) =>
      w.pc.Receiving? ==> !Deletes(w, key) && (key.Some? ==> cfg.stamp(key.value) == key.value)
    case Receive(DeleteRow(tbl, key)) => w.pc.Receiving? ==> !Deletes(w, key)
    case _ => true
  }

  /** Queueing an operation on a row that the worker holds and has not deleted keeps it orderly. */
  lemma OrderlyEnqueue(cfg: Config, w: Worker, item: Commit)
    requires OrderlyWorker(w) && w.pc.Receiving?
    requires !item.AddItem? ==> !Deletes(w, Some(item.key.key))
    requires item.UpdateItem? ==> item.tuple.key == item.key.key
    ensures OrderlyWorker(Enqueue(cfg, Shrink(w), item))
  {
    hide WriteSetHeld;
    var w' := Enqueue(cfg, Shrink(w), item);
    forall i, j | 0 <= i < j < |w'.queue| && w'.queue[i].DeleteItem? && !w'.queue[j].AddItem?
      ensures w'.queue[j].key != w'.queue[i].key
    {
      assert w'.queue[i] == w.queue[i];
    }
  }

  /** Orderliness asks nothing of a step but that the client's requests are courteous. */
  lemma OrderlyServe(cfg: Config, t: Tables.Table, w: Worker, c: multiset<Lock>, req: Request)
    requires Ready(cfg, t, w, c) && Shaped(t, w) && w.pc.Receiving? && Serve(cfg, t, w, req).Some?
    requires OrderlyWorker(w) && Courteous(cfg, w, Receive(req))
    ensures OrderlyWorker(Serve(cfg, t, w, req).value.worker)
  {
    hide OrderlyWorker, WorkerOk, ListOk, NoStale, TableOk, Balanced, Tables.View, GetLock, SeekLock, RmLock, Tables.Release, Tables.SeekRow,
         HeldFrom, PcOk, Enqueue, Deletes;
    match req {
      case AddTuple(tbl, student) =>
        if tbl.Some? { OrderlyEnqueue(cfg, w, AddItem(tbl.value, student)); }
        OrderlyIdle(w, Back(Shrink(w)));
      case UpdateRow(tbl, key, student) =>
        if tbl.Some? && key.Some? {
          OrderlyEnqueue(cfg, w, UpdateItem(UniqueKey(tbl.value, key.value), StudentTuple(student, cfg.stamp(key.value))));
        }
        OrderlyIdle(w, Back(Shrink(w)));
      case DeleteRow(tbl, key) =>
        if tbl.Some? && key.Some? { OrderlyEnqueue(cfg, w, DeleteItem(UniqueKey(tbl.value, key.value))); }
        OrderlyIdle(w, Back(Shrink(w)));
      case CommitTxn => OrderlyCommit(cfg, t, w, c);
      case _ => OrderlyIdle(w, Serve(cfg, t, w, req).value.worker);
    }
  }

  lemma OrderlyCommit(cfg: Config, t: Tables.Table, w: Worker, c: multiset<Lock>)
    requires Ready(cfg, t, w, c) && Shaped(t, w) && w.pc.Receiving? && OrderlyWorker(w)
    ensures OrderlyWorker(Serve(cfg, t, w, CommitTxn).value.worker)
  {
    hide WorkerOk, ListOk, NoStale, TableOk, Balanced, Tables.View, HeldFrom, PcOk;
    ReadyFacts(cfg, t, w, c);
  }

  lemma OrderlyPop(w: Worker, l: LockList)
    requires OrderlyWorker(w) && w.pc.Replaying? && w.queue != []
    requires forall x :: x in Held(w.locks) && !(w.queue[0].DeleteItem? && x.key == w.queue[0].key) ==> x in Held(l)
    ensures OrderlyWorker(w.(locks := l, queue := w.queue[1..]))
  {
    hide HeldFrom;
    var rest := w.queue[1..];
    forall i | 0 <= i < |rest| ensures rest[i] == w.queue[i + 1] {}
    forall i | 0 <= i < |rest| && !rest[i].AddItem? ensures Lock(rest[i].key, EXCLUSIVE) in Held(l) {
      assert Lock(w.queue[i + 1].key, EXCLUSIVE) in Held(w.locks);
    }
  }

  lemma OrderlyReplay(cfg: Config, t: Tables.Table, w: Worker, c: multiset<Lock>)
    requires Ready(cfg, t, w, c) && Shaped(t, w) && w.pc.Replaying? && ReplayTurn(t, w).Some? && OrderlyWorker(w)
    ensures OrderlyWorker(ReplayTurn(t, w).value.worker)
  {
    hide OrderlyWorker, WriteSetHeld, ListOk, NoStale, TableOk, Balanced, Tables.View, HeldFrom, Tables.Remove, Tables.SeekRow,
         Tables.Insert, Tables.Write, Tables.InsertSlot, RmLock, GetLock, SeekLock;
    ReadyFacts(cfg, t, w, c);
    if w.queue == [] {
      OrderlyIdle(w, w.(pc := Releasing(0)));
    } else if w.queue[0].DeleteItem? {
      var k := w.queue[0].key;
      DeleteFindsLock(cfg, Tables.View(t.rows), w, k);
      RmKeeps(w.locks, k);
      forall x | x in Held(w.locks) && x.key != k ensures x in Held(RmLock(w.locks, k)) {
        assert x in Held(RmLock(w.locks, k)) + multiset{Lock(k, EXCLUSIVE)};
      }
      OrderlyPop(w, RmLock(w.locks, k));
    } else {
      OrderlyPop(w, w.locks);
    }
  }

  lemma OrderlyIdle(w: Worker, w': Worker)
    requires OrderlyWorker(w) && !w'.pc.Replaying? && (w'.queue == w.queue || w'.queue == [])
    ensures OrderlyWorker(w')
  {
  }

  lemma OrderlyStep(cfg: Config, t: Tables.Table, w: Worker, c: multiset<Lock>, a: Act)
    requires Ready(cfg, t, w, c) && Shaped(t, w) && StepLocal(cfg, t, w, a).Some?
    requires OrderlyWorker(w) && Courteous(cfg, w, a)
    ensures OrderlyWorker(StepLocal(cfg, t, w, a).value.worker)
  {
    hide OrderlyWorker, Serve, ReplayTurn, WorkerOk, TableOk, Balanced, Tables.View, Claims, SearchLock, GetLock, AddLock, InsertSlot, NextLive,
         Tables.SharedScan, Tables.ExclusiveScan, Tables.SeekRow, PromoteLock, Courteous;
    if a.Receive? {
      OrderlyServe(cfg, t, w, c, a.request);
    } else if a.Proceed? && w.pc.Replaying? {
      OrderlyReplay(cfg, t, w, c);
    } else if a.Stop? {
      OrderlyStopped(w);
    } else {
      OrderlyIdle(w, StepLocal(cfg, t, w, a).value.worker);
    }
  }

  lemma OrderlyStopped(w: Worker)
    requires OrderlyWorker(w)
    ensures OrderlyWorker(w.(running := false))
  {
  }

  lemma StepKeepsOrderly(cfg: Config, s: State, w: nat, a: Act)
    requires Inv(cfg, s) && Orderly(s) && Enabled(cfg, s, w, a) && Courteous(cfg, s.workers[w], a)
    ensures Orderly(Step(cfg, s, w, a).value)
  {
    hide Inv, OrderlyWorker, StepLocal, Courteous, Tame;
    InvReady(cfg, s, w);
    OrderlyStep(cfg, s.table, s.workers[w], Total(s), a);
  }

  // ---- Atomicity ----

  /** Every row a worker is about to write, or is writing, is its own to write. */
  lemma QueueClaims(cfg: Config, s: State, w: nat, k: nat)
    requires Inv(cfg, s) && Orderly(s) && w < |s.workers|
    requires s.workers[w].pc.Replaying? || s.workers[w].pc.Receiving?
    requires k in KeysOf(s.workers[w].queue)
    ensures Lock(Row(k), EXCLUSIVE) in Claims(s.workers[w])
    ensures k in Tables.View(s.table.rows)
  {
    hide TableOk, ListOk, NoStale, Balanced, Tables.View, HeldFrom, PcOk;
    var u := s.workers[w];
    assert WorkerOk(cfg, Tables.View(s.table.rows), u) && OrderlyWorker(u);
    var i :| 0 <= i < |u.queue| && !u.queue[i].AddItem? && u.queue[i].key.key == k;
    assert u.queue[i].key == Row(k);
    WorkerClaimsRow(cfg, s, w, Lock(Row(k), EXCLUSIVE));
  }

  /** No row is in the write sets of two workers. */
  lemma OneWriter(cfg: Config, s: State, w: nat, v: nat, k: nat)
    requires Inv(cfg, s) && Orderly(s) && w < |s.workers| && v < |s.workers| && w != v
    requires s.workers[w].pc.Replaying? || s.workers[w].pc.Receiving?
    requires k in KeysOf(s.workers[w].queue)
    ensures k !in KeysOf(Remaining(s.workers[v]))
  {
    hide Inv, Orderly, Claims, KeysOf;
    if k in KeysOf(Remaining(s.workers[v])) {
      NoKeys();
      QueueClaims(cfg, s, w, k);
      QueueClaims(cfg, s, v, k);
      BothClaim(cfg, s, w, Lock(Row(k), EXCLUSIVE), v, Lock(Row(k), EXCLUSIVE));
    }
  }

  lemma NoKeys()
    ensures KeysOf([]) == {}
  {
  }

  /** The write sets of different workers name different rows. */
  lemma WriteSetsDisjoint(cfg: Config, s: State, w: nat, ws: seq<Worker>, from: nat)
    requires Inv(cfg, s) && Orderly(s) && w < |s.workers|
    requires s.workers[w].pc.Replaying? || s.workers[w].pc.Receiving?
    requires from + |ws| <= |s.workers| && !(from <= w < from + |ws|)
    requires forall i :: 0 <= i < |ws| ==> ws[i] == s.workers[from + i]
    ensures KeysOf(s.workers[w].queue) !! KeysOf(Pending(ws))
  {
    hide Inv, Orderly, KeysOf, Pending, Remaining;
    forall k | k in KeysOf(s.workers[w].queue) ensures k !in KeysOf(Pending(ws)) {
      if k in KeysOf(Pending(ws)) {
        var i := PendingKey(ws, k);
        OneWriter(cfg, s, w, from + i, k);
      }
    }
  }

  /** A key that is not live is in nobody's write set. */
  lemma FreshKeyUnwritten(cfg: Config, s: State, k: nat)
    requires Inv(cfg, s) && Orderly(s) && k !in Tables.View(s.table.rows)
    ensures k !in KeysOf(Pending(s.workers))
  {
    hide Inv, Orderly;
    if k in KeysOf(Pending(s.workers)) {
      var i := PendingKey(s.workers, k);
      QueueClaims(cfg, s, i, k);
    }
  }

  /** Doing the head of one worker's write set first, or in its turn, comes to the same. */
  lemma HeadFirst(d: Data, before: seq<Commit>, own: seq<Commit>, after: seq<Commit>)
    requires own != [] && KeysOf(own) !! KeysOf(before)
    ensures ApplyItems(ApplyItem(d, own[0]), before + own[1..] + after) == ApplyItems(d, before + own + after)
  {
    assert !own[0].AddItem? ==> own[0].key.key in KeysOf(own);
    ItemCommutes(d, own[0], before);
    assert before + own + after == before + (own + after) && before + own[1..] + after == before + (own[1..] + after);
    ApplyConcat(d, before, own + after);
    ApplyConcat(ApplyItem(d, own[0]), before, own[1..] + after);
    assert (own + after)[1..] == own[1..] + after;
  }

  /** A whole write set placed in the middle may as well come last. */
  lemma WholeLast(d: Data, before: seq<Commit>, own: seq<Commit>, after: seq<Commit>)
    requires KeysOf(own) !! KeysOf(after)
    ensures ApplyItems(d, before + own + after) == ApplyItems(ApplyItems(d, before + [] + after), own)
  {
    assert before + own + after == before + (own + after) && before + [] + after == before + after;
    ApplyConcat(d, before, own + after);
    ApplyConcat(d, before, after);
    ApplyConcat(ApplyItems(d, before), own, after);
    WriteSetsCommute(ApplyItems(d, before), own, after);
  }

  /** How the pending write sets change when worker `w` becomes `w'`. */
  lemma PendingUpdate(ws: seq<Worker>, i: nat, w: Worker)
    requires i < |ws|
    ensures Pending(ws) == Pending(ws[..i]) + Remaining(ws[i]) + Pending(ws[i+1..])
    ensures Pending(ws[i := w]) == Pending(ws[..i]) + Remaining(w) + Pending(ws[i+1..])
  {
    PendingSplit(ws, i);
    PendingSplit(ws[i := w], i);
    assert ws[i := w][..i] == ws[..i] && ws[i := w][i+1..] == ws[i+1..];
  }

  predicate BeginsCommit(w: Worker, a: Act) {
    w.pc.Receiving? && a == Receive(CommitTxn) && w.phase == SHRINKING
  }

  /** The step of the atomic store: a commit applies its whole write set, an insertion adds its record, nothing else counts. */
  function SpecStep(d: Data, t: Tables.Table, w: Worker, a: Act): Data
    requires Shaped(t, w)
  {
    if BeginsCommit(w, a) then ApplyItems(d, w.queue)
    else if EventOf(t, w, a).Insertion? then Apply(d, EventOf(t, w, a))
    else d
  }

  /** Unless it is an insertion, the event of a replay turn does what the item asks for. */
  lemma HeadEvent(cfg: Config, s: State, w: nat, d: Data)
    requires Inv(cfg, s) && Orderly(s) && WellShaped(s) && w < |s.workers| && s.workers[w].pc.Replaying? && s.workers[w].queue != []
    ensures var e, item := EventOf(s.table, s.workers[w], Proceed), s.workers[w].queue[0];
            if e.Insertion? then item.AddItem? && e == Insertion(s.table.nextKey, item.student)
            else Apply(d, e) == ApplyItem(d, item)
  {
    hide Inv;
    HeadStamped(cfg, s, w);
    assert OrderlyWorker(s.workers[w]);
  }

  /** What a replay turn does to the pieces of the settled records. */
  lemma ReplayPieces(cfg: Config, s: State, w: nat)
    requires Inv(cfg, s) && Orderly(s) && Enabled(cfg, s, w, Proceed) && s.workers[w].pc.Replaying? && s.workers[w].queue != []
    ensures var u, s' := s.workers[w], Step(cfg, s, w, Proceed).value;
            var before, after := Pending(s.workers[..w]), Pending(s.workers[w+1..]);
            && Store(s') == Apply(Store(s), EventOf(s.table, u, Proceed))
            && Pending(s.workers) == before + u.queue + after
            && Pending(s'.workers) == before + u.queue[1..] + after
            && KeysOf(u.queue) !! KeysOf(before)
  {
    hide Inv, Orderly, Step, Pending, KeysOf, EventOf, Tame, Store, Apply, Remaining;
    ReplayPops(cfg, s, w);
    StepMoves(cfg, s, w, Proceed);
    PendingUpdate(s.workers, w, Step(cfg, s, w, Proceed).value.workers[w]);
    WriteSetsDisjoint(cfg, s, w, s.workers[..w], 0);
  }

  /** A replay turn: its effect was counted when the commit began, except for an insertion's. */
  lemma ReplaySettles(cfg: Config, s: State, w: nat)
    requires Inv(cfg, s) && Orderly(s) && Enabled(cfg, s, w, Proceed) && s.workers[w].pc.Replaying? && s.workers[w].queue != []
    ensures Settled(Step(cfg, s, w, Proceed).value) == SpecStep(Settled(s), s.table, s.workers[w], Proceed)
  {
    hide Inv, Orderly, Step, StepLocal, Pending, KeysOf, EventOf, Tame, Store, Apply, ApplyItem, ApplyItems;
    var u := s.workers[w];
    var d, before, after := Store(s), Pending(s.workers[..w]), Pending(s.workers[w+1..]);
    ReplayPieces(cfg, s, w);
    HeadEvent(cfg, s, w, d);
    if EventOf(s.table, u, Proceed).Insertion? {
      InsertedFresh(cfg, s, w);
      InsertionSettles(d, s.table.nextKey, u.queue[0], before, u.queue, after);
    } else {
      HeadFirst(d, before, u.queue, after);
    }
  }

  lemma InsertedFresh(cfg: Config, s: State, w: nat)
    requires Inv(cfg, s) && Orderly(s) && Enabled(cfg, s, w, Proceed) && s.workers[w].pc.Replaying?
    requires EventOf(s.table, s.workers[w], Proceed).Insertion?
    ensures s.table.nextKey !in KeysOf(Pending(s.workers))
  {
    FreshInsertion(s.table, s.workers[w]);
    FreshKeyUnwritten(cfg, s, s.table.nextKey);
  }

  lemma FreshInsertion(t: Tables.Table, w: Worker)
    requires Shaped(t, w) && w.pc.Replaying? && Tame(t, w, Proceed) && EventOf(t, w, Proceed).Insertion?
    ensures t.nextKey !in Tables.View(t.rows)
  {
  }

  /** An insertion under a key that nobody is writing adds its record to the settled ones. */
  lemma InsertionSettles(d: Data, k: nat, item: Commit, before: seq<Commit>, own: seq<Commit>, after: seq<Commit>)
    requires own != [] && own[0] == item && item.AddItem? && k !in KeysOf(before + own + after)
    requires KeysOf(own) !! KeysOf(before)
    ensures ApplyItems(Apply(d, Insertion(k, item.student)), before + own[1..] + after)
         == Apply(ApplyItems(d, before + own + after), Insertion(k, item.student))
  {
    InsertCommutes(d, k, item.student, before + own + after);
    HeadFirst(d[k := item.student], before, own, after);
  }

  lemma ReplayPops(cfg: Config, s: State, w: nat)
    requires WellShaped(s) && w < |s.workers| && s.workers[w].pc.Replaying? && s.workers[w].queue != []
    requires Step(cfg, s, w, Proceed).Some?
    ensures var s' := Step(cfg, s, w, Proceed).value;
            && s'.workers == s.workers[w := s'.workers[w]]
            && Remaining(s.workers[w]) == s.workers[w].queue
            && Remaining(s'.workers[w]) == s.workers[w].queue[1..]
  {
    hide ReplayItem;
    ItemKeepsPc(s.table, s.workers[w], s.workers[w].queue[0]);
  }

  lemma ItemKeepsPc(t: Tables.Table, w: Worker, item: Commit)
    requires Shaped(t, w) && ReplayItem(t, w, item).Some?
    ensures ReplayItem(t, w, item).value.worker.pc == w.pc
  {
    hide SeekLock, RmLock, Tables.SeekRow, Tables.Remove, Tables.Write, Tables.Insert, Tables.InsertSlot;
  }

  /** A commit begins: its write set joins those under way. */
  lemma CommitSettles(cfg: Config, s: State, w: nat)
    requires Inv(cfg, s) && Orderly(s) && Enabled(cfg, s, w, Receive(CommitTxn)) && BeginsCommit(s.workers[w], Receive(CommitTxn))
    ensures Settled(Step(cfg, s, w, Receive(CommitTxn)).value) == ApplyItems(Settled(s), s.workers[w].queue)
  {
    hide Inv, Orderly, Pending, KeysOf;
    var u, s' := s.workers[w], Step(cfg, s, w, Receive(CommitTxn)).value;
    PendingUpdate(s.workers, w, s'.workers[w]);
    WriteSetsDisjoint(cfg, s, w, s.workers[w+1..], w + 1);
    WholeLast(Store(s), Pending(s.workers[..w]), u.queue, Pending(s.workers[w+1..]));
  }

  lemma OtherwiseSettled(cfg: Config, s: State, w: nat, a: Act)
    requires Inv(cfg, s) && Enabled(cfg, s, w, a) && !BeginsCommit(s.workers[w], a)
    requires !(s.workers[w].pc.Replaying? && a.Proceed? && s.workers[w].queue != [])
    ensures Settled(Step(cfg, s, w, a).value) == Settled(s)
    ensures !EventOf(s.table, s.workers[w], a).Insertion?
  {
    hide Inv, StepLocal, Pending, Remaining, EventOf, Tame, Store, ApplyItems;
    RemainsSame(cfg, s.table, s.workers[w], a);
    StepMoves(cfg, s, w, a);
    PendingUpdate(s.workers, w, Step(cfg, s, w, a).value.workers[w]);
    Untouched(Store(s), EventOf(s.table, s.workers[w], a));
  }

  lemma Untouched(d: Data, e: Event)
    requires !TouchesData(e)
    ensures Apply(d, e) == d
  {
  }

  lemma RemainsSame(cfg: Config, t: Tables.Table, w: Worker, a: Act)
    requires Shaped(t, w) && StepLocal(cfg, t, w, a).Some? && !BeginsCommit(w, a)
    requires !(w.pc.Replaying? && a.Proceed? && w.queue != [])
    ensures Remaining(StepLocal(cfg, t, w, a).value.worker) == Remaining(w)
    ensures !TouchesData(EventOf(t, w, a))
  {
    if !w.pc.Replaying? {
      NoReplayNoData(t, w, a);
      ReplayNeedsCommit(cfg, t, w, a);
    } else {
      hide GetLock, NextLive;
    }
  }

  /**
   * Atomicity: in every orderly state each step of the interleaved system is a step of
   * the atomic store, in which all updates and deletions of a commit take effect at once
   * when it begins, and each insertion when it runs.
   */
  lemma StepIsAtomic(cfg: Config, s: State, w: nat, a: Act)
    requires Inv(cfg, s) && Orderly(s) && Enabled(cfg, s, w, a)
    ensures Settled(Step(cfg, s, w, a).value) == SpecStep(Settled(s), s.table, s.workers[w], a)
  {
    hide Inv, Orderly, StepLocal, EventOf, Settled, Tame;
    if BeginsCommit(s.workers[w], a) { CommitSettles(cfg, s, w); }
    else if s.workers[w].pc.Replaying? && a.Proceed? && s.workers[w].queue != [] { ReplaySettles(cfg, s, w); }
    else { OtherwiseSettled(cfg, s, w, a); }
  }

  ghost predicate CourteousRun(cfg: Config, s: State, ls: seq<Label>)
    requires Exec(cfg, s, ls).Some?
    decreases |ls|
  {
    ls != [] ==>
      && Courteous(cfg, s.workers[ls[0].worker], ls[0].act)
      && CourteousRun(cfg, Step(cfg, s, ls[0].worker, ls[0].act).value, ls[1..])
  }

  /** The atomic store driven by the same run. */
  function SpecRun(cfg: Config, d: Data, s: State, ls: seq<Label>): Data
    requires Exec(cfg, s, ls).Some?
    decreases |ls|
  {
    if ls == [] then d
    else SpecRun(cfg, SpecStep(d, s.table, s.workers[ls[0].worker], ls[0].act),
                 Step(cfg, s, ls[0].worker, ls[0].act).value, ls[1..])
  }

  lemma {:induction false} RunIsAtomic(cfg: Config, s: State, ls: seq<Label>)
    requires Inv(cfg, s) && Orderly(s) && TameRun(cfg, s, ls) && Exec(cfg, s, ls).Some? && CourteousRun(cfg, s, ls)
    ensures Settled(Exec(cfg, s, ls).value) == SpecRun(cfg, Settled(s), s, ls)
    ensures Orderly(Exec(cfg, s, ls).value)
    decreases |ls|
  {
    hide Inv, Orderly, Step, Settled, SpecStep, Courteous, Tame;
    if ls != [] {
      var w, a := ls[0].worker, ls[0].act;
      StepIsAtomic(cfg, s, w, a);
      StepKeepsOrderly(cfg, s, w, a);
      StepKeepsInv(cfg, s, w, a);
      RunIsAtomic(cfg, Step(cfg, s, w, a).value, ls[1..]);
    }
  }

  lemma {:induction false} NothingPending(ws: seq<Worker>)
    requires forall w :: 0 <= w < |ws| ==> !ws[w].pc.Replaying?
    ensures Pending(ws) == []
  {
    if ws != [] { NothingPending(ws[1..]); }
  }

  /**
   * Serialisability: whenever no commit is under way, the records are those of a store
   * in which the updates and deletions of each commit were applied whole, one commit
   * after another in the order in which they began, and each insertion when it ran.
   */
  lemma CommitsAreSerial(cfg: Config, s: State, ls: seq<Label>)
    requires Initial(s) && TameRun(cfg, s, ls) && Exec(cfg, s, ls).Some? && CourteousRun(cfg, s, ls)
    requires forall w :: 0 <= w < |Exec(cfg, s, ls).value.workers| ==> !Exec(cfg, s, ls).value.workers[w].pc.Replaying?
    ensures Store(Exec(cfg, s, ls).value) == SpecRun(cfg, map[], s, ls)
  {
    hide Inv, Step, Orderly, Initial, OrderlyWorker, Fresh, SpecRun, TameRun, CourteousRun, Exec, Pending, Store;
    InitialSettled(cfg, s);
    NothingPending(Exec(cfg, s, ls).value.workers);
    RunIsAtomic(cfg, s, ls);
  }

  lemma InitialSettled(cfg: Config, s: State)
    requires Initial(s)
    ensures Inv(cfg, s) && Orderly(s) && Settled(s) == map[]
  {
    hide Inv;
    InitialInv(cfg, s);
    NothingPending(s.workers);
  }

  // ---- Stable reads over whole runs ----

  /** A record is only ever overwritten by a worker that holds its row EXCLUSIVE. */
  lemma WriterHolds(cfg: Config, s: State, v: nat, a: Act, k: nat)
    requires Inv(cfg, s) && Orderly(s) && Enabled(cfg, s, v, a)
    requires EventOf(s.table, s.workers[v], a).Writing? && EventOf(s.table, s.workers[v], a).tuple.key == k
    ensures s.workers[v].pc.Replaying? && Lock(Row(k), EXCLUSIVE) in Claims(s.workers[v])
  {
    hide Inv, StepLocal, Claims, Held, Tables.View;
    var u := s.workers[v];
    HeadStamped(cfg, s, v);
    assert OrderlyWorker(u);
    ReplayingClaims(u);
    assert u.queue[0].key == Row(k);
  }

  lemma ReplayingClaims(w: Worker)
    requires w.pc.Replaying?
    ensures Claims(w) == Held(w.locks)
  {
  }

  /** One step of anybody, except of the holder's own commit loop, leaves a claimed row's record alone. */
  lemma ClaimedRecordStays(cfg: Config, s: State, w: nat, lock: Lock, v: nat, a: Act)
    requires Inv(cfg, s) && Orderly(s) && Enabled(cfg, s, v, a)
    requires w < |s.workers| && lock in Claims(s.workers[w]) && lock.key.tbl == STUDENT_TBL
    requires v == w ==> !s.workers[w].pc.Replaying?
    ensures lock.key.key in Store(s) && lock.key.key in Store(Step(cfg, s, v, a).value)
    ensures Store(Step(cfg, s, v, a).value)[lock.key.key] == Store(s)[lock.key.key]
  {
    hide Inv, Orderly, Step, Claims, EventOf, Tables.View, Tame;
    var k, e := lock.key.key, EventOf(s.table, s.workers[v], a);
    assert lock.key == Row(k);
    if v == w {
      WorkerClaimsRow(cfg, s, w, lock);
      StepMoves(cfg, s, v, a);
      NoReplayNoData(s.table, s.workers[v], a);
    } else {
      StableReads(cfg, s, w, lock, v, a);
      if e.Writing? && e.tuple.key == k {
        WriterHolds(cfg, s, v, a, k);
        BothClaim(cfg, s, w, lock, v, Lock(Row(k), EXCLUSIVE));
      }
    }
  }

  /** Worker `w` claims the lock in every state of the run and takes no step of its own commit loop. */
  ghost predicate KeepsClaim(cfg: Config, s: State, ls: seq<Label>, w: nat, lock: Lock)
    requires Exec(cfg, s, ls).Some?
    decreases |ls|
  {
    && w < |s.workers| && lock in Claims(s.workers[w])
    && (ls != [] ==>
          && (ls[0].worker == w ==> !s.workers[w].pc.Replaying?)
          && KeepsClaim(cfg, Step(cfg, s, ls[0].worker, ls[0].act).value, ls[1..], w, lock))
  }

  /** Repeatable reads: for as long as a worker claims a row, its record is the one it read. */
  lemma {:induction false} ReadsAreRepeatable(cfg: Config, s: State, ls: seq<Label>, w: nat, lock: Lock)
    requires Inv(cfg, s) && Orderly(s) && TameRun(cfg, s, ls) && Exec(cfg, s, ls).Some? && CourteousRun(cfg, s, ls)
    requires KeepsClaim(cfg, s, ls, w, lock) && lock.key.tbl == STUDENT_TBL
    ensures lock.key.key in Store(s) && lock.key.key in Store(Exec(cfg, s, ls).value)
    ensures Store(Exec(cfg, s, ls).value)[lock.key.key] == Store(s)[lock.key.key]
    decreases |ls|
  {
    hide Inv, Orderly, Step, Claims, Store, Tame, Courteous;
    if ls == [] {
      ClaimedRecord(cfg, s, w, lock);
    } else {
      var v, a := ls[0].worker, ls[0].act;
      ClaimedRecordStays(cfg, s, w, lock, v, a);
      StepKeepsInv(cfg, s, v, a);
      StepKeepsOrderly(cfg, s, v, a);
      ReadsAreRepeatable(cfg, Step(cfg, s, v, a).value, ls[1..], w, lock);
    }
  }

  lemma ClaimedRecord(cfg: Config, s: State, w: nat, lock: Lock)
    requires Inv(cfg, s) && w < |s.workers| && lock in Claims(s.workers[w]) && lock.key.tbl == STUDENT_TBL
    ensures lock.key.key in Store(s)
  {
    hide Inv, Claims, Tables.View;
    WorkerClaimsRow(cfg, s, w, lock);
  }

  // ---- What a transaction has read agrees with the atomic store ----

  lemma {:induction false} ItemsFrame(d: Data, items: seq<Commit>, k: nat)
    requires k !in KeysOf(items)
    ensures k in ApplyItems(d, items) <==> k in d
    ensures k in d ==> ApplyItems(d, items)[k] == d[k]
    decreases |items|
  {
    if items != [] {
      HeadKeys(items);
      ItemsFrame(ApplyItem(d, items[0]), items[1..], k);
    }
  }

  /** No commit under way is going to write a row that a worker outside its commit loop claims. */
  lemma ClaimedUnwritten(cfg: Config, s: State, w: nat, lock: Lock)
    requires Inv(cfg, s) && Orderly(s) && w < |s.workers| && lock in Claims(s.workers[w])
    requires lock.key.tbl == STUDENT_TBL && !s.workers[w].pc.Replaying?
    ensures lock.key.key !in KeysOf(Pending(s.workers))
  {
    hide Inv, Orderly, Claims, KeysOf, Pending;
    var k := lock.key.key;
    if k in KeysOf(Pending(s.workers)) {
      var i := PendingKey(s.workers, k);
      NoKeys();
      QueueClaims(cfg, s, i, k);
      assert lock.key == Row(k);
      BothClaim(cfg, s, w, lock, i, Lock(Row(k), EXCLUSIVE));
    }
  }

  /** A record that a worker has read and still claims is the atomic store's, however many commits are half done. */
  lemma ReadsAreSettled(cfg: Config, s: State, w: nat, lock: Lock)
    requires Inv(cfg, s) && Orderly(s) && w < |s.workers| && lock in Claims(s.workers[w])
    requires lock.key.tbl == STUDENT_TBL && !s.workers[w].pc.Replaying?
    ensures var k := lock.key.key; k in Store(s) && k in Settled(s) && Settled(s)[k] == Store(s)[k]
  {
    hide Inv, Orderly, Claims, KeysOf, Pending, Store;
    ClaimedRecord(cfg, s, w, lock);
    ClaimedUnwritten(cfg, s, w, lock);
    ItemsFrame(Store(s), Pending(s.workers), lock.key.key);
  }

  /** Serialisability with reads: after any run, what a worker reads under its locks is what the atomic store holds. */
  lemma ReadsAreSerial(cfg: Config, s: State, ls: seq<Label>, w: nat, lock: Lock)
    requires Initial(s) && TameRun(cfg, s, ls) && Exec(cfg, s, ls).Some? && CourteousRun(cfg, s, ls)
    requires var ws := Exec(cfg, s, ls).value.workers;
             w < |ws| && lock in Claims(ws[w]) && lock.key.tbl == STUDENT_TBL && !ws[w].pc.Replaying?
    ensures var k, d := lock.key.key, SpecRun(cfg, map[], s, ls);
            k in d && k in Store(Exec(cfg, s, ls).value) && d[k] == Store(Exec(cfg, s, ls).value)[k]
  {
    hide Inv, Orderly, Initial, SpecRun, TameRun, CourteousRun, Exec, Claims, Store, Settled;
    InitialSettled(cfg, s);
    RunKeepsInv(cfg, s, ls);
    RunIsAtomic(cfg, s, ls);
    ReadsAreSettled(cfg, Exec(cfg, s, ls).value, w, lock);
  }
}
