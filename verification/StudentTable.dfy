/**
 * The shared row table: what each mutex-protected call does to the rows, the two
 * availability counters and the next key, and what that means for the key-to-row map.
 */
module StudentTables {
  import opened Basics
  import opened Probing
  import opened OpenAddressing
  import opened StudentTuples

  /** Keys are 8-bit: `next_key_++` wraps here. */
  const KEY_SPACE := 256

  /** `lock_` is a signed 8-bit counter. */
  const LOCK_MAX := 127

  datatype Cell = Cell(student: Student, lock: int)

  type Row = Slot<nat, Cell>

  datatype Table = Table(rows: seq<Row>, sAvail: nat, xAvail: nat, size: int, nextKey: nat)

  function KeyHash(k: nat): nat { k }

  predicate Shareable(r: Row) { Live(r) && r.value.lock >= 0 }

  predicate Unlocked(r: Row) { Live(r) && r.value.lock == 0 }

  /** Arithmetic of the unsigned 8-bit counters. */
  function U8(x: int): (y: nat)
    ensures y < 256
  {
    x % 256
  }

  /** Arithmetic of the signed 8-bit lock word. */
  function I8(x: int): int { (x + 128) % 256 - 128 }

  /** Where the 8-bit counters wrap. */
  lemma Wraps()
    ensures I8(127 + 1) == -128 && I8(-128 - 1) == 127 && U8(255 + 1) == 0 && U8(0 - 1) == 255
    ensures forall x :: -128 <= x <= 127 ==> I8(x) == x
    ensures forall x :: 0 <= x <= 255 ==> U8(x) == x
  {
  }

  lemma I8Id(x: int)
    requires -128 <= x < 128
    ensures I8(x) == x
  {
  }

  // ---- The calls, each under the table's mutex ----

  /** The slot where `trait_insert` puts the next record; None when its loop would not end. */
  function InsertSlot(t: Table): Option<nat>
    requires |t.rows| > 0
  {
    Probe(t.rows, Home(KeyHash, t.nextKey, |t.rows|), Free<nat, Cell>)
  }

  function Insert(t: Table, student: Student): Table
    requires |t.rows| > 0 && InsertSlot(t).Some?
  {
    t.(rows := t.rows[InsertSlot(t).value := Slot(t.nextKey, Cell(student, 0), true, false)],
       sAvail := U8(t.sAvail + 1),
       xAvail := U8(t.xAvail + 1),
       size := t.size + 1,
       nextKey := (t.nextKey + 1) % KEY_SPACE)
  }

  function SeekRow(t: Table, k: nat): Option<nat>
    requires |t.rows| > 0
  {
    Seek(t.rows, KeyHash, k)
  }

  function Remove(t: Table, k: nat): Table
    requires |t.rows| > 0 && SeekRow(t, k).Some?
  {
    var i := SeekRow(t, k).value;
    t.(rows := t.rows[i := t.rows[i].(deleted := true)], size := t.size - 1)
  }

  function Write(t: Table, tuple: StudentTuple): Table
    requires |t.rows| > 0 && SeekRow(t, tuple.key).Some?
  {
    var i := SeekRow(t, tuple.key).value;
    t.(rows := t.rows[i := t.rows[i].(key := tuple.key, value := t.rows[i].value.(student := tuple.student))])
  }

  function Clear(t: Table): Table {
    Table(seq(|t.rows|, i requires 0 <= i < |t.rows| =>
              Slot(t.rows[i].key, t.rows[i].value.(lock := 0), false, false)),
          0, 0, 0, 0)
  }

  /** The row the shared scan grants: the first live one whose lock word is not negative. */
  function SharedScan(t: Table): Option<nat>
    requires |t.rows| > 0
  {
    Probe(t.rows, 0, Shareable)
  }

  function ExclusiveScan(t: Table): Option<nat>
    requires |t.rows| > 0
  {
    Probe(t.rows, 0, Unlocked)
  }

  function SetLock(t: Table, i: nat, lock: int): Table
    requires i < |t.rows|
  {
    t.(rows := t.rows[i := t.rows[i].(value := t.rows[i].value.(lock := lock))])
  }

  function GrantShared(t: Table, i: nat): Table
    requires i < |t.rows|
  {
    var lock := I8(t.rows[i].value.lock + 1);
    SetLock(t, i, lock).(xAvail := if lock == 1 then U8(t.xAvail - 1) else t.xAvail)
  }

  function GrantExclusive(t: Table, i: nat): Table
    requires i < |t.rows|
  {
    SetLock(t, i, -1).(xAvail := U8(t.xAvail - 1), sAvail := U8(t.sAvail - 1))
  }

  /** What `trait_promote` does once row `i` has exactly one share. */
  function PromoteAt(t: Table, i: nat): Table
    requires i < |t.rows|
  {
    SetLock(t, i, -1).(sAvail := U8(t.sAvail - 1))
  }

  function Release(t: Table, k: nat): Table
    requires |t.rows| > 0 && SeekRow(t, k).Some?
  {
    var i := SeekRow(t, k).value;
    if t.rows[i].value.lock == -1 then
      SetLock(t, i, 0).(xAvail := U8(t.xAvail + 1), sAvail := U8(t.sAvail + 1))
    else
      var lock := I8(t.rows[i].value.lock - 1);
      SetLock(t, i, lock).(xAvail := if lock == 0 then U8(t.xAvail + 1) else t.xAvail)
  }

  // ---- What a table means: a finite map from keys to rows ----

  datatype Entry = Entry(slot: nat, student: Student, lock: int)

  /** `v` lists exactly the live rows, each under its key. */
  ghost predicate Represents(rows: seq<Row>, v: map<nat, Entry>) {
    && (forall k :: k in v ==> v[k].slot < |rows| && Live(rows[v[k].slot]) && rows[v[k].slot].key == k
                               && rows[v[k].slot].value == Cell(v[k].student, v[k].lock))
    && (forall i :: 0 <= i < |rows| && Live(rows[i]) ==> rows[i].key in v && v[rows[i].key].slot == i)
  }

  ghost function LiveKeys(rows: seq<Row>): set<nat> {
    set i | 0 <= i < |rows| && Live(rows[i]) :: rows[i].key
  }

  ghost function SlotOf(rows: seq<Row>, k: nat): (i: nat)
    requires k in LiveKeys(rows)
    ensures i < |rows| && Live(rows[i]) && rows[i].key == k
  {
    var i :| 0 <= i < |rows| && Live(rows[i]) && rows[i].key == k;
    i
  }

  ghost function View(rows: seq<Row>): map<nat, Entry> {
    map k | k in LiveKeys(rows) ::
      Entry(SlotOf(rows, k), rows[SlotOf(rows, k)].value.student, rows[SlotOf(rows, k)].value.lock)
  }

  lemma ViewRepresents(rows: seq<Row>)
    requires DistinctKeys(rows)
    ensures Represents(rows, View(rows))
  {
    var v := View(rows);
    forall i | 0 <= i < |rows| && Live(rows[i]) ensures rows[i].key in v && v[rows[i].key].slot == i {
      var j := v[rows[i].key].slot;
      assert Live(rows[j]) && rows[j].key == rows[i].key;
    }
  }

  /** Only one map represents a table. */
  lemma ViewIs(rows: seq<Row>, v: map<nat, Entry>)
    requires Represents(rows, v)
    ensures DistinctKeys(rows) && View(rows) == v
  {
    var w := View(rows);
    forall k | k in w ensures k in v && w[k] == v[k] {
      assert Live(rows[w[k].slot]) && rows[w[k].slot].key == k;
    }
    forall k | k in v ensures k in w {
      assert Live(rows[v[k].slot]);
    }
  }

  /** The structural invariant: chains, distinct keys, exact size, key range, 8-bit row count. */
  ghost predicate Valid(t: Table) {
    && 0 < |t.rows| < 256
    && Chained(t.rows, KeyHash)
    && DistinctKeys(t.rows)
    && t.size == Count(t.rows, Live<nat, Cell>)
    && t.nextKey < KEY_SPACE
  }

  /** The availability counters count what they are named after. */
  ghost predicate Exact(t: Table) {
    && t.sAvail == Count(t.rows, Shareable)
    && t.xAvail == Count(t.rows, Unlocked)
  }

  // ---- Lookups ----

  /** For a live key every probe loop, bounded or not, ends at the key's own slot. */
  lemma LiveKeyFound(t: Table, k: nat)
    requires Valid(t) && k in View(t.rows)
    ensures Search(t.rows, KeyHash, k) == SeekRow(t, k) == Some(View(t.rows)[k].slot)
  {
    ViewRepresents(t.rows);
    FindsTheSlot(t.rows, KeyHash, View(t.rows)[k].slot);
    SearchIsFind(t.rows, KeyHash, k);
    SeekIsFind(t.rows, KeyHash, k);
  }

  /** The slot found for a live key holds the record and lock word that the map shows. */
  lemma RowOf(t: Table, k: nat)
    requires Valid(t) && k in View(t.rows)
    ensures SeekRow(t, k) == Some(View(t.rows)[k].slot)
    ensures var r := t.rows[SeekRow(t, k).value];
            Live(r) && r.key == k && r.value == Cell(View(t.rows)[k].student, View(t.rows)[k].lock)
  {
    LiveKeyFound(t, k);
    ViewRepresents(t.rows);
  }

  /** The unbounded probe for a key ends exactly when some slot carries that key without a tombstone mark, in use or not. */
  lemma SeekEnds(t: Table, k: nat)
    requires |t.rows| > 0
    ensures SeekRow(t, k).Some? <==> exists i :: 0 <= i < |t.rows| && t.rows[i].key == k && !t.rows[i].deleted
  {
    ProbeNone(t.rows, Home(KeyHash, k, |t.rows|), Named<nat, Cell>(k));
  }

  /** The bounded search finds exactly the live keys. */
  lemma SearchExact(t: Table, k: nat)
    requires Valid(t)
    ensures Search(t.rows, KeyHash, k).Some? <==> k in View(t.rows)
    ensures k in View(t.rows) ==> Search(t.rows, KeyHash, k) == Some(View(t.rows)[k].slot)
  {
    if k in View(t.rows) {
      LiveKeyFound(t, k);
    } else {
      ViewRepresents(t.rows);
      FindsLive(t.rows, KeyHash, k);
      SearchIsFind(t.rows, KeyHash, k);
    }
  }

  // ---- How one overwritten slot shows in the map and in the counters ----

  /** An 8-bit counter that is exact stays exact exactly when it moves by the overwritten slot's own contribution. */
  lemma CounterUpdate(rows: seq<Row>, p: Row -> bool, i: nat, r: Row, new_: nat)
    requires i < |rows| < 256
    ensures new_ == Count(rows[i := r], p) <==> new_ == U8(Count(rows, p) + Bit(p(r)) - Bit(p(rows[i])))
  {
    CountUpdate(rows, p, i, r);
    var c := Count(rows[i := r], p);
    assert c <= 255 && c % 256 == c;
  }

  lemma ExactUpdate(t: Table, i: nat, r: Row, t': Table)
    requires Exact(t) && i < |t.rows| < 256 && t'.rows == t.rows[i := r]
    ensures Exact(t') <==>
            && t'.sAvail == U8(t.sAvail + Bit(Shareable(r)) - Bit(Shareable(t.rows[i])))
            && t'.xAvail == U8(t.xAvail + Bit(Unlocked(r)) - Bit(Unlocked(t.rows[i])))
  {
    CounterUpdate(t.rows, Shareable, i, r, t'.sAvail);
    CounterUpdate(t.rows, Unlocked, i, r, t'.xAvail);
  }

  /** Overwriting the cell of a live row changes that row's entry and no other. */
  lemma CellUpdate(t: Table, i: nat, c: Cell, t': Table)
    requires Valid(t) && i < |t.rows| && Live(t.rows[i])
    requires t'.rows == t.rows[i := t.rows[i].(value := c)] && t'.size == t.size && t'.nextKey == t.nextKey
    ensures Valid(t')
    ensures View(t'.rows) == View(t.rows)[t.rows[i].key := Entry(i, c.student, c.lock)]
  {
    ViewRepresents(t.rows);
    assert ChainTo(t.rows, KeyHash, t.rows[i].key, i);
    ChainedUpdate(t.rows, KeyHash, i, t'.rows[i]);
    ViewIs(t'.rows, View(t.rows)[t.rows[i].key := Entry(i, c.student, c.lock)]);
    CountUpdate(t.rows, Live<nat, Cell>, i, t'.rows[i]);
  }

  lemma EntryAt(t: Table, i: nat)
    requires Valid(t) && i < |t.rows| && Live(t.rows[i])
    ensures t.rows[i].key in View(t.rows)
    ensures View(t.rows)[t.rows[i].key] == Entry(i, t.rows[i].value.student, t.rows[i].value.lock)
  {
    ViewRepresents(t.rows);
  }

  // ---- Effects of the calls ----

  /** Insertion ends unless the table is full. */
  lemma InsertEnds(t: Table)
    requires Valid(t)
    ensures InsertSlot(t).Some? <==> t.size != |t.rows|
  {
    ProbeNone(t.rows, Home(KeyHash, t.nextKey, |t.rows|), Free<nat, Cell>);
    CountAll(t.rows, Live<nat, Cell>);
  }

  /** Insertion adds exactly the fresh key, unlocked. */
  lemma InsertEffect(t: Table, student: Student)
    requires Valid(t) && InsertSlot(t).Some? && t.nextKey !in View(t.rows)
    ensures Valid(Insert(t, student))
    ensures Exact(t) ==> Exact(Insert(t, student))
    ensures View(Insert(t, student).rows) == View(t.rows)[t.nextKey := Entry(InsertSlot(t).value, student, 0)]
  {
    var i := InsertSlot(t).value;
    var r := Slot(t.nextKey, Cell(student, 0), true, false);
    FillEffect(t, i, r);
    if Exact(t) { ExactUpdate(t, i, r, Insert(t, student)); }
  }

  lemma FillEffect(t: Table, i: nat, r: Row)
    requires Valid(t) && InsertSlot(t) == Some(i) && Live(r) && r.key == t.nextKey && r.key !in View(t.rows)
    ensures Chained(t.rows[i := r], KeyHash)
    ensures View(t.rows[i := r]) == View(t.rows)[r.key := Entry(i, r.value.student, r.value.lock)]
    ensures DistinctKeys(t.rows[i := r])
    ensures Count(t.rows[i := r], Live<nat, Cell>) == t.size + 1
  {
    ViewRepresents(t.rows);
    FirstFreeReachable(t.rows, KeyHash, t.nextKey, Free<nat, Cell>, i);
    ChainedUpdate(t.rows, KeyHash, i, r);
    ViewIs(t.rows[i := r], View(t.rows)[r.key := Entry(i, r.value.student, r.value.lock)]);
    CountUpdate(t.rows, Live<nat, Cell>, i, r);
  }

  /** The next key is the successor in 8 bits, and a new record is put at the first free slot from its key's home on. */
  lemma InsertPlaces(t: Table, student: Student)
    requires 0 < |t.rows| && t.nextKey < 256 && InsertSlot(t).Some?
    ensures Insert(t, student).nextKey == if t.nextKey == 255 then 0 else t.nextKey + 1
    ensures var i := InsertSlot(t).value;
            && i < |t.rows| && Free(t.rows[i]) && Insert(t, student).rows == t.rows[i := Slot(t.nextKey, Cell(student, 0), true, false)]
            && forall d :: 0 <= d < Dist(t.nextKey % |t.rows|, i, |t.rows|) ==> Live(t.rows[At(t.nextKey % |t.rows|, d, |t.rows|)])
  {
    hide FirstHit;
    var i, home := InsertSlot(t).value, t.nextKey % |t.rows|;
    forall d | 0 <= d < Dist(home, i, |t.rows|) ensures Live(t.rows[At(home, d, |t.rows|)]) {
      ProbePassed(t.rows, home, Free<nat, Cell>, i, d);
    }
  }

  /** Every probe for a key starts at its home, the key modulo the number of rows, and takes the slots in cyclic order. */
  lemma SeekPath(t: Table, k: nat)
    requires |t.rows| > 0 && SeekRow(t, k).Some?
    ensures var i := SeekRow(t, k).value;
            && i < |t.rows| && t.rows[i].key == k && !t.rows[i].deleted
            && forall d :: 0 <= d < Dist(k % |t.rows|, i, |t.rows|) ==>
                 t.rows[At(k % |t.rows|, d, |t.rows|)].key != k || t.rows[At(k % |t.rows|, d, |t.rows|)].deleted
  {
    var i, home := SeekRow(t, k).value, k % |t.rows|;
    forall d | 0 <= d < Dist(home, i, |t.rows|)
      ensures t.rows[At(home, d, |t.rows|)].key != k || t.rows[At(home, d, |t.rows|)].deleted
    {
      ProbePassed(t.rows, home, Named<nat, Cell>(k), i, d);
    }
  }

  /** What the calls do to the slot they end at, whatever its flags and its lock word, and to the counters. */
  lemma CallsOutright(t: Table, k: nat, student: Student)
    requires |t.rows| > 0 && SeekRow(t, k).Some?
    ensures SeekRow(t, k).value < |t.rows|
    ensures var i, r := SeekRow(t, k).value, t.rows[SeekRow(t, k).value];
            && Remove(t, k) == t.(rows := t.rows[i := Slot(k, r.value, r.used, true)], size := t.size - 1)
            && Write(t, StudentTuple(student, k)) == t.(rows := t.rows[i := Slot(k, Cell(student, r.value.lock), r.used, false)])
            && (r.value.lock == -1 ==>
                  Release(t, k) == t.(rows := t.rows[i := Slot(k, Cell(r.value.student, 0), r.used, false)],
                                      sAvail := (t.sAvail + 1) % 256, xAvail := (t.xAvail + 1) % 256))
            && (-128 < r.value.lock < 128 && r.value.lock != -1 && r.value.lock != 1 ==>
                  Release(t, k) == t.(rows := t.rows[i := Slot(k, Cell(r.value.student, r.value.lock - 1), r.used, false)]))
            && (r.value.lock == 1 ==>
                  Release(t, k) == t.(rows := t.rows[i := Slot(k, Cell(r.value.student, 0), r.used, false)], xAvail := (t.xAvail + 1) % 256))
  {
  }

  /** What the grants do to row `i` and to the counters. */
  lemma GrantsOutright(t: Table, i: nat)
    requires i < |t.rows| && t.rows[i].value.lock < 127 && t.sAvail < 256 && 0 < t.xAvail < 256 && t.sAvail > 0
    ensures var r := t.rows[i];
            && (r.value.lock == 0 ==>
                  GrantShared(t, i) == t.(rows := t.rows[i := r.(value := r.value.(lock := 1))], xAvail := t.xAvail - 1))
            && (r.value.lock > 0 ==> GrantShared(t, i) == t.(rows := t.rows[i := r.(value := r.value.(lock := r.value.lock + 1))]))
            && GrantExclusive(t, i) == t.(rows := t.rows[i := r.(value := r.value.(lock := -1))], xAvail := t.xAvail - 1, sAvail := t.sAvail - 1)
            && PromoteAt(t, i) == t.(rows := t.rows[i := r.(value := r.value.(lock := -1))], sAvail := t.sAvail - 1)
  {
  }

  /** Insertion keeps keys distinct exactly when the 8-bit key it is about to use is not live. */
  lemma InsertKeepsKeysDistinct(t: Table, student: Student)
    requires Valid(t) && InsertSlot(t).Some?
    ensures DistinctKeys(Insert(t, student).rows) <==> t.nextKey !in View(t.rows)
  {
    if t.nextKey in View(t.rows) {
      var i, j := InsertSlot(t).value, View(t.rows)[t.nextKey].slot;
      ViewRepresents(t.rows);
      var rows := Insert(t, student).rows;
      assert rows[j] == t.rows[j] && rows[i].key == rows[j].key;
      assert Live(rows[i]) && Live(rows[j]) && i != j;
    } else {
      InsertEffect(t, student);
    }
  }

  /** Removal takes away exactly its key; the counters stay exact exactly when the row was held exclusively. */
  lemma RemoveEffect(t: Table, k: nat)
    requires Valid(t) && k in View(t.rows)
    ensures SeekRow(t, k).Some? && Valid(Remove(t, k))
    ensures View(Remove(t, k).rows) == View(t.rows) - {k}
    ensures Exact(t) ==> (Exact(Remove(t, k)) <==> View(t.rows)[k].lock < 0)
  {
    RowOf(t, k);
    var i := SeekRow(t, k).value;
    BuryEffect(t, i);
    if Exact(t) { ExactUpdate(t, i, t.rows[i].(deleted := true), Remove(t, k)); }
  }

  lemma BuryEffect(t: Table, i: nat)
    requires Valid(t) && i < |t.rows| && Live(t.rows[i])
    ensures var rows := t.rows[i := t.rows[i].(deleted := true)];
            && Chained(rows, KeyHash) && DistinctKeys(rows)
            && View(rows) == View(t.rows) - {t.rows[i].key}
            && Count(rows, Live<nat, Cell>) == t.size - 1
  {
    var r := t.rows[i].(deleted := true);
    ViewRepresents(t.rows);
    ChainedUpdate(t.rows, KeyHash, i, r);
    ViewIs(t.rows[i := r], View(t.rows) - {t.rows[i].key});
    CountUpdate(t.rows, Live<nat, Cell>, i, r);
  }

  /** A write that ends changes the record stored under the tuple's own key, if that key is live, and nothing else. */
  lemma WriteEffect(t: Table, tuple: StudentTuple)
    requires Valid(t) && SeekRow(t, tuple.key).Some?
    ensures Valid(Write(t, tuple))
    ensures Exact(t) ==> Exact(Write(t, tuple))
    ensures View(Write(t, tuple).rows) ==
            if tuple.key in View(t.rows)
            then View(t.rows)[tuple.key := View(t.rows)[tuple.key].(student := tuple.student)]
            else View(t.rows)
  {
    hide View, Chained, DistinctKeys, Count, FirstHit;
    var i := SeekRow(t, tuple.key).value;
    var t' := Write(t, tuple);
    if tuple.key in View(t.rows) {
      RowOf(t, tuple.key);
      CellUpdate(t, i, t'.rows[i].value, t');
    } else {
      WriteStale(t, tuple);
    }
    if Exact(t) { ExactUpdate(t, i, t'.rows[i], t'); }
  }

  /** A write under a key that is not live ends, if at all, in a slot that is not in use. */
  lemma WriteStale(t: Table, tuple: StudentTuple)
    requires Valid(t) && SeekRow(t, tuple.key).Some? && tuple.key !in View(t.rows)
    ensures Valid(Write(t, tuple)) && View(Write(t, tuple).rows) == View(t.rows)
  {
    hide FirstHit, View, Count;
    var i := SeekRow(t, tuple.key).value;
    var r := Write(t, tuple).rows[i];
    ViewRepresents(t.rows);
    FindsLive(t.rows, KeyHash, tuple.key);
    SeekMissesLive(t.rows, KeyHash, tuple.key);
    ChainedUpdate(t.rows, KeyHash, i, r);
    ViewIs(t.rows[i := r], View(t.rows));
    CountUpdate(t.rows, Live<nat, Cell>, i, r);
  }

  /** Clearing empties the map, whatever stale keys stay behind in the slots. */
  lemma ClearEffect(t: Table)
    requires 0 < |t.rows| < 256
    ensures Valid(Clear(t)) && Exact(Clear(t)) && View(Clear(t).rows) == map[]
    ensures Clear(t).size == 0 && Clear(t).nextKey == 0 && |Clear(t).rows| == |t.rows|
    ensures forall i :: 0 <= i < |t.rows| ==>
              Clear(t).rows[i] == Slot(t.rows[i].key, Cell(t.rows[i].value.student, 0), false, false)
  {
    var t' := Clear(t);
    ViewIs(t'.rows, map[]);
    CountNone(t'.rows, Live<nat, Cell>);
    CountNone(t'.rows, Shareable);
    CountNone(t'.rows, Unlocked);
  }

  /** The shared scan succeeds exactly when the counter says so, so its NotFound branch is unreachable. */
  lemma SharedScanFinds(t: Table)
    requires Valid(t) && Exact(t)
    ensures SharedScan(t).Some? <==> t.sAvail > 0
  {
    ProbeNone(t.rows, 0, Shareable);
    CountNone(t.rows, Shareable);
  }

  /** A read is granted the first row, counted from slot 0, that it could be granted. */
  lemma ScansFindFirst(t: Table)
    requires |t.rows| > 0
    ensures SharedScan(t).Some? ==>
              && SharedScan(t).value < |t.rows| && Live(t.rows[SharedScan(t).value]) && t.rows[SharedScan(t).value].value.lock >= 0
              && forall j :: 0 <= j < SharedScan(t).value ==> !(Live(t.rows[j]) && t.rows[j].value.lock >= 0)
    ensures SharedScan(t).None? ==> forall j :: 0 <= j < |t.rows| ==> !(Live(t.rows[j]) && t.rows[j].value.lock >= 0)
    ensures ExclusiveScan(t).Some? ==>
              && ExclusiveScan(t).value < |t.rows| && Live(t.rows[ExclusiveScan(t).value]) && t.rows[ExclusiveScan(t).value].value.lock == 0
              && forall j :: 0 <= j < ExclusiveScan(t).value ==> !(Live(t.rows[j]) && t.rows[j].value.lock == 0)
    ensures ExclusiveScan(t).None? ==> forall j :: 0 <= j < |t.rows| ==> !(Live(t.rows[j]) && t.rows[j].value.lock == 0)
  {
    FromZero(t.rows, Shareable);
    FromZero(t.rows, Unlocked);
  }

  lemma FromZero(rows: seq<Row>, p: Row -> bool)
    requires |rows| > 0
    ensures Probe(rows, 0, p).Some? ==> forall j :: 0 <= j < Probe(rows, 0, p).value ==> !p(rows[j])
    ensures Probe(rows, 0, p).None? ==> forall j :: 0 <= j < |rows| ==> !p(rows[j])
  {
    ProbeNone(rows, 0, p);
    if Probe(rows, 0, p).Some? {
      forall j | 0 <= j < Probe(rows, 0, p).value ensures !p(rows[j]) { ProbePassed(rows, 0, p, Probe(rows, 0, p).value, j); }
    }
  }

  lemma ExclusiveScanFinds(t: Table)
    requires Valid(t) && Exact(t)
    ensures ExclusiveScan(t).Some? <==> t.xAvail > 0
  {
    ProbeNone(t.rows, 0, Unlocked);
    CountNone(t.rows, Unlocked);
  }

  /** One more share on a shareable row; the counters stay exact exactly when the lock word does not overflow. */
  lemma GrantSharedEffect(t: Table, i: nat)
    requires Valid(t) && Exact(t) && i < |t.rows| && Shareable(t.rows[i]) && t.rows[i].value.lock <= LOCK_MAX
    ensures Valid(GrantShared(t, i))
    ensures Exact(GrantShared(t, i)) <==> t.rows[i].value.lock < LOCK_MAX
    ensures t.rows[i].value.lock < LOCK_MAX ==>
            View(GrantShared(t, i).rows) ==
            View(t.rows)[t.rows[i].key := Entry(i, t.rows[i].value.student, t.rows[i].value.lock + 1)]
  {
    hide View, Chained, DistinctKeys, Count;
    var t' := GrantShared(t, i);
    if t.rows[i].value.lock < LOCK_MAX { I8Id(t.rows[i].value.lock + 1); }
    CellUpdate(t, i, t'.rows[i].value, t');
    ExactUpdate(t, i, t'.rows[i], t');
  }

  lemma GrantExclusiveEffect(t: Table, i: nat)
    requires Valid(t) && Exact(t) && i < |t.rows| && Unlocked(t.rows[i])
    ensures Valid(GrantExclusive(t, i)) && Exact(GrantExclusive(t, i))
    ensures View(GrantExclusive(t, i).rows) ==
            View(t.rows)[t.rows[i].key := Entry(i, t.rows[i].value.student, -1)]
  {
    hide View, Chained, DistinctKeys, Count;
    var t' := GrantExclusive(t, i);
    CellUpdate(t, i, t'.rows[i].value, t');
    ExactUpdate(t, i, t'.rows[i], t');
  }

  lemma PromoteEffect(t: Table, i: nat)
    requires Valid(t) && Exact(t) && i < |t.rows| && Live(t.rows[i]) && t.rows[i].value.lock == 1
    ensures Valid(PromoteAt(t, i)) && Exact(PromoteAt(t, i))
    ensures View(PromoteAt(t, i).rows) ==
            View(t.rows)[t.rows[i].key := Entry(i, t.rows[i].value.student, -1)]
  {
    hide View, Chained, DistinctKeys, Count;
    var t' := PromoteAt(t, i);
    CellUpdate(t, i, t'.rows[i].value, t');
    ExactUpdate(t, i, t'.rows[i], t');
  }

  /** The lock word after one release of a row that is held. */
  function Released(lock: int): int { if lock == -1 then 0 else lock - 1 }

  lemma ReleaseEffect(t: Table, k: nat)
    requires Valid(t) && Exact(t) && k in View(t.rows)
    requires View(t.rows)[k].lock == -1 || 0 < View(t.rows)[k].lock <= LOCK_MAX
    ensures SeekRow(t, k).Some? && Valid(Release(t, k)) && Exact(Release(t, k))
    ensures View(Release(t, k).rows) == View(t.rows)[k := View(t.rows)[k].(lock := Released(View(t.rows)[k].lock))]
  {
    hide View, Chained, DistinctKeys, Count, FirstHit;
    RowOf(t, k);
    var i := SeekRow(t, k).value;
    var t' := Release(t, k);
    I8Id(t.rows[i].value.lock - 1);
    CellUpdate(t, i, t'.rows[i].value, t');
    ExactUpdate(t, i, t'.rows[i], t');
  }
}
