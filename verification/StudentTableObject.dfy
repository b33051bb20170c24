/** The row table as the object it is: its fields are updated in place by probe and scan loops. */
module StudentTableObjects {
  import opened Basics
  import opened Probing
  import opened OpenAddressing
  import opened StudentTuples
  import Tables = StudentTables

  datatype TableError = Timeout | NotFound

  datatype Result<T> = Ok(value: T) | Err(error: TableError)

  class StudentTable {
    const rows: array<Tables.Row>
    var sAvail: nat
    var xAvail: nat
    var size: int
    var nextKey: nat

    ghost function State(): Tables.Table
      reads this, rows
    {
      Tables.Table(rows[..], sAvail, xAvail, size, nextKey)
    }

    ghost predicate Valid()
      reads this, rows
    {
      Tables.Valid(State())
    }

    ghost function View(): map<nat, Tables.Entry>
      reads this, rows
    {
      Tables.View(rows[..])
    }

    constructor (n: nat)
      requires 0 < n < 256
      ensures fresh(rows) && rows.Length == n
      ensures Valid() && Tables.Exact(State()) && View() == map[] && nextKey == 0
    {
      rows := new Tables.Row[n](_ => Slot(0, Tables.Cell(Student([], 0, 0, 0), 0), false, false));
      sAvail, xAvail, size, nextKey := 0, 0, 0, 0;
      new;
      CountNone(rows[..], Live<nat, Tables.Cell>);
      CountNone(rows[..], Tables.Shareable);
      CountNone(rows[..], Tables.Unlocked);
      Tables.ViewIs(rows[..], map[]);
    }

    /** The probing loop of remove, write, promote and release. */
    method Locate(k: nat) returns (idx: nat)
      requires rows.Length > 0 && Tables.SeekRow(State(), k).Some?
      ensures idx < rows.Length && Tables.SeekRow(State(), k) == Some(idx)
    {
      ghost var s, home, end := rows[..], k % rows.Length, Tables.SeekRow(State(), k).value;
      ghost var d := 0;
      idx := k % rows.Length;
      ProbeTurn(s, home, Named<nat, Tables.Cell>(k), end, d);
      while !(rows[idx].key == k && !rows[idx].deleted)
        invariant d <= Dist(home, end, |s|) && idx == At(home, d, |s|)
        invariant d == Dist(home, end, |s|) <==> rows[idx].key == k && !rows[idx].deleted
        decreases Dist(home, end, |s|) - d
      {
        ProbeTurn(s, home, Named<nat, Tables.Cell>(k), end, d);
        idx := (idx + 1) % rows.Length;
        d := d + 1;
        ProbeTurn(s, home, Named<nat, Tables.Cell>(k), end, d);
      }
    }

    /** The probing loop of insert: tombstones and unused slots both end it. */
    method LocateRoom() returns (idx: nat)
      requires rows.Length > 0 && Tables.InsertSlot(State()).Some?
      ensures idx < rows.Length && Tables.InsertSlot(State()) == Some(idx)
    {
      ghost var s, home, end := rows[..], nextKey % rows.Length, Tables.InsertSlot(State()).value;
      ghost var d := 0;
      idx := nextKey % rows.Length;
      ProbeTurn(s, home, Free<nat, Tables.Cell>, end, d);
      while rows[idx].used && !rows[idx].deleted
        invariant d <= Dist(home, end, |s|) && idx == At(home, d, |s|)
        invariant d == Dist(home, end, |s|) <==> Free(rows[idx])
        decreases Dist(home, end, |s|) - d
      {
        ProbeTurn(s, home, Free<nat, Tables.Cell>, end, d);
        idx := (idx + 1) % rows.Length;
        d := d + 1;
        ProbeTurn(s, home, Free<nat, Tables.Cell>, end, d);
      }
    }

    /** Once the wait for room is over; a fresh key that is not live is added, unlocked. */
    method Insert(student: Student) returns (stored: StudentTuple)
      requires rows.Length > 0 && size != rows.Length && Tables.InsertSlot(State()).Some?
      modifies this, rows
      ensures State() == Tables.Insert(old(State()), student)
      ensures stored == StudentTuple(student, old(nextKey))
      ensures old(Valid() && nextKey !in View()) ==>
                && Valid()
                && View() == old(View())[old(nextKey) := Tables.Entry(Tables.InsertSlot(old(State())).value, student, 0)]
    {
      hide Tables.Valid, Tables.View, Tables.InsertSlot;
      ghost var t := State();
      var idx := LocateRoom();
      stored := StudentTuple(student, nextKey);
      rows[idx] := Slot(nextKey, Tables.Cell(student, 0), true, false);
      sAvail := Tables.U8(sAvail + 1);
      xAvail := Tables.U8(xAvail + 1);
      nextKey := (nextKey + 1) % Tables.KEY_SPACE;
      size := size + 1;
      if Tables.Valid(t) && t.nextKey !in Tables.View(t.rows) { Tables.InsertEffect(t, student); }
    }

    /** The bounded search: exactly the live keys are found, each with its own record. */
    method Search(k: nat) returns (r: Result<StudentTuple>)
      requires Valid()
      ensures r == if k in View() then Ok(StudentTuple(View()[k].student, k)) else Err(NotFound)
    {
      hide Tables.Valid, Tables.View, Probe;
      ghost var s := rows[..];
      Tables.SearchExact(State(), k);
      if k in View() { Tables.RowOf(State(), k); }
      var idx := k % rows.Length;
      var start := idx;
      ghost var d := 0;
      while true
        invariant d < |s| && idx == At(start, d, |s|)
        invariant forall j :: 0 <= j < d ==> !Stop<nat, Tables.Cell>(k)(s[At(start, j, |s|)])
        decreases |s| - d
      {
        if !rows[idx].used {
          ProbeIs(s, start, Stop(k), d);
          return Err(NotFound);
        }
        if rows[idx].key == k && !rows[idx].deleted {
          ProbeIs(s, start, Stop(k), d);
          return Ok(StudentTuple(rows[idx].value.student, k));
        }
        NextSlot(start, d, |s|);
        idx := (idx + 1) % rows.Length;
        d := d + 1;
        if idx == start {
          Exhausted(s, start, Stop(k));
          return Err(NotFound);
        }
      }
    }

    method Remove(k: nat)
      requires rows.Length > 0 && Tables.SeekRow(State(), k).Some?
      modifies this, rows
      ensures State() == Tables.Remove(old(State()), k)
    {
      var idx := Locate(k);
      rows[idx] := rows[idx].(deleted := true);
      size := size - 1;
    }

    method Write(tuple: StudentTuple)
      requires rows.Length > 0 && Tables.SeekRow(State(), tuple.key).Some?
      modifies rows
      ensures State() == Tables.Write(old(State()), tuple)
    {
      var idx := Locate(tuple.key);
      rows[idx] := rows[idx].(key := tuple.key, value := rows[idx].value.(student := tuple.student));
    }

    method Clear()
      requires 0 < rows.Length < 256
      modifies this, rows
      ensures State() == Tables.Clear(old(State()))
      ensures Valid() && Tables.Exact(State()) && View() == map[]
    {
      ghost var t := State();
      for i := 0 to rows.Length
        invariant rows[..i] == Tables.Clear(t).rows[..i] && rows[i..] == t.rows[i..]
        modifies rows
      {
        rows[i] := Slot(rows[i].key, rows[i].value.(lock := 0), false, false);
      }
      sAvail, xAvail, size, nextKey := 0, 0, 0, 0;
      Tables.ClearEffect(t);
    }

    /** With exact counters the scan never comes back empty-handed. */
    method WaitShared() returns (r: Result<StudentTuple>)
      requires rows.Length > 0
      modifies this, rows
      ensures r == Err(Timeout) <==> old(size == 0 || sAvail == 0)
      ensures r == Err(NotFound) ==> Tables.SharedScan(old(State())).None?
      ensures r.Err? ==> State() == old(State())
      ensures r.Ok? ==>
                && var i := Tables.SharedScan(old(State()));
                && i.Some? && State() == Tables.GrantShared(old(State()), i.value)
                && r.value == StudentTuple(old(rows[..])[i.value].value.student, old(rows[..])[i.value].key)
                && Live(old(rows[..])[i.value]) && old(rows[..])[i.value].value.lock >= 0
                && forall j :: 0 <= j < i.value ==> !(Live(old(rows[..])[j]) && old(rows[..])[j].value.lock >= 0)
      ensures old(Valid() && Tables.Exact(State())) ==> r != Err(NotFound)
    {
      hide Tables.Valid, Tables.Exact, Probe, FirstHit;
      if size == 0 || sAvail == 0 { return Err(Timeout); }
      ghost var t := State();
      if Valid() && Tables.Exact(t) { Tables.SharedScanFinds(t); }
      var i := 0;
      while i < rows.Length
        invariant i <= rows.Length
        invariant forall j :: 0 <= j < i ==> !Tables.Shareable(t.rows[At(0, j, |t.rows|)])
      {
        if rows[i].used && !rows[i].deleted && rows[i].value.lock >= 0 {
          ProbeIs(t.rows, 0, Tables.Shareable, i);
          Tables.ScansFindFirst(t);
          var lock := Tables.I8(rows[i].value.lock + 1);
          rows[i] := rows[i].(value := rows[i].value.(lock := lock));
          if lock == 1 { xAvail := Tables.U8(xAvail - 1); }
          return Ok(StudentTuple(rows[i].value.student, rows[i].key));
        }
        i := i + 1;
      }
      Exhausted(t.rows, 0, Tables.Shareable);
      return Err(NotFound);
    }

    method WaitExclusive() returns (r: Result<StudentTuple>)
      requires rows.Length > 0
      modifies this, rows
      ensures r == Err(Timeout) <==> old(size == 0 || xAvail == 0)
      ensures r == Err(NotFound) ==> Tables.ExclusiveScan(old(State())).None?
      ensures r.Err? ==> State() == old(State())
      ensures r.Ok? ==>
                && var i := Tables.ExclusiveScan(old(State()));
                && i.Some? && State() == Tables.GrantExclusive(old(State()), i.value)
                && r.value == StudentTuple(old(rows[..])[i.value].value.student, old(rows[..])[i.value].key)
                && Live(old(rows[..])[i.value]) && old(rows[..])[i.value].value.lock == 0
                && forall j :: 0 <= j < i.value ==> !(Live(old(rows[..])[j]) && old(rows[..])[j].value.lock == 0)
      ensures old(Valid() && Tables.Exact(State())) ==> r != Err(NotFound)
    {
      hide Tables.Valid, Tables.Exact, Probe, FirstHit;
      if size == 0 || xAvail == 0 { return Err(Timeout); }
      ghost var t := State();
      if Valid() && Tables.Exact(t) { Tables.ExclusiveScanFinds(t); }
      var i := 0;
      while i < rows.Length
        invariant i <= rows.Length
        invariant forall j :: 0 <= j < i ==> !Tables.Unlocked(t.rows[At(0, j, |t.rows|)])
      {
        if rows[i].used && !rows[i].deleted && rows[i].value.lock == 0 {
          ProbeIs(t.rows, 0, Tables.Unlocked, i);
          Tables.ScansFindFirst(t);
          rows[i] := rows[i].(value := rows[i].value.(lock := -1));
          xAvail := Tables.U8(xAvail - 1);
          sAvail := Tables.U8(sAvail - 1);
          return Ok(StudentTuple(rows[i].value.student, rows[i].key));
        }
        i := i + 1;
      }
      Exhausted(t.rows, 0, Tables.Unlocked);
      return Err(NotFound);
    }

    /** A promotion whose wait is decided on the spot: it goes through exactly when the row has one share. */
    method Promote(k: nat) returns (promoted: bool)
      requires rows.Length > 0 && Tables.SeekRow(State(), k).Some?
      modifies this, rows
      ensures var i := Tables.SeekRow(old(State()), k).value;
              && (promoted <==> old(rows[..])[i].value.lock == 1)
              && State() == if promoted then Tables.PromoteAt(old(State()), i) else old(State())
    {
      var idx := Locate(k);
      promoted := rows[idx].value.lock == 1;
      if promoted {
        sAvail := Tables.U8(sAvail - 1);
        rows[idx] := rows[idx].(value := rows[idx].value.(lock := -1));
      }
    }

    method Release(k: nat)
      requires rows.Length > 0 && Tables.SeekRow(State(), k).Some?
      modifies this, rows
      ensures State() == Tables.Release(old(State()), k)
    {
      var idx := Locate(k);
      if rows[idx].value.lock == -1 {
        rows[idx] := rows[idx].(value := rows[idx].value.(lock := 0));
        xAvail := Tables.U8(xAvail + 1);
        sAvail := Tables.U8(sAvail + 1);
      } else {
        var lock := Tables.I8(rows[idx].value.lock - 1);
        rows[idx] := rows[idx].(value := rows[idx].value.(lock := lock));
        if lock == 0 { xAvail := Tables.U8(xAvail + 1); }
      }
    }
  }
}
