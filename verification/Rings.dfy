/** The two ring buffers: what the index arithmetic means as a first-in first-out queue. */
module Rings {
  import opened Basics
  import opened Probing

  /** `size_t` arithmetic: taking one from an empty ring's counter wraps. */
  const COUNTER_SPACE := 0x1_0000_0000_0000_0000

  /** The read and write positions of a ring and its counter. */
  datatype Ends = Ends(read: nat, write: nat, count: nat)

  datatype Ring<T> = Ring(slots: seq<T>, ends: Ends)

  predicate Placed(e: Ends, n: nat) { e.read < n && e.write < n }

  /** The counter measures the distance from the read to the write position. */
  predicate Sound(e: Ends, n: nat) { Placed(e, n) && e.count <= n && e.write == At(e.read, e.count, n) }

  function Sent(e: Ends, n: nat): (e': Ends)
    requires n > 0
    ensures e.read < n ==> Placed(e', n)
  {
    e.(write := (e.write + 1) % n, count := e.count + 1)
  }

  function Popped(e: Ends, n: nat): (e': Ends)
    requires n > 0
    ensures e.write < n ==> Placed(e', n)
  {
    e.(read := (e.read + 1) % n, count := if e.count == 0 then COUNTER_SPACE - 1 else e.count - 1)
  }

  /** The entries between the two positions, oldest first. */
  function Between<T>(slots: seq<T>, e: Ends): (q: seq<T>)
    requires Sound(e, |slots|)
    ensures |q| == e.count
  {
    seq(e.count, j requires 0 <= j < e.count => slots[At(e.read, j, |slots|)])
  }

  function Contents<T>(r: Ring<T>): seq<T>
    requires Sound(r.ends, |r.slots|)
  {
    Between(r.slots, r.ends)
  }

  function Enqueue<T>(r: Ring<T>, x: T): Ring<T>
    requires Placed(r.ends, |r.slots|)
  {
    if r.ends.count >= |r.slots| then r else Ring(r.slots[r.ends.write := x], Sent(r.ends, |r.slots|))
  }

  /** A pop that leaves the slot as it was. */
  function Dequeue<T>(r: Ring<T>): Ring<T>
    requires Placed(r.ends, |r.slots|)
  {
    r.(ends := Popped(r.ends, |r.slots|))
  }

  lemma SentSound(e: Ends, n: nat)
    requires Sound(e, n) && e.count < n
    ensures Sound(Sent(e, n), n) && e.write == At(e.read, e.count, n)
  {
    NextSlot(e.read, e.count, n);
  }

  /** A pop leaves the counter true to the positions exactly when there was an entry to pop. */
  lemma PoppedSound(e: Ends, n: nat)
    requires Sound(e, n) && n < COUNTER_SPACE
    ensures Sound(Popped(e, n), n) <==> e.count > 0
  {
    NextSlot(e.read, 0, n);
    if e.count > 0 { PoppedAt(e, n, e.count - 1); }
  }

  lemma PoppedAt(e: Ends, n: nat, j: nat)
    requires Placed(e, n) && j < n
    ensures At(Popped(e, n).read, j, n) == At(e.read, j + 1, n)
  {
    NextSlot(e.read, 0, n);
    if e.read + 1 == n { assert Popped(e, n).read == 0; } else { assert Popped(e, n).read == e.read + 1; }
  }

  /** A send puts the entry last, or refuses it exactly when the ring is full. */
  lemma SendIsFifo<T>(r: Ring<T>, x: T)
    requires Sound(r.ends, |r.slots|)
    ensures Sound(Enqueue(r, x).ends, |r.slots|)
    ensures Contents(Enqueue(r, x)) == if r.ends.count < |r.slots| then Contents(r) + [x] else Contents(r)
  {
    if r.ends.count < |r.slots| {
      SentSound(r.ends, |r.slots|);
      SendAppends(r.slots, r.ends, x);
    }
  }

  /** Overwriting the write position and moving on appends; the entries already there stay. */
  lemma SendAppends<T>(slots: seq<T>, e: Ends, x: T)
    requires Sound(e, |slots|) && e.count < |slots|
    ensures Sound(Sent(e, |slots|), |slots|)
    ensures Between(slots[e.write := x], Sent(e, |slots|)) == Between(slots, e) + [x]
  {
    var n := |slots|;
    SentSound(e, n);
    forall j | 0 <= j < e.count ensures At(e.read, j, n) != e.write {
      DistAt(e.read, j, n);
      DistAt(e.read, e.count, n);
    }
  }

  /** A pop takes the oldest entry off. */
  lemma PopIsFifo<T>(r: Ring<T>)
    requires Sound(r.ends, |r.slots|) && r.ends.count > 0
    ensures Sound(Dequeue(r).ends, |r.slots|)
    ensures Contents(Dequeue(r)) == Contents(r)[1..]
  {
    PopDrops(r.slots, r.ends);
  }

  lemma PopDrops<T>(slots: seq<T>, e: Ends)
    requires Sound(e, |slots|) && e.count > 0
    ensures Sound(Popped(e, |slots|), |slots|)
    ensures Between(slots, Popped(e, |slots|)) == Between(slots, e)[1..]
  {
    var n := |slots|;
    PoppedAt(e, n, e.count - 1);
    forall j | 0 <= j < e.count - 1 ensures At(Popped(e, n).read, j, n) == At(e.read, j + 1, n) {
      PoppedAt(e, n, j);
    }
  }

  /** Destroying the oldest entry in place before it is popped does not disturb the others. */
  lemma DestroyedUnseen<T>(slots: seq<T>, e: Ends, x: T)
    requires Sound(e, |slots|) && e.count > 0
    ensures Sound(Popped(e, |slots|), |slots|)
    ensures Between(slots[e.read := x], Popped(e, |slots|)) == Between(slots, e)[1..]
  {
    var n := |slots|;
    PopDrops(slots, e);
    forall j | 0 <= j < e.count - 1 ensures At(Popped(e, n).read, j, n) != e.read {
      PoppedAt(e, n, j);
      DistAt(e.read, j + 1, n);
      DistAt(e.read, 0, n);
    }
  }

  /** Sends (Some) and pops (None) one after another. */
  function Used<T>(r: Ring<T>, ops: seq<Option<T>>): (r': Ring<T>)
    requires Placed(r.ends, |r.slots|)
    ensures Placed(r'.ends, |r'.slots|) && |r'.slots| == |r.slots|
  {
    if ops == [] then r
    else
      var q := Used(r, ops[..|ops|-1]);
      if ops[|ops|-1].Some? then Enqueue(q, ops[|ops|-1].value) else Dequeue(q)
  }

  function Pops<T>(ops: seq<Option<T>>): nat {
    if ops == [] then 0 else Pops(ops[..|ops|-1]) + Bit(ops[|ops|-1].None?)
  }

  /**
   * One pop too many: from then on the ring looks full and refuses whatever is sent,
   * until its counter has been popped all the way down from the top of its range.
   */
  lemma {:induction false} ExtraPopBlocks<T>(r: Ring<T>, ops: seq<Option<T>>)
    requires Sound(r.ends, |r.slots|) && r.ends.count == 0 && Pops(ops) + |r.slots| < COUNTER_SPACE
    ensures Placed(Dequeue(r).ends, |r.slots|)
    ensures var q := Used(Dequeue(r), ops);
            && q.slots == r.slots && q.ends.write == r.ends.write && q.ends.count == COUNTER_SPACE - 1 - Pops(ops)
            && forall x :: Enqueue(q, x) == q
    decreases |ops|
  {
    if ops != [] { ExtraPopBlocks(r, ops[..|ops|-1]); }
  }

  /** `commit_queue`: entries popped or cleared away stay in their slots until overwritten. */
  class CommitQueue<T> {
    const slots: array<T>
    var head: nat
    var tail: nat
    var size: nat

    ghost function State(): Ring<T>
      reads this, slots
    {
      Ring(slots[..], Ends(tail, head, size))
    }

    ghost predicate Valid()
      reads this, slots
    {
      Sound(State().ends, slots.Length)
    }

    ghost function Queued(): seq<T>
      requires Valid()
      reads this, slots
    {
      Contents(State())
    }

    constructor (n: nat, blank: T)
      requires n > 0
      ensures fresh(slots) && slots.Length == n && Valid() && Queued() == []
    {
      slots := new T[n](_ => blank);
      head, tail, size := 0, 0, 0;
    }

    method Get() returns (x: T)
      requires Valid() && size > 0
      ensures x == Queued()[0]
    {
      x := slots[tail];
    }

    method Send(x: T) returns (ok: bool)
      requires Valid()
      modifies this, slots
      ensures State() == Enqueue(old(State()), x)
      ensures Valid() && ok == (|old(Queued())| < slots.Length)
      ensures Queued() == if ok then old(Queued()) + [x] else old(Queued())
    {
      SendIsFifo(State(), x);
      if size >= slots.Length { return false; }
      slots[head] := x;
      head := (head + 1) % slots.Length;
      size := size + 1;
      ok := true;
    }

    method Pop()
      requires Valid() && size > 0
      modifies this
      ensures State() == Dequeue(old(State()))
      ensures Valid() && Queued() == old(Queued())[1..]
    {
      PopIsFifo(State());
      tail := (tail + 1) % slots.Length;
      size := size - 1;
    }

    method Clear()
      requires slots.Length > 0
      modifies this
      ensures Valid() && Queued() == []
    {
      head, tail, size := 0, 0, 0;
    }
  }

  /** `job_channel`: a pop destroys the job in its slot. */
  class JobChannel<T> {
    const jobs: array<T>
    const destroyed: T
    var head: nat
    var tail: nat
    var count: nat

    ghost function State(): Ring<T>
      reads this, jobs
    {
      Ring(jobs[..], Ends(head, tail, count))
    }

    ghost predicate Valid()
      reads this, jobs
    {
      Sound(State().ends, jobs.Length)
    }

    ghost function Queued(): seq<T>
      requires Valid()
      reads this, jobs
    {
      Contents(State())
    }

    constructor (n: nat, destroyed: T)
      requires n > 0
      ensures fresh(jobs) && jobs.Length == n && this.destroyed == destroyed && Valid() && Queued() == []
    {
      jobs := new T[n](_ => destroyed);
      this.destroyed := destroyed;
      head, tail, count := 0, 0, 0;
    }

    /** `get`, and `recv` once its wait is decided: None is the Empty or the Timeout answer. */
    method Get() returns (x: Option<T>)
      requires Valid()
      ensures x == if Queued() == [] then None else Some(Queued()[0])
    {
      x := if count == 0 then None else Some(jobs[head]);
    }

    method Send(x: T) returns (ok: bool)
      requires Valid()
      modifies this, jobs
      ensures State() == Enqueue(old(State()), x)
      ensures Valid() && ok == (|old(Queued())| < jobs.Length)
      ensures Queued() == if ok then old(Queued()) + [x] else old(Queued())
    {
      SendIsFifo(State(), x);
      if count >= jobs.Length { return false; }
      jobs[tail] := x;
      tail := (tail + 1) % jobs.Length;
      count := count + 1;
      ok := true;
    }

    /** The source pops without asking whether there is a job to pop. */
    method Pop()
      requires Placed(State().ends, jobs.Length)
      modifies this, jobs
      ensures State() == Ring(old(jobs[..])[old(head) := destroyed], Popped(old(State()).ends, jobs.Length))
      ensures old(Valid() && count > 0) ==> Valid() && Queued() == old(Queued())[1..]
    {
      if Valid() && count > 0 { DestroyedUnseen(jobs[..], State().ends, destroyed); }
      jobs[head] := destroyed;
      head := (head + 1) % jobs.Length;
      count := if count == 0 then COUNTER_SPACE - 1 else count - 1;
    }

    method Clear()
      requires jobs.Length > 0
      modifies this
      ensures Valid() && Queued() == []
    {
      head, tail, count := 0, 0, 0;
    }
  }
}
