/**
 * The pool of reference-counted buffers, the handles to its slots, and the two kinds of
 * queue whose slots hold handles: counts are conserved over every run.
 */
module Buffers {
  import opened Basics
  import opened Probing
  import opened Rings

  /** `ref_count_` is an unsigned 16-bit counter. */
  const COUNT_SPACE := 0x1_0000

  datatype Pool = Pool(refs: seq<nat>, size: int, next: nat)

  /** A `buf_ref`: None is the null handle, Some(i) points to slot i of the pool. */
  type Handle = Option<nat>

  /** Where a handle lives: on its own, in a slot of the job channel, or in a slot of a worker's commit queue. */
  datatype Owner = Loose(id: nat) | JobSlot(i: nat) | CommitSlot(worker: nat, i: nat)

  type Handles = map<Owner, Handle>

  predicate Zero(r: nat) { r == 0 }

  predicate Referenced(r: nat) { r > 0 }

  // ---- The calls of the pool, each under its mutex ----

  function Retain(p: Pool, i: nat): Pool
    requires i < |p.refs|
  {
    Pool(p.refs[i := (p.refs[i] + 1) % COUNT_SPACE], if p.refs[i] == 0 then p.size + 1 else p.size, p.next)
  }

  function Release(p: Pool, i: nat): Pool
    requires i < |p.refs|
  {
    if p.refs[i] == 0 then p
    else p.(refs := p.refs[i := p.refs[i] - 1], size := if p.refs[i] == 1 && p.size > 0 then p.size - 1 else p.size)
  }

  /** The slot the next-fit loop stops at; None when it would not stop. */
  function NextFit(p: Pool): Option<nat>
    requires p.next < |p.refs|
  {
    Probe(p.refs, p.next, Zero)
  }

  function Take(p: Pool, i: nat): Pool
    requires i < |p.refs|
  {
    Pool(p.refs[i := 1], p.size + 1, (i + 1) % |p.refs|)
  }

  function RetainHandle(p: Pool, h: Handle): Pool
    requires h.Some? ==> h.value < |p.refs|
  {
    if h.Some? then Retain(p, h.value) else p
  }

  function ReleaseHandle(p: Pool, h: Handle): Pool
    requires h.Some? ==> h.value < |p.refs|
  {
    if h.Some? then Release(p, h.value) else p
  }

  // ---- Conservation ----

  function Pointing(m: Handles, i: nat): set<Owner> { set o | o in m && m[o] == Some(i) }

  /** Every count is the number of handles to its slot, and `size_` the number of slots with a handle. */
  ghost predicate Conserved(p: Pool, m: Handles) {
    && p.next < |p.refs|
    && (forall o :: o in m && m[o].Some? ==> m[o].value < |p.refs|)
    && (forall i :: 0 <= i < |p.refs| ==> p.refs[i] == |Pointing(m, i)|)
    && p.size == Count(p.refs, Referenced)
  }

  /** No slot has so many handles that one more would run its 16-bit count over. */
  ghost predicate Few(m: Handles) { forall i :: OneMore(m, i) }

  ghost predicate OneMore(m: Handles, i: nat) { |Pointing(m, i)| + 1 < COUNT_SPACE }

  function HandleOf(m: Handles, o: Owner): Handle { if o in m then m[o] else None }

  lemma SetSplit<T>(a: set<T>, x: T)
    ensures |a| == |a - {x}| + Bit(x in a)
  {
    assert a == if x in a then (a - {x}) + {x} else a - {x};
  }

  /** Pointing a handle somewhere else moves one from the old slot's count to the new one's. */
  lemma PointingUpdate(m: Handles, o: Owner, h: Handle, i: nat)
    ensures |Pointing(m[o := h], i)| + Bit(HandleOf(m, o) == Some(i)) == |Pointing(m, i)| + Bit(h == Some(i))
  {
    var a, b := Pointing(m, i), Pointing(m[o := h], i);
    SetSplit(a, o);
    SetSplit(b, o);
    assert a - {o} == b - {o} by {
      forall x | x != o ensures x in a <==> x in b {}
    }
  }

  /** Dropping an owner whose handle is null changes no count. */
  lemma PointingDrop(m: Handles, o: Owner, i: nat)
    requires o in m && m[o].None?
    ensures Pointing(m - {o}, i) == Pointing(m, i)
  {
  }

  /** Taking one more reference moves exactly one count, and `size_` with it, when the count has room. */
  lemma RetainShifts(p: Pool, h: Handle)
    requires p.size == Count(p.refs, Referenced)
    requires h.Some? ==> h.value < |p.refs| && p.refs[h.value] + 1 < COUNT_SPACE
    ensures var q := RetainHandle(p, h);
            && |q.refs| == |p.refs| && q.next == p.next && q.size == Count(q.refs, Referenced)
            && forall j :: 0 <= j < |p.refs| ==> q.refs[j] == p.refs[j] + Bit(h == Some(j))
  {
    if h.Some? { CountUpdate(p.refs, Referenced, h.value, p.refs[h.value] + 1); }
  }

  lemma ReleaseShifts(p: Pool, h: Handle)
    requires p.size == Count(p.refs, Referenced)
    requires h.Some? ==> h.value < |p.refs| && p.refs[h.value] > 0
    ensures var q := ReleaseHandle(p, h);
            && |q.refs| == |p.refs| && q.next == p.next && q.size == Count(q.refs, Referenced)
            && forall j :: 0 <= j < |p.refs| ==> q.refs[j] + Bit(h == Some(j)) == p.refs[j]
  {
    if h.Some? {
      CountUpdate(p.refs, Referenced, h.value, p.refs[h.value] - 1);
      CountNone(p.refs, Referenced);
    }
  }

  /** Repointing one handle, the new reference taken before the old one is given up, keeps every count right. */
  lemma AssignKeeps(p: Pool, m: Handles, o: Owner, h: Handle)
    requires Conserved(p, m) && (h.Some? ==> h.value < |p.refs| && OneMore(m, h.value))
    ensures Conserved(ReleaseHandle(RetainHandle(p, h), HandleOf(m, o)), m[o := h])
  {
    RetainShifts(p, h);
    var old_ := HandleOf(m, o);
    if old_.Some? { assert o in Pointing(m, old_.value); }
    ReleaseShifts(RetainHandle(p, h), old_);
    forall j | 0 <= j < |p.refs| ensures ReleaseHandle(RetainHandle(p, h), old_).refs[j] == |Pointing(m[o := h], j)| {
      PointingUpdate(m, o, h, j);
    }
  }

  /** One more handle keeps the counts right exactly when the slot's 16-bit count has room for it. */
  lemma RetainExact(p: Pool, m: Handles, o: Owner, i: nat)
    requires Conserved(p, m) && i < |p.refs| && HandleOf(m, o) == None
    ensures Conserved(Retain(p, i), m[o := Some(i)]) <==> OneMore(m, i)
  {
    PointingUpdate(m, o, Some(i), i);
    if OneMore(m, i) { AssignKeeps(p, m, o, Some(i)); }
  }

  /** Swapping what two owners hold, one of them holding nothing, changes no count. */
  lemma MoveKeeps(p: Pool, m: Handles, to: Owner, from: Owner)
    requires Conserved(p, m) && to != from && from in m && HandleOf(m, to) == None
    ensures Conserved(p, m[to := m[from]][from := None])
  {
    var m1 := m[to := m[from]];
    forall j | 0 <= j < |p.refs| ensures |Pointing(m1[from := None], j)| == p.refs[j] {
      PointingUpdate(m, to, m[from], j);
      PointingUpdate(m1, from, None, j);
    }
  }

  /** Next fit: it fails exactly when every slot is referenced, and otherwise hands out a slot that nobody points to. */
  lemma NextFitAnswers(p: Pool, m: Handles)
    requires Conserved(p, m)
    ensures p.size >= |p.refs| <==> forall i :: 0 <= i < |p.refs| ==> Pointing(m, i) != {}
    ensures p.size >= |p.refs| <==> NextFit(p).None?
    ensures NextFit(p).Some? ==>
              && Pointing(m, NextFit(p).value) == {}
              && forall d :: 0 <= d < Dist(p.next, NextFit(p).value, |p.refs|) ==> Pointing(m, At(p.next, d, |p.refs|)) != {}
  {
    CountAll(p.refs, Referenced);
    ProbeNone(p.refs, p.next, Zero);
    forall i | 0 <= i < |p.refs| ensures Pointing(m, i) == {} <==> p.refs[i] == 0 {}
    if NextFit(p).Some? {
      forall d | 0 <= d < Dist(p.next, NextFit(p).value, |p.refs|) ensures Pointing(m, At(p.next, d, |p.refs|)) != {} {
        ProbePassed(p.refs, p.next, Zero, NextFit(p).value, d);
      }
    }
  }

  lemma TakeKeeps(p: Pool, m: Handles, o: Owner, i: nat)
    requires Conserved(p, m) && NextFit(p) == Some(i) && o !in m
    ensures Conserved(Take(p, i), m[o := Some(i)])
  {
    CountUpdate(p.refs, Referenced, i, 1);
    forall j | 0 <= j < |p.refs| ensures Take(p, i).refs[j] == |Pointing(m[o := Some(i)], j)| {
      PointingUpdate(m, o, Some(i), j);
    }
  }

  // ---- Every handle of the program at once ----

  datatype World = World(pool: Pool, handles: Handles, jobs: Ends, jobRoom: nat, commits: seq<Ends>, commitRoom: nat)

  datatype Op =
    | Default(id: nat)
    | Request(id: nat)
    | CopyConstruct(id: nat, from: Owner)
    | MoveConstruct(id: nat, donor: nat)
    | CopyAssign(id: nat, from: Owner)
    | MoveAssign(id: nat, donor: nat)
    | Destroy(id: nat)
    | SendJob(id: nat)
    | PopJob
    | ClearJobs
    | SendCommit(worker: nat, id: nat)
    | PopCommit(worker: nat)
    | ClearCommits(worker: nat)
    | EndQueue(worker: nat)

  /** Handles point into the pool and ring positions into the rings. */
  predicate Sane(s: World) {
    && s.pool.next < |s.pool.refs|
    && (forall o :: o in s.handles && s.handles[o].Some? ==> s.handles[o].value < |s.pool.refs|)
    && Placed(s.jobs, s.jobRoom)
    && (forall w :: 0 <= w < |s.commits| ==> Placed(s.commits[w], s.commitRoom))
  }

  /** Assignment to a handle: retain the new slot, release the old one, take over the pointer. */
  function Assign(s: World, to: Owner, h: Handle): (r: World)
    requires Sane(s) && (h.Some? ==> h.value < |s.pool.refs|)
    ensures Sane(r) && |r.pool.refs| == |s.pool.refs|
  {
    s.(pool := ReleaseHandle(RetainHandle(s.pool, h), HandleOf(s.handles, to)), handles := s.handles[to := h])
  }

  /** A move: release the old slot, take over the pointer, null the donor. */
  function MoveTo(s: World, to: Owner, from: Owner): World
    requires Sane(s) && from in s.handles
  {
    s.(pool := ReleaseHandle(s.pool, HandleOf(s.handles, to)), handles := s.handles[to := s.handles[from]][from := None])
  }

  /** The end of a worker's commit queue: the handles of its last `n` slots are destroyed, the last slot first. */
  function DropSlots(s: World, w: nat, n: nat): (r: World)
    requires Sane(s)
    ensures Sane(r)
    decreases n
  {
    if n == 0 then s else DropSlots(Assign(s, CommitSlot(w, n - 1), None), w, n - 1)
  }

  /** None when the operation names a handle that is not there, or one that is there already. */
  function Step(s: World, op: Op): Option<World>
    requires Sane(s)
  {
    match op
    case Default(id) => if Loose(id) in s.handles then None else Some(s.(handles := s.handles[Loose(id) := None]))
    case Request(id) =>
      if Loose(id) in s.handles then None
      else if s.pool.size >= |s.pool.refs| then Some(s)
      else
        (match NextFit(s.pool)
         case None => None
         case Some(i) => Some(s.(pool := Take(s.pool, i), handles := s.handles[Loose(id) := Some(i)])))
    case CopyConstruct(id, from) =>
      if Loose(id) in s.handles || from !in s.handles then None else Some(Assign(s, Loose(id), s.handles[from]))
    case MoveConstruct(id, donor) =>
      if Loose(id) in s.handles || Loose(donor) !in s.handles then None else Some(MoveTo(s, Loose(id), Loose(donor)))
    case CopyAssign(id, from) =>
      if Loose(id) !in s.handles || from !in s.handles then None
      else if Loose(id) == from then Some(s)
      else Some(Assign(s, Loose(id), s.handles[from]))
    case MoveAssign(id, donor) =>
      if Loose(id) !in s.handles || Loose(donor) !in s.handles then None
      else if id == donor then Some(s)
      else Some(MoveTo(s, Loose(id), Loose(donor)))
    case Destroy(id) =>
      if Loose(id) !in s.handles then None
      else Some(s.(pool := ReleaseHandle(s.pool, s.handles[Loose(id)]), handles := s.handles - {Loose(id)}))
    case SendJob(id) =>
      if Loose(id) !in s.handles then None
      else if s.jobs.count >= s.jobRoom then Some(s)
      else Some(Assign(s, JobSlot(s.jobs.write), s.handles[Loose(id)]).(jobs := Sent(s.jobs, s.jobRoom)))
    case PopJob => Some(Assign(s, JobSlot(s.jobs.read), None).(jobs := Popped(s.jobs, s.jobRoom)))
    case ClearJobs => Some(s.(jobs := Ends(0, 0, 0)))
    case SendCommit(w, id) =>
      if w >= |s.commits| || Loose(id) !in s.handles then None
      else if s.commits[w].count >= s.commitRoom then Some(s)
      else Some(Assign(s, CommitSlot(w, s.commits[w].write), s.handles[Loose(id)])
                .(commits := s.commits[w := Sent(s.commits[w], s.commitRoom)]))
    case PopCommit(w) =>
      if w >= |s.commits| || s.commits[w].count == 0 then None
      else Some(s.(commits := s.commits[w := Popped(s.commits[w], s.commitRoom)]))
    case ClearCommits(w) =>
      if w >= |s.commits| then None else Some(s.(commits := s.commits[w := Ends(0, 0, 0)]))
    case EndQueue(w) =>
      if w >= |s.commits| then None
      else Some(DropSlots(s, w, s.commitRoom).(commits := s.commits[w := Ends(0, 0, 0)]))
  }

  lemma {:induction false} DropSlotsKeeps(s: World, w: nat, n: nat)
    requires Sane(s) && Conserved(s.pool, s.handles)
    ensures Conserved(DropSlots(s, w, n).pool, DropSlots(s, w, n).handles)
    decreases n
  {
    hide Conserved, ReleaseHandle, RetainHandle;
    if n > 0 {
      var t := Assign(s, CommitSlot(w, n - 1), None);
      AssignKeeps(s.pool, s.handles, CommitSlot(w, n - 1), None);
      DropSlotsKeeps(t, w, n - 1);
    }
  }

  /** Only the dropped slots change hands. */
  lemma {:induction false} DropSlotsFrame(s: World, w: nat, n: nat, o: Owner)
    requires Sane(s) && !(o.CommitSlot? && o.worker == w)
    ensures var r := DropSlots(s, w, n);
            && HandleOf(r.handles, o) == HandleOf(s.handles, o) && r.commits == s.commits && r.commitRoom == s.commitRoom
            && r.jobs == s.jobs && r.jobRoom == s.jobRoom
    decreases n
  {
    hide ReleaseHandle, RetainHandle;
    if n > 0 { DropSlotsFrame(Assign(s, CommitSlot(w, n - 1), None), w, n - 1, o); }
  }

  lemma DestroyKeeps(p: Pool, m: Handles, o: Owner)
    requires Conserved(p, m) && o in m
    ensures Conserved(ReleaseHandle(p, m[o]), m - {o})
  {
    AssignKeeps(p, m, o, None);
    assert m[o := None] - {o} == m - {o};
    forall j | 0 <= j < |p.refs| ensures Pointing(m[o := None], j) == Pointing(m - {o}, j) {
      PointingDrop(m[o := None], o, j);
    }
  }

  lemma MoveToKeeps(s: World, to: Owner, from: Owner)
    requires Sane(s) && Conserved(s.pool, s.handles) && from in s.handles && to != from
    ensures Conserved(MoveTo(s, to, from).pool, MoveTo(s, to, from).handles)
  {
    hide Conserved;
    AssignKeeps(s.pool, s.handles, to, None);
    var m := s.handles[to := None];
    MoveKeeps(ReleaseHandle(s.pool, HandleOf(s.handles, to)), m, to, from);
    assert m[to := m[from]][from := None] == s.handles[to := s.handles[from]][from := None];
  }

  /** Every operation on handles and queues conserves the counts. */
  lemma StepConserves(s: World, op: Op)
    requires Sane(s) && Conserved(s.pool, s.handles) && Few(s.handles) && Step(s, op).Some?
    ensures Sane(Step(s, op).value) && Conserved(Step(s, op).value.pool, Step(s, op).value.handles)
  {
    hide Conserved, Step, Few;
    ConservedStep(s, op);
    InRange(Step(s, op).value.pool, Step(s, op).value.handles);
    PlacedStep(s, op);
  }

  lemma PlacedStep(s: World, op: Op)
    requires Sane(s) && Step(s, op).Some?
    ensures var s' := Step(s, op).value;
            Placed(s'.jobs, s'.jobRoom) && forall w :: 0 <= w < |s'.commits| ==> Placed(s'.commits[w], s'.commitRoom)
  {
    JobsStep(s, op);
    var s' := Step(s, op).value;
    forall w | 0 <= w < |s'.commits| ensures Placed(s'.commits[w], s'.commitRoom) {
      SameQueues(s, op);
      assert Placed(s.commits[w], s.commitRoom);
      hide Step, Sane;
      EndsStep(s, op, w);
    }
  }

  lemma JobsStep(s: World, op: Op)
    requires Sane(s) && Step(s, op).Some?
    ensures Placed(Step(s, op).value.jobs, Step(s, op).value.jobRoom)
  {
    hide ReleaseHandle, RetainHandle, NextFit, Take, DropSlots;
    if op.EndQueue? { DropSlotsFrame(s, op.worker, s.commitRoom, Loose(0)); }
  }

  lemma SameQueues(s: World, op: Op)
    requires Sane(s) && Step(s, op).Some?
    ensures |Step(s, op).value.commits| == |s.commits|
  {
    hide ReleaseHandle, RetainHandle, NextFit, Take, DropSlots;
    if op.EndQueue? { DropSlotsFrame(s, op.worker, s.commitRoom, Loose(0)); }
  }

  lemma InRange(p: Pool, m: Handles)
    requires Conserved(p, m)
    ensures p.next < |p.refs| && forall o :: o in m && m[o].Some? ==> m[o].value < |p.refs|
  {
  }

  lemma ConservedStep(s: World, op: Op)
    requires Sane(s) && Conserved(s.pool, s.handles) && Few(s.handles) && Step(s, op).Some?
    ensures Conserved(Step(s, op).value.pool, Step(s, op).value.handles)
  {
    hide Conserved, Retain, Release, NextFit, Pointing;
    match op {
      case Default(id) => AssignKeeps(s.pool, s.handles, Loose(id), None);
      case Request(id) => if NextFit(s.pool).Some? { TakeKeeps(s.pool, s.handles, Loose(id), NextFit(s.pool).value); }
      case CopyConstruct(id, from) => AssignKeeps(s.pool, s.handles, Loose(id), s.handles[from]);
      case MoveConstruct(id, donor) => MoveToKeeps(s, Loose(id), Loose(donor));
      case CopyAssign(id, from) => if Loose(id) != from { AssignKeeps(s.pool, s.handles, Loose(id), s.handles[from]); }
      case MoveAssign(id, donor) => if id != donor { MoveToKeeps(s, Loose(id), Loose(donor)); }
      case Destroy(id) => DestroyKeeps(s.pool, s.handles, Loose(id));
      case SendJob(id) => AssignKeeps(s.pool, s.handles, JobSlot(s.jobs.write), s.handles[Loose(id)]);
      case PopJob => AssignKeeps(s.pool, s.handles, JobSlot(s.jobs.read), None);
      case EndQueue(w) => DropSlotsKeeps(s, w, s.commitRoom);
      case SendCommit(w, id) => AssignKeeps(s.pool, s.handles, CommitSlot(w, s.commits[w].write), s.handles[Loose(id)]);
      case _ =>
    }
  }

  // ---- What each operation does to the hint, to the counts and to the handles ----

  predicate Grants(s: World, op: Op)
    requires Sane(s)
  {
    op.Request? && Loose(op.id) !in s.handles && s.pool.size < |s.pool.refs|
  }

  /** A request that hands out slot i leaves the hint just behind it and touches no other count; nothing else moves the hint. */
  lemma HintStep(s: World, op: Op)
    requires Sane(s) && Step(s, op).Some?
    ensures var p, p' := s.pool, Step(s, op).value.pool;
            && |p'.refs| == |p.refs|
            && (Grants(s, op) ==>
                  && Loose(op.id) in Step(s, op).value.handles && Step(s, op).value.handles[Loose(op.id)].Some?
                  && var i := Step(s, op).value.handles[Loose(op.id)].value;
                     && i < |p.refs| && NextFit(p) == Some(i) && p.refs[i] == 0 && p'.refs == p.refs[i := 1] && p'.size == p.size + 1
                     && p'.next == if i + 1 == |p.refs| then 0 else i + 1)
            && (!Grants(s, op) ==> p'.next == p.next)
            && (op.Request? && !Grants(s, op) ==> Step(s, op).value == s)
  {
    hide Step, NextFit, Sane, Grants, Release, Retain;
    if Grants(s, op) { GrantStep(s, op); } else { HintKept(s, op); }
  }

  lemma GrantStep(s: World, op: Op)
    requires Sane(s) && Step(s, op).Some? && Grants(s, op)
    ensures var p, r := s.pool, Step(s, op).value;
            && NextFit(p).Some? && NextFit(p).value < |p.refs| && p.refs[NextFit(p).value] == 0
            && Loose(op.id) in r.handles && r.handles[Loose(op.id)] == NextFit(p)
            && r.pool.refs == p.refs[NextFit(p).value := 1] && r.pool.size == p.size + 1
            && r.pool.next == if NextFit(p).value + 1 == |p.refs| then 0 else NextFit(p).value + 1
  {
    hide NextFit;
    NextFitIs(s.pool);
    SuccessorIs(NextFit(s.pool).value, |s.pool.refs|);
  }

  lemma SuccessorIs(i: nat, n: nat)
    requires i < n
    ensures (i + 1) % n == if i + 1 == n then 0 else i + 1
  {
  }

  lemma HintKept(s: World, op: Op)
    requires Sane(s) && Step(s, op).Some? && !Grants(s, op)
    ensures Step(s, op).value.pool.next == s.pool.next && |Step(s, op).value.pool.refs| == |s.pool.refs|
    ensures op.Request? ==> Step(s, op).value == s
  {
    hide NextFit, DropSlots, Take;
    if op.EndQueue? { DropKeepsHint(s, op.worker, s.commitRoom); }
  }

  lemma NextFitIs(p: Pool)
    requires p.next < |p.refs| && NextFit(p).Some?
    ensures NextFit(p).value < |p.refs| && p.refs[NextFit(p).value] == 0
  {
  }

  lemma {:induction false} DropKeepsHint(s: World, w: nat, n: nat)
    requires Sane(s)
    ensures DropSlots(s, w, n).pool.next == s.pool.next && |DropSlots(s, w, n).pool.refs| == |s.pool.refs|
    decreases n
  {
    if n > 0 { DropKeepsHint(Assign(s, CommitSlot(w, n - 1), None), w, n - 1); }
  }

  /** Where the 16-bit counts wrap. */
  lemma CountWraps(p: Pool, i: nat)
    requires i < |p.refs| && p.refs[i] <= 65535
    ensures Retain(p, i).refs == p.refs[i := if p.refs[i] == 65535 then 0 else p.refs[i] + 1]
    ensures Release(p, i).refs == p.refs[i := if p.refs[i] == 0 then 0 else p.refs[i] - 1]
    ensures Retain(p, i).size == (if p.refs[i] == 0 then p.size + 1 else p.size) && Retain(p, i).next == p.next == Release(p, i).next
    ensures Release(p, i).size == if p.refs[i] == 1 && p.size > 0 then p.size - 1 else p.size
  {
  }

  /** Which handles an operation repoints, and to what. */
  lemma HandlesStep(s: World, op: Op)
    requires Sane(s) && Step(s, op).Some?
    ensures var m, m' := s.handles, Step(s, op).value.handles;
            match op
            case Default(id) => Loose(id) !in m && m' == m[Loose(id) := None]
            case Request(id) => Loose(id) !in m && (m' == m || exists i :: m' == m[Loose(id) := Some(i)])
            case CopyConstruct(id, from) => Loose(id) !in m && from in m && m' == m[Loose(id) := m[from]]
            case MoveConstruct(id, donor) => Loose(id) !in m && Loose(donor) in m && m' == m[Loose(id) := m[Loose(donor)]][Loose(donor) := None]
            case CopyAssign(id, from) => Loose(id) in m && from in m && m' == m[Loose(id) := m[from]]
            case MoveAssign(id, donor) =>
              Loose(id) in m && Loose(donor) in m && m' == if id == donor then m else m[Loose(id) := m[Loose(donor)]][Loose(donor) := None]
            case Destroy(id) => Loose(id) in m && m' == m - {Loose(id)}
            case SendJob(id) => Loose(id) in m && m' == if s.jobs.count >= s.jobRoom then m else m[JobSlot(s.jobs.write) := m[Loose(id)]]
            case PopJob => m' == m[JobSlot(s.jobs.read) := None]
            case SendCommit(w, id) =>
              && w < |s.commits| && Loose(id) in m
              && m' == if s.commits[w].count >= s.commitRoom then m else m[CommitSlot(w, s.commits[w].write) := m[Loose(id)]]
            case EndQueue(w) =>
              && (forall i :: 0 <= i < s.commitRoom ==> HandleOf(m', CommitSlot(w, i)) == None)
              && (forall o: Owner :: !(o.CommitSlot? && o.worker == w) ==> HandleOf(m', o) == HandleOf(m, o))
            case _ => m' == m
  {
    hide ReleaseHandle, RetainHandle, NextFit, Take, DropSlots;
    match op {
      case CopyAssign(id, from) => if Loose(id) == from { assert s.handles[Loose(id) := s.handles[from]] == s.handles; }
      case EndQueue(w) =>
        forall i | 0 <= i < s.commitRoom ensures HandleOf(Step(s, op).value.handles, CommitSlot(w, i)) == None { DropSlotsNull(s, w, s.commitRoom, i); }
        forall o: Owner | !(o.CommitSlot? && o.worker == w) ensures HandleOf(Step(s, op).value.handles, o) == HandleOf(s.handles, o) {
          DropSlotsFrame(s, w, s.commitRoom, o);
        }
      case _ =>
    }
  }

  lemma {:induction false} DropSlotsNull(s: World, w: nat, n: nat, i: nat)
    requires Sane(s) && (i < n || HandleOf(s.handles, CommitSlot(w, i)) == None)
    ensures HandleOf(DropSlots(s, w, n).handles, CommitSlot(w, i)) == None
    decreases n
  {
    hide ReleaseHandle, RetainHandle;
    if n > 0 { DropSlotsNull(Assign(s, CommitSlot(w, n - 1), None), w, n - 1, i); }
  }

  // ---- Jobs that have not been popped ----

  function JobSlots(s: World): (slots: seq<Handle>)
    ensures |slots| == s.jobRoom
  {
    seq(s.jobRoom, i requires 0 <= i => HandleOf(s.handles, JobSlot(i)))
  }

  /** The buffers of the jobs in the channel, oldest first. */
  function Jobs(s: World): seq<Handle>
    requires Sound(s.jobs, s.jobRoom)
  {
    Between(JobSlots(s), s.jobs)
  }

  /** The channel's jobs are first in, first out, and keep their buffers until they are popped. */
  lemma JobsQueueStep(s: World, op: Op)
    requires Sane(s) && Sound(s.jobs, s.jobRoom) && Step(s, op).Some? && (op.PopJob? ==> s.jobs.count > 0)
    ensures Sound(Step(s, op).value.jobs, Step(s, op).value.jobRoom)
    ensures Jobs(Step(s, op).value) ==
            if op.SendJob? && |Jobs(s)| < s.jobRoom then Jobs(s) + [s.handles[Loose(op.id)]]
            else if op.PopJob? then Jobs(s)[1..]
            else if op.ClearJobs? then []
            else Jobs(s)
  {
    JobSlotsStep(s, op);
    assert op.SendJob? ==> Loose(op.id) in s.handles;
    hide Step, JobSlots, Sent, Popped, Sane;
    if op.SendJob? && s.jobs.count < s.jobRoom {
      SendAppends(JobSlots(s), s.jobs, s.handles[Loose(op.id)]);
    } else if op.PopJob? {
      DestroyedUnseen(JobSlots(s), s.jobs, None);
    }
  }

  lemma JobSlotsStep(s: World, op: Op)
    requires Sane(s) && Step(s, op).Some?
    ensures var s', sends := Step(s, op).value, op.SendJob? && s.jobs.count < s.jobRoom;
            && s'.jobRoom == s.jobRoom
            && s'.jobs == (if sends then Sent(s.jobs, s.jobRoom) else if op.PopJob? then Popped(s.jobs, s.jobRoom)
                           else if op.ClearJobs? then Ends(0, 0, 0) else s.jobs)
            && JobSlots(s') == if sends then JobSlots(s)[s.jobs.write := s.handles[Loose(op.id)]]
                               else if op.PopJob? then JobSlots(s)[s.jobs.read := None] else JobSlots(s)
  {
    hide ReleaseHandle, RetainHandle, NextFit, Take, DropSlots, Sent, Popped;
    if op.EndQueue? { JobsUntouched(s, op.worker); }
  }

  lemma JobsUntouched(s: World, w: nat)
    requires Sane(s)
    ensures var r := DropSlots(s, w, s.commitRoom); r.jobs == s.jobs && r.jobRoom == s.jobRoom && JobSlots(r) == JobSlots(s)
  {
    hide DropSlots;
    var r := DropSlots(s, w, s.commitRoom);
    DropSlotsFrame(s, w, s.commitRoom, Loose(0));
    forall i | 0 <= i < s.jobRoom ensures JobSlots(r)[i] == JobSlots(s)[i] { DropSlotsFrame(s, w, s.commitRoom, JobSlot(i)); }
  }

  // ---- Runs ----

  /** `run[t]` is the world before `ops[t]`; there are never too many handles for a 16-bit count. */
  ghost predicate Run(run: seq<World>, ops: seq<Op>) {
    && |run| == |ops| + 1
    && (forall t :: 0 <= t < |run| ==> Few(run[t].handles))
    && (forall t :: 0 <= t < |ops| ==> Sane(run[t]) && Step(run[t], ops[t]) == Some(run[t + 1]))
  }

  lemma RunStep(run: seq<World>, ops: seq<Op>, t: nat)
    requires Run(run, ops) && t < |ops|
    ensures Few(run[t].handles) && Sane(run[t]) && Step(run[t], ops[t]) == Some(run[t + 1])
  {
  }

  /** No handles, no counts. */
  predicate Start(s: World) {
    && Sane(s) && s.handles == map[] && s.pool.size == 0
    && (forall i :: 0 <= i < |s.pool.refs| ==> s.pool.refs[i] == 0)
    && (forall w :: 0 <= w < |s.commits| ==> s.commits[w] == Ends(0, 0, 0))
  }

  lemma StartConserved(s: World)
    requires Start(s)
    ensures Conserved(s.pool, s.handles)
  {
    CountNone(s.pool.refs, Referenced);
    forall i | 0 <= i < |s.pool.refs| ensures Pointing(s.handles, i) == {} {}
  }

  /** After any sequence of operations every count is the number of handles to its slot. */
  lemma {:induction false} RunConserves(run: seq<World>, ops: seq<Op>, t: nat)
    requires Run(run, ops) && Start(run[0]) && t < |run|
    ensures Sane(run[t]) && Conserved(run[t].pool, run[t].handles)
  {
    if t == 0 {
      StartConserved(run[0]);
    } else {
      hide Run, Conserved, Sane, Step;
      RunConserves(run, ops, t - 1);
      RunStep(run, ops, t - 1);
      StepConserves(run[t - 1], ops[t - 1]);
    }
  }

  /** Between two grants the hint stays where the first one left it. */
  lemma {:induction false} HintStays(run: seq<World>, ops: seq<Op>, a: nat, b: nat)
    requires Run(run, ops) && a <= b < |run| && Sane(run[a])
    requires forall t :: a <= t < b ==> Sane(run[t]) && !Grants(run[t], ops[t])
    ensures run[b].pool.next == run[a].pool.next && |run[b].pool.refs| == |run[a].pool.refs|
  {
    hide Sane, Step, Grants;
    if a < b {
      HintStays(run, ops, a, b - 1);
      RunStep(run, ops, b - 1);
      HintStep(run[b - 1], ops[b - 1]);
    }
  }

  /** Over a run, the slot granted next is the first one without a handle, counted from behind the slot granted last. */
  lemma NextGrant(run: seq<World>, ops: seq<Op>, a: nat, b: nat)
    requires Run(run, ops) && Start(run[0]) && a < b < |ops| && Sane(run[a]) && Sane(run[b]) && Grants(run[a], ops[a]) && Grants(run[b], ops[b])
    requires forall t :: a < t < b ==> Sane(run[t]) && !Grants(run[t], ops[t])
    ensures Loose(ops[a].id) in run[a + 1].handles && Loose(ops[b].id) in run[b + 1].handles
    ensures run[a + 1].handles[Loose(ops[a].id)].Some? && run[b + 1].handles[Loose(ops[b].id)].Some?
    ensures var n, i, j := |run[b].pool.refs|, run[a + 1].handles[Loose(ops[a].id)].value, run[b + 1].handles[Loose(ops[b].id)].value;
            && i < n && j < n && Pointing(run[b].handles, j) == {}
            && var from := if i + 1 == n then 0 else i + 1;
               forall d :: 0 <= d < Dist(from, j, n) ==> Pointing(run[b].handles, At(from, d, n)) != {}
  {
    RunStep(run, ops, a);
    RunStep(run, ops, b);
    RunConserves(run, ops, a + 1);
    RunConserves(run, ops, b);
    HintStep(run[a], ops[a]);
    HintStep(run[b], ops[b]);
    HintStays(run, ops, a + 1, b);
    hide Run, Start, Step, Grants, Sane, Conserved, NextFit;
    NextFitAnswers(run[b].pool, run[b].handles);
    NextInPool(run[b].pool, run[b].handles);
  }

  lemma NextInPool(p: Pool, m: Handles)
    requires Conserved(p, m)
    ensures p.next < |p.refs|
  {
  }

  /** At no point of a run is a slot that any handle points to unreferenced, or handed out again. */
  lemma NoHandleReused(run: seq<World>, ops: seq<Op>, t: nat, o: Owner, i: nat)
    requires Run(run, ops) && Start(run[0]) && t < |ops| && o in run[t].handles && run[t].handles[o] == Some(i)
    ensures i < |run[t].pool.refs| && run[t].pool.refs[i] > 0
    ensures ops[t].Request? && Loose(ops[t].id) in run[t + 1].handles ==> run[t + 1].handles[Loose(ops[t].id)] != Some(i)
  {
    RunConserves(run, ops, t);
    RunStep(run, ops, t);
    hide Run, Start, Few;
    assert o in Pointing(run[t].handles, i);
    NextFitAnswers(run[t].pool, run[t].handles);
  }

  // ---- Commits that are still to be replayed ----

  function CommitSlots(s: World, w: nat): (slots: seq<Handle>)
    ensures |slots| == s.commitRoom
  {
    seq(s.commitRoom, i requires 0 <= i => HandleOf(s.handles, CommitSlot(w, i)))
  }

  ghost predicate QueuesSound(s: World) {
    forall w :: 0 <= w < |s.commits| ==> Sound(s.commits[w], s.commitRoom)
  }

  /** The buffers of the commits worker `w` has not replayed yet, oldest first. */
  function Unreplayed(s: World, w: nat): seq<Handle>
    requires w < |s.commits| && Sound(s.commits[w], s.commitRoom)
  {
    Between(CommitSlots(s, w), s.commits[w])
  }

  lemma QueuesStep(s: World, op: Op)
    requires Sane(s) && QueuesSound(s) && Step(s, op).Some? && s.commitRoom < COUNTER_SPACE
    ensures QueuesSound(Step(s, op).value) && |Step(s, op).value.commits| == |s.commits|
    ensures Step(s, op).value.commitRoom == s.commitRoom
  {
    hide ReleaseHandle, RetainHandle, NextFit, Take, Sound, DropSlots;
    if op.EndQueue? { DropSlotsFrame(s, op.worker, s.commitRoom, Loose(0)); }
    match op {
      case EndQueue(v) => ClearedSound(s.commits[v], s.commitRoom);
      case SendCommit(v, id) => if s.commits[v].count < s.commitRoom { SentSound(s.commits[v], s.commitRoom); }
      case PopCommit(v) => PoppedSound(s.commits[v], s.commitRoom);
      case ClearCommits(v) => ClearedSound(s.commits[v], s.commitRoom);
      case _ =>
    }
  }

  lemma ClearedSound(e: Ends, n: nat)
    requires Placed(e, n)
    ensures Sound(Ends(0, 0, 0), n)
  {
  }

  /** Which slots of a commit queue an operation writes to. */
  lemma SlotsStep(s: World, op: Op, w: nat)
    requires Sane(s) && Step(s, op).Some? && w < |s.commits| && op != EndQueue(w)
    ensures CommitSlots(Step(s, op).value, w) ==
            if op.SendCommit? && op.worker == w && s.commits[w].count < s.commitRoom
            then CommitSlots(s, w)[s.commits[w].write := s.handles[Loose(op.id)]]
            else CommitSlots(s, w)
  {
    hide ReleaseHandle, RetainHandle, NextFit, Take, DropSlots;
    var s' := Step(s, op).value;
    if op.EndQueue? {
      forall i | 0 <= i < s.commitRoom ensures HandleOf(s'.handles, CommitSlot(w, i)) == HandleOf(s.handles, CommitSlot(w, i)) {
        DropSlotsFrame(s, op.worker, s.commitRoom, CommitSlot(w, i));
      }
      DropSlotsFrame(s, op.worker, s.commitRoom, Loose(0));
    }
    forall i | 0 <= i < s.commitRoom
      ensures op.SendCommit? && op.worker == w && s.commits[w].count < s.commitRoom && i == s.commits[w].write ==>
                HandleOf(s'.handles, CommitSlot(w, i)) == s.handles[Loose(op.id)]
      ensures !(op.SendCommit? && op.worker == w && s.commits[w].count < s.commitRoom && i == s.commits[w].write) ==>
                HandleOf(s'.handles, CommitSlot(w, i)) == HandleOf(s.handles, CommitSlot(w, i)) {}
  }

  lemma EndsStep(s: World, op: Op, w: nat)
    requires Sane(s) && Step(s, op).Some? && w < |s.commits|
    ensures |Step(s, op).value.commits| == |s.commits| && Step(s, op).value.commitRoom == s.commitRoom
    ensures Step(s, op).value.commits[w] ==
            if op.SendCommit? && op.worker == w && s.commits[w].count < s.commitRoom then Sent(s.commits[w], s.commitRoom)
            else if op.PopCommit? && op.worker == w then Popped(s.commits[w], s.commitRoom)
            else if (op.ClearCommits? || op.EndQueue?) && op.worker == w then Ends(0, 0, 0)
            else s.commits[w]
    ensures op == PopCommit(w) ==> s.commits[w].count > 0
  {
    hide ReleaseHandle, RetainHandle, NextFit, Take, Sent, Popped, DropSlots;
    if op.EndQueue? { DropSlotsFrame(s, op.worker, s.commitRoom, Loose(0)); }
  }

  /** No operation but the queue's own touches the buffers of pending commits. */
  lemma PendingStep(s: World, op: Op, w: nat)
    requires Sane(s) && QueuesSound(s) && Step(s, op).Some? && w < |s.commits| && s.commitRoom < COUNTER_SPACE
    ensures QueuesSound(Step(s, op).value) && |Step(s, op).value.commits| == |s.commits|
    ensures Step(s, op).value.commitRoom == s.commitRoom
    ensures Unreplayed(Step(s, op).value, w) ==
            if op.SendCommit? && op.worker == w && |Unreplayed(s, w)| < s.commitRoom then Unreplayed(s, w) + [s.handles[Loose(op.id)]]
            else if op.PopCommit? && op.worker == w then Unreplayed(s, w)[1..]
            else if (op.ClearCommits? || op.EndQueue?) && op.worker == w then []
            else Unreplayed(s, w)
  {
    QueuesStep(s, op);
    if op != EndQueue(w) { SlotsStep(s, op, w); }
    EndsStep(s, op, w);
    assert op.SendCommit? ==> Loose(op.id) in s.handles;
    hide Step, CommitSlots, Sent, Popped, Sane;
    assert Sound(s.commits[w], s.commitRoom);
    if op.SendCommit? && op.worker == w && s.commits[w].count < s.commitRoom {
      SendAppends(CommitSlots(s, w), s.commits[w], s.handles[Loose(op.id)]);
    } else if op == PopCommit(w) {
      PopDrops(CommitSlots(s, w), s.commits[w]);
    }
  }

  /** While worker `w` neither replays nor clears between `a` and `b`, what was pending stays pending, buffers and all. */
  lemma {:induction false} PendingStays(run: seq<World>, ops: seq<Op>, w: nat, a: nat, b: nat)
    requires Run(run, ops) && a <= b < |run| && Sane(run[a])
    requires QueuesSound(run[a]) && w < |run[a].commits| && run[a].commitRoom < COUNTER_SPACE
    requires forall t :: a <= t < b ==> ops[t] != PopCommit(w) && ops[t] != ClearCommits(w) && ops[t] != EndQueue(w)
    ensures QueuesSound(run[b]) && |run[b].commits| == |run[a].commits| && run[b].commitRoom == run[a].commitRoom
    ensures Unreplayed(run[a], w) <= Unreplayed(run[b], w)
  {
    hide Sane, Step, Unreplayed;
    if a < b {
      PendingStays(run, ops, w, a, b - 1);
      RunStep(run, ops, b - 1);
      PendingStep(run[b - 1], ops[b - 1], w);
    }
  }

  lemma {:induction false} QueuesStaySound(run: seq<World>, ops: seq<Op>, t: nat)
    requires Run(run, ops) && Start(run[0]) && t < |run| && run[0].commitRoom < COUNTER_SPACE
    ensures QueuesSound(run[t]) && |run[t].commits| == |run[0].commits| && run[t].commitRoom == run[0].commitRoom
  {
    if t > 0 {
      QueuesStaySound(run, ops, t - 1);
      RunStep(run, ops, t - 1);
      hide Run, Sane, Step, QueuesSound;
      QueuesStep(run[t - 1], ops[t - 1]);
    }
  }

  /**
   * The buffer of a commit that is still to be replayed stays referenced, and no request
   * hands it out again, whatever else happens to handles and queues in between.
   */
  lemma PendingBufferIsSafe(run: seq<World>, ops: seq<Op>, w: nat, a: nat, t: nat, i: nat)
    requires Run(run, ops) && Start(run[0]) && run[0].commitRoom < COUNTER_SPACE
    requires a <= t < |ops| && w < |run[0].commits|
    requires forall u :: a <= u < t ==> ops[u] != PopCommit(w) && ops[u] != ClearCommits(w) && ops[u] != EndQueue(w)
    requires QueuesSound(run[a]) && w < |run[a].commits| && Some(i) in Unreplayed(run[a], w)
    ensures i < |run[t].pool.refs| && run[t].pool.refs[i] > 0
    ensures ops[t].Request? && Loose(ops[t].id) in run[t + 1].handles ==> run[t + 1].handles[Loose(ops[t].id)] != Some(i)
  {
    QueuesStaySound(run, ops, a);
    PendingStays(run, ops, w, a, t);
    hide Run, Start;
    var s := run[t];
    var j :| 0 <= j < |Unreplayed(s, w)| && Unreplayed(s, w)[j] == Some(i);
    var o := CommitSlot(w, At(s.commits[w].read, j, s.commitRoom));
    assert HandleOf(s.handles, o) == Some(i);
    NoHandleReused(run, ops, t, o, i);
  }
}
