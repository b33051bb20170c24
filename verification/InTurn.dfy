/** Stretches of a run in which one worker moves and the others stand still. */
module InTurn {
  import opened Basics
  import opened LockLists
  import opened Workers
  import opened Protocol
  import opened Runs
  import Tables = StudentTables

  /** One worker's acts one after another; None when one of them is not enabled. */
  function Alone(cfg: Config, t: Tables.Table, w: Worker, acts: seq<Act>): Option<Local>
    decreases |acts|
  {
    if acts == [] then Some(Local(w, t, multiset{}))
    else if !Shaped(t, w) then None
    else
      match StepLocal(cfg, t, w, acts[0])
      case None => None
      case Some(r) => Leaking(r.leaked, Alone(cfg, r.table, r.worker, acts[1..]))
  }

  function Leaking(leaked: multiset<Lock>, r: Option<Local>): Option<Local> {
    if r.None? then None else Some(r.value.(leaked := leaked + r.value.leaked))
  }

  /** One more act in front, of a stretch in which the first leaks nothing. */
  lemma AloneFirst(cfg: Config, t: Tables.Table, w: Worker, a: Act, n: nat, r: Local)
    requires Shaped(t, w) && StepLocal(cfg, t, w, a) == Some(r) && r.leaked == multiset{}
    ensures Alone(cfg, t, w, seq(n + 1, _ => a)) == Alone(cfg, r.table, r.worker, seq(n, _ => a))
  {
    hide StepLocal;
    assert seq(n + 1, _ => a)[1..] == seq(n, _ => a);
    var q := Alone(cfg, r.table, r.worker, seq(n, _ => a));
    if q.Some? { assert multiset{} + q.value.leaked == q.value.leaked; }
  }

  function By(w: nat, acts: seq<Act>): seq<Label> { seq(|acts|, i requires 0 <= i < |acts| => Label(w, acts[i])) }

  function Put(s: State, w: nat, r: Local): State
    requires w < |s.workers|
  {
    State(r.table, s.workers[w := r.worker], s.leaks + r.leaked)
  }

  /** Such a stretch is a run of the whole system. */
  lemma {:induction false} AloneIsRun(cfg: Config, s: State, w: nat, acts: seq<Act>)
    requires WellShaped(s) && w < |s.workers| && Alone(cfg, s.table, s.workers[w], acts).Some?
    ensures Exec(cfg, s, By(w, acts)) == Some(Put(s, w, Alone(cfg, s.table, s.workers[w], acts).value))
    decreases |acts|
  {
    hide StepLocal;
    if acts != [] {
      var r := StepLocal(cfg, s.table, s.workers[w], acts[0]).value;
      var s1 := Put(s, w, r);
      assert By(w, acts)[1..] == By(w, acts[1..]);
      if acts[1..] != [] {
        AloneIsRun(cfg, s1, w, acts[1..]);
        var q := Alone(cfg, r.table, r.worker, acts[1..]).value;
        assert s1.workers[w := q.worker] == s.workers[w := q.worker];
        assert s.leaks + r.leaked + q.leaked == s.leaks + (r.leaked + q.leaked);
      } else {
        assert r.leaked + multiset{} == r.leaked;
      }
    } else {
      assert s.workers[w := s.workers[w]] == s.workers;
      assert s.leaks + multiset{} == s.leaks;
    }
  }

  lemma {:induction false} ExecConcat(cfg: Config, s: State, a: seq<Label>, b: seq<Label>)
    requires Exec(cfg, s, a).Some?
    ensures Exec(cfg, s, a + b) == Exec(cfg, Exec(cfg, s, a).value, b)
    decreases |a|
  {
    hide StepLocal;
    if a == [] {
      assert a + b == b;
    } else {
      assert (a + b)[1..] == a[1..] + b;
      ExecConcat(cfg, Step(cfg, s, a[0].worker, a[0].act).value, a[1..], b);
    }
  }

  lemma {:induction false} AloneConcat(cfg: Config, t: Tables.Table, w: Worker, a: seq<Act>, b: seq<Act>)
    requires Alone(cfg, t, w, a).Some?
    ensures var r := Alone(cfg, t, w, a).value;
            Alone(cfg, t, w, a + b) == Leaking(r.leaked, Alone(cfg, r.table, r.worker, b))
    decreases |a|
  {
    hide StepLocal;
    if a == [] {
      assert a + b == b;
      var r := Alone(cfg, t, w, b);
      if r.Some? { assert multiset{} + r.value.leaked == r.value.leaked; }
    } else {
      assert (a + b)[1..] == a[1..] + b;
      var r := StepLocal(cfg, t, w, a[0]).value;
      AloneConcat(cfg, r.table, r.worker, a[1..], b);
      var q := Alone(cfg, r.table, r.worker, a[1..]).value;
      var z := Alone(cfg, q.table, q.worker, b);
      if z.Some? { assert r.leaked + (q.leaked + z.value.leaked) == r.leaked + q.leaked + z.value.leaked; }
    }
  }

  // ---- What one worker can come to ----

  /** Acts of the worker alone lead to `r`. */
  ghost predicate Leads(cfg: Config, t: Tables.Table, w: Worker, r: Local) {
    exists acts :: Alone(cfg, t, w, acts) == Some(r)
  }

  lemma LeadsHere(cfg: Config, t: Tables.Table, w: Worker)
    ensures Leads(cfg, t, w, Local(w, t, multiset{}))
  {
    assert Alone(cfg, t, w, []) == Some(Local(w, t, multiset{}));
  }

  lemma LeadsOn(cfg: Config, t: Tables.Table, w: Worker, r: Local, a: Act, q: Local)
    requires Leads(cfg, t, w, r) && Shaped(r.table, r.worker) && StepLocal(cfg, r.table, r.worker, a) == Some(q)
    ensures Leads(cfg, t, w, q.(leaked := r.leaked + q.leaked))
  {
    hide StepLocal;
    var acts :| Alone(cfg, t, w, acts) == Some(r);
    AloneConcat(cfg, t, w, acts, [a]);
    assert q.leaked + multiset{} == q.leaked;
    assert Alone(cfg, q.table, q.worker, [a][1..]) == Some(Local(q.worker, q.table, multiset{}));
    assert Alone(cfg, t, w, acts + [a]) == Some(q.(leaked := r.leaked + q.leaked));
  }

  function Only(w: Worker, t: Tables.Table): Local { Local(w, t, multiset{}) }

  /** The usual case, in which nothing leaks. */
  lemma LeadsQuietly(cfg: Config, t: Tables.Table, w: Worker, r: Local, a: Act, q: Local)
    requires Leads(cfg, t, w, r) && Shaped(r.table, r.worker) && StepLocal(cfg, r.table, r.worker, a) == Some(q)
    requires r.leaked == multiset{} == q.leaked
    ensures Leads(cfg, t, w, q)
  {
    hide Leads, StepLocal;
    LeadsOn(cfg, t, w, r, a, q);
    assert q.(leaked := r.leaked + q.leaked) == q;
  }

  /** A worker at the head of its loop takes a job and serves it. */
  lemma LeadsServed(cfg: Config, t: Tables.Table, w: Worker, r: Local, req: Request, q: Local)
    requires Leads(cfg, t, w, r) && Shaped(r.table, r.worker) && r.worker.pc.LoopHead? && r.worker.running
    requires Serve(cfg, r.table, r.worker.(pc := Receiving), req) == Some(q) && q.leaked == multiset{}
    ensures Leads(cfg, t, w, q.(leaked := r.leaked))
  {
    hide Serve, Leads;
    var c := Local(r.worker.(pc := Receiving), r.table, multiset{});
    LeadsOn(cfg, t, w, r, Check, c);
    assert r.leaked + multiset{} == r.leaked;
    LeadsOn(cfg, t, w, c.(leaked := r.leaked), Receive(req), q);
  }

  /** A read that is granted at its first attempt. */
  lemma LeadsRead(cfg: Config, t: Tables.Table, w: Worker, r: Local, want: Want, q: Local)
    requires Leads(cfg, t, w, r) && Shaped(r.table, r.worker) && r.worker.pc.LoopHead? && r.worker.running
    requires cfg.maxRetries > 0 && r.worker.phase == GROWING && !want.WantPromote? && r.leaked == multiset{}
    requires StepLocal(cfg, r.table, r.worker.(pc := Calling(want, 0)), Proceed) == Some(q)
    ensures Leads(cfg, t, w, q)
  {
    hide Leads, CallShared, CallExclusive;
    var tried := Only(r.worker.(pc := Trying(want, 0)), r.table);
    var called := Only(r.worker.(pc := Calling(want, 0)), r.table);
    LeadsServed(cfg, t, w, r, if want.WantShared? then SharedRead(Some(STUDENT_TBL)) else ExclusiveRead(Some(STUDENT_TBL)), tried);
    LeadsQuietly(cfg, t, w, tried, Check, called);
    LeadsOn(cfg, t, w, called, Proceed, q);
    assert q.(leaked := multiset{} + q.leaked) == q;
  }

  /** What one worker can come to, the whole system can come to. */
  lemma LeadsRun(cfg: Config, s: State, w: nat, r: Local) returns (ls: seq<Label>)
    requires WellShaped(s) && w < |s.workers| && Leads(cfg, s.table, s.workers[w], r)
    ensures Exec(cfg, s, ls) == Some(Put(s, w, r))
  {
    var acts :| Alone(cfg, s.table, s.workers[w], acts) == Some(r);
    AloneIsRun(cfg, s, w, acts);
    ls := By(w, acts);
  }

  /** A run goes on with such a stretch. */
  lemma Onward(cfg: Config, s: State, ls: seq<Label>, s1: State, w: nat, r: Local) returns (ls': seq<Label>)
    requires Exec(cfg, s, ls) == Some(s1) && WellShaped(s1) && w < |s1.workers| && Leads(cfg, s1.table, s1.workers[w], r)
    ensures Exec(cfg, s, ls') == Some(Put(s1, w, r))
  {
    hide Leads, Exec;
    var more := LeadsRun(cfg, s1, w, r);
    ExecConcat(cfg, s, ls, more);
    ls' := ls + more;
  }
}
