/** Cyclic probing: the order in which `idx = (idx + 1) % n` visits the slots of a table. */
module Probing {
  import opened Basics

  /** The slot reached from `home` after `d` steps. */
  function At(home: nat, d: nat, n: nat): (i: nat)
    requires home < n && d <= n
    ensures i < n
  {
    if home + d < n then home + d else home + d - n
  }

  /** The number of steps from `home` to slot `i`. */
  function Dist(home: nat, i: nat, n: nat): (d: nat)
    requires home < n && i < n
    ensures d < n && At(home, d, n) == i
  {
    if home <= i then i - home else i + n - home
  }

  lemma DistAt(home: nat, d: nat, n: nat)
    requires home < n && d < n
    ensures Dist(home, At(home, d, n), n) == d
  {
  }

  /** One turn of the source's loop moves one step further along the probe order. */
  lemma NextSlot(home: nat, d: nat, n: nat)
    requires home < n && d < n
    ensures (At(home, d, n) + 1) % n == At(home, d + 1, n)
  {
    var i := At(home, d, n);
    if i + 1 == n {
      assert n % n == 0;
    } else {
      assert (i + 1) % n == i + 1;
    }
  }

  /** Steps from `home`, at least `d`, to the first slot satisfying `p`; `|s|` when no slot from there on does. */
  function FirstHit<T>(s: seq<T>, home: nat, p: T -> bool, d: nat): (r: nat)
    requires home < |s| && d <= |s|
    ensures d <= r <= |s|
    ensures r < |s| ==> p(s[At(home, r, |s|)])
    ensures forall j :: d <= j < r ==> !p(s[At(home, j, |s|)])
    decreases |s| - d
  {
    if d == |s| || p(s[At(home, d, |s|)]) then d else FirstHit(s, home, p, d + 1)
  }

  /** The slot where a probe from `home` that stops on `p` ends; None when it would go round for ever. */
  function Probe<T>(s: seq<T>, home: nat, p: T -> bool): (r: Option<nat>)
    requires home < |s|
    ensures r.Some? ==> r.value < |s| && p(s[r.value])
  {
    var d := FirstHit(s, home, p, 0);
    if d < |s| then Some(At(home, d, |s|)) else None
  }

  /** The probe never ends exactly when no slot at all would stop it. */
  lemma ProbeNone<T>(s: seq<T>, home: nat, p: T -> bool)
    requires home < |s|
    ensures Probe(s, home, p).None? <==> forall i :: 0 <= i < |s| ==> !p(s[i])
  {
    if Probe(s, home, p).None? {
      forall i | 0 <= i < |s| ensures !p(s[i]) {
        var d := Dist(home, i, |s|);
        assert !p(s[At(home, d, |s|)]);
      }
    }
  }

  /** A loop that has looked at `|s|` slots in probe order has looked at all of them. */
  lemma Exhausted<T>(s: seq<T>, home: nat, p: T -> bool)
    requires home < |s| && forall d :: 0 <= d < |s| ==> !p(s[At(home, d, |s|)])
    ensures Probe(s, home, p).None?
  {
    assert FirstHit(s, home, p, 0) == |s|;
  }

  /** Where the probe ends is fixed by the first stopping slot in probe order. */
  lemma ProbeIs<T>(s: seq<T>, home: nat, p: T -> bool, d: nat)
    requires home < |s| && d < |s|
    requires p(s[At(home, d, |s|)])
    requires forall j :: 0 <= j < d ==> !p(s[At(home, j, |s|)])
    ensures Probe(s, home, p) == Some(At(home, d, |s|))
  {
    assert FirstHit(s, home, p, 0) == d;
  }

  /** Every slot passed before the probe ends does not satisfy `p`. */
  lemma ProbePassed<T>(s: seq<T>, home: nat, p: T -> bool, i: nat, d: nat)
    requires home < |s| && Probe(s, home, p) == Some(i)
    requires d < Dist(home, i, |s|)
    ensures !p(s[At(home, d, |s|)])
  {
    DistAt(home, FirstHit(s, home, p, 0), |s|);
  }

  /** A probing loop `d` steps in: it is done exactly at the end slot, and otherwise its next turn is one step nearer. */
  lemma ProbeTurn<T>(s: seq<T>, home: nat, p: T -> bool, i: nat, d: nat)
    requires home < |s| && Probe(s, home, p) == Some(i) && d <= Dist(home, i, |s|)
    ensures p(s[At(home, d, |s|)]) <==> d == Dist(home, i, |s|)
    ensures d < Dist(home, i, |s|) ==> (At(home, d, |s|) + 1) % |s| == At(home, d + 1, |s|)
  {
    if d < Dist(home, i, |s|) {
      ProbePassed(s, home, p, i, d);
      NextSlot(home, d, |s|);
    }
  }

  /** Two tests that agree on every slot passed and on the final one stop the probe at the same slot. */
  lemma ProbeSame<T>(s: seq<T>, home: nat, p: T -> bool, q: T -> bool, i: nat)
    requires home < |s| && Probe(s, home, p) == Some(i) && q(s[i])
    requires forall d :: 0 <= d < Dist(home, i, |s|) ==> !q(s[At(home, d, |s|)])
    ensures Probe(s, home, q) == Some(i)
  {
    ProbeIs(s, home, q, Dist(home, i, |s|));
  }

  /** Changing a slot that neither before nor after satisfies `p` does not move the probe. */
  lemma ProbeFrame<T>(s: seq<T>, home: nat, p: T -> bool, i: nat, x: T)
    requires home < |s| && i < |s| && !p(s[i]) && !p(x)
    ensures Probe(s[i := x], home, p) == Probe(s, home, p)
  {
    var t := s[i := x];
    ProbeNone(s, home, p);
    ProbeNone(t, home, p);
    if Probe(s, home, p).Some? {
      var j := Probe(s, home, p).value;
      assert t[j] == s[j];
      forall d | 0 <= d < Dist(home, j, |s|) ensures !p(t[At(home, d, |s|)]) {
        ProbePassed(s, home, p, j, d);
      }
      ProbeIs(t, home, p, Dist(home, j, |s|));
    } else {
      assert forall j :: 0 <= j < |t| ==> !p(t[j]);
    }
  }
}
