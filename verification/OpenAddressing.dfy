/**
 * Fixed-size open addressing with tombstones: the layout shared by the student
 * table and the per-worker lock list. A slot is live when it is used and not
 * deleted; the key a slot carries outlives both flags.
 */
module OpenAddressing {
  import opened Basics
  import opened Probing

  datatype Slot<K, V> = Slot(key: K, value: V, used: bool, deleted: bool)

  predicate Live<K, V>(s: Slot<K, V>) { s.used && !s.deleted }

  /** The insertion test: `!is_used_ || is_deleted_`. */
  predicate Free<K, V>(s: Slot<K, V>) { !s.used || s.deleted }

  /** The test of the `while (true)` loops, which does not look at `is_used_`. */
  function Named<K(==), V>(k: K): Slot<K, V> -> bool { (s: Slot<K, V>) => s.key == k && !s.deleted }

  /** The test of the bounded search: an unused slot ends it as well. */
  function Stop<K(==), V>(k: K): Slot<K, V> -> bool { (s: Slot<K, V>) => !s.used || (s.key == k && !s.deleted) }

  /** What both of them are meant to find. */
  function Holds<K(==), V>(k: K): Slot<K, V> -> bool { (s: Slot<K, V>) => Live(s) && s.key == k }

  function Home<K>(h: K -> nat, k: K, n: nat): (i: nat)
    requires n > 0
    ensures i < n
  {
    h(k) % n
  }

  /** The slot that holds key `k`: the first live one in its probe order. */
  function Find<K(==), V>(slots: seq<Slot<K, V>>, h: K -> nat, k: K): Option<nat>
    requires |slots| > 0
  {
    Probe(slots, Home(h, k, |slots|), Holds(k))
  }

  /** The bounded search loop: do { ... } while (idx != start). */
  function Search<K(==), V>(slots: seq<Slot<K, V>>, h: K -> nat, k: K): Option<nat>
    requires |slots| > 0
  {
    var r := Probe(slots, Home(h, k, |slots|), Stop(k));
    if r.Some? && slots[r.value].used then r else None
  }

  /** The unbounded loop; None means that the loop never ends. */
  function Seek<K(==), V>(slots: seq<Slot<K, V>>, h: K -> nat, k: K): Option<nat>
    requires |slots| > 0
  {
    Probe(slots, Home(h, k, |slots|), Named(k))
  }

  /** Every slot strictly before `i` in the probe order of `k` is used. */
  predicate ChainTo<K, V>(slots: seq<Slot<K, V>>, h: K -> nat, k: K, i: nat)
    requires i < |slots|
  {
    var home := Home(h, k, |slots|);
    forall d :: 0 <= d < Dist(home, i, |slots|) ==> slots[At(home, d, |slots|)].used
  }

  /** The probe-chain invariant: no unused slot between a live key's home and its slot. */
  predicate Chained<K, V>(slots: seq<Slot<K, V>>, h: K -> nat)
  {
    forall i :: 0 <= i < |slots| && Live(slots[i]) ==> ChainTo(slots, h, slots[i].key, i)
  }

  predicate DistinctKeys<K(==), V>(slots: seq<Slot<K, V>>)
  {
    forall i, j :: 0 <= i < j < |slots| && Live(slots[i]) && Live(slots[j]) ==> slots[i].key != slots[j].key
  }

  /** A key is found exactly when some slot is live under it. */
  lemma FindsLive<K, V>(slots: seq<Slot<K, V>>, h: K -> nat, k: K)
    requires |slots| > 0
    ensures Find(slots, h, k).Some? <==> exists i :: 0 <= i < |slots| && Live(slots[i]) && slots[i].key == k
  {
    ProbeNone(slots, Home(h, k, |slots|), Holds(k));
  }

  /** With distinct keys, the live slot of a key is where the probe for it ends. */
  lemma FindsTheSlot<K, V>(slots: seq<Slot<K, V>>, h: K -> nat, i: nat)
    requires i < |slots| && Live(slots[i]) && DistinctKeys(slots)
    ensures Find(slots, h, slots[i].key) == Some(i)
  {
    FindsLive(slots, h, slots[i].key);
  }

  /** The bounded search, which gives up at the first unused slot, misses no live key. */
  lemma SearchIsFind<K, V>(slots: seq<Slot<K, V>>, h: K -> nat, k: K)
    requires |slots| > 0 && Chained(slots, h)
    ensures Search(slots, h, k) == Find(slots, h, k)
  {
    var home := Home(h, k, |slots|);
    if Find(slots, h, k).Some? {
      var i := Find(slots, h, k).value;
      assert ChainTo(slots, h, k, i);
      forall d | 0 <= d < Dist(home, i, |slots|) ensures !Stop<K, V>(k)(slots[At(home, d, |slots|)]) {
        ProbePassed(slots, home, Holds(k), i, d);
        assert slots[At(home, d, |slots|)].used;
      }
      ProbeSame(slots, home, Holds(k), Stop(k), i);
    } else {
      ProbeNone(slots, home, Holds(k));
    }
  }

  /** For a live key the unbounded loop ends, and at the right slot, although it never tests `is_used_`. */
  lemma SeekIsFind<K, V>(slots: seq<Slot<K, V>>, h: K -> nat, k: K)
    requires |slots| > 0 && Chained(slots, h) && Find(slots, h, k).Some?
    ensures Seek(slots, h, k) == Find(slots, h, k)
  {
    var home := Home(h, k, |slots|);
    var i := Find(slots, h, k).value;
    assert ChainTo(slots, h, k, i);
    forall d | 0 <= d < Dist(home, i, |slots|) ensures !Named<K, V>(k)(slots[At(home, d, |slots|)]) {
      ProbePassed(slots, home, Holds(k), i, d);
      assert slots[At(home, d, |slots|)].used;
    }
    ProbeSame(slots, home, Holds(k), Named(k), i);
  }

  /** For a key that is not live the unbounded loop can only end on an unused slot. */
  lemma SeekMissesLive<K, V>(slots: seq<Slot<K, V>>, h: K -> nat, k: K)
    requires |slots| > 0 && Find(slots, h, k).None? && Seek(slots, h, k).Some?
    ensures !slots[Seek(slots, h, k).value].used
  {
    ProbeNone(slots, Home(h, k, |slots|), Holds(k));
  }

  /** Overwriting a slot keeps the chains when it does not turn a used slot unused and is itself reachable. */
  lemma ChainedUpdate<K, V>(slots: seq<Slot<K, V>>, h: K -> nat, i: nat, s: Slot<K, V>)
    requires i < |slots| && Chained(slots, h)
    requires slots[i].used ==> s.used
    requires Live(s) ==> ChainTo(slots, h, s.key, i)
    ensures Chained(slots[i := s], h)
  {
    var t := slots[i := s];
    forall j | 0 <= j < |t| && Live(t[j]) ensures ChainTo(t, h, t[j].key, j) {
      assert ChainTo(slots, h, t[j].key, j);
    }
  }

  /** The first slot on the way that an insertion stops at is reachable: everything before it is live. */
  lemma FirstFreeReachable<K, V>(slots: seq<Slot<K, V>>, h: K -> nat, k: K, p: Slot<K, V> -> bool, i: nat)
    requires |slots| > 0
    requires forall s: Slot<K, V> :: Free(s) ==> p(s)
    requires Probe(slots, Home(h, k, |slots|), p) == Some(i)
    ensures ChainTo(slots, h, k, i)
  {
    var home := Home(h, k, |slots|);
    forall d | 0 <= d < Dist(home, i, |slots|) ensures slots[At(home, d, |slots|)].used {
      ProbePassed(slots, home, p, i, d);
    }
  }

  /** Filling or burying a slot under one key leaves the answer for every other key as it was. */
  lemma FindFrame<K, V>(slots: seq<Slot<K, V>>, h: K -> nat, k: K, i: nat, s: Slot<K, V>)
    requires i < |slots|
    requires !(Live(slots[i]) && slots[i].key == k) && !(Live(s) && s.key == k)
    ensures Find(slots[i := s], h, k) == Find(slots, h, k)
  {
    ProbeFrame(slots, Home(h, k, |slots|), Holds(k), i, s);
  }
}
