/** Small value-level vocabulary shared by every component. */
module Basics {

  datatype Option<+T> = None | Some(value: T)

  /** How many elements of `s` satisfy `p`. */
  function Count<T>(s: seq<T>, p: T -> bool): (c: nat)
    ensures c <= |s|
  {
    if s == [] then 0 else Count(s[..|s|-1], p) + (if p(s[|s|-1]) then 1 else 0)
  }

  function Bit(b: bool): nat { if b then 1 else 0 }

  /** Overwriting one element moves the count by exactly that element's contribution. */
  lemma {:induction false} CountUpdate<T>(s: seq<T>, p: T -> bool, i: nat, x: T)
    requires i < |s|
    ensures Count(s[i := x], p) + Bit(p(s[i])) == Count(s, p) + Bit(p(x))
  {
    var n := |s| - 1;
    if i == n {
      assert s[i := x][..n] == s[..n];
    } else {
      assert s[i := x][..n] == s[..n][i := x];
      CountUpdate(s[..n], p, i, x);
    }
  }

  lemma {:induction false} CountAll<T>(s: seq<T>, p: T -> bool)
    ensures Count(s, p) == |s| <==> forall i :: 0 <= i < |s| ==> p(s[i])
  {
    if s != [] {
      var n := |s| - 1;
      CountAll(s[..n], p);
      assert (forall i :: 0 <= i < |s| ==> p(s[i])) <==> p(s[n]) && forall i :: 0 <= i < n ==> p(s[..n][i]);
    }
  }

  lemma {:induction false} CountNone<T>(s: seq<T>, p: T -> bool)
    ensures Count(s, p) == 0 <==> forall i :: 0 <= i < |s| ==> !p(s[i])
  {
    if s != [] {
      var n := |s| - 1;
      CountNone(s[..n], p);
      assert (forall i :: 0 <= i < |s| ==> !p(s[i])) <==> !p(s[n]) && forall i :: 0 <= i < n ==> !p(s[..n][i]);
    }
  }

  lemma AddBoth<T>(o: multiset<T>, x: multiset<T>, a: multiset<T>, y: multiset<T>, b: multiset<T>)
    requires x + a == y + b
    ensures (o + x) + a == (o + y) + b
  {
    assert (o + x) + a == o + (x + a);
    assert (o + y) + b == o + (y + b);
  }

  lemma Rotate<T>(a: multiset<T>, h: multiset<T>, b: multiset<T>)
    ensures (a + h) + b == (b + h) + a
  {
  }

  lemma Settle<T>(h: multiset<T>, x: multiset<T>)
    ensures h + multiset{} + x == x + h + multiset{}
  {
  }

  /** Replacing one party's balance in a total: what it gained and lost is what the total gained and lost. */
  lemma Ledger<T>(all: multiset<T>, all': multiset<T>, own: multiset<T>, own': multiset<T>,
                  kept: multiset<T>, leaked: multiset<T>, loss: multiset<T>, gain: multiset<T>)
    requires all' + own == all + own'
    requires own' + leaked + loss == own + gain
    ensures (all' + (kept + leaked)) + loss == (all + kept) + gain
  {
    forall x ensures ((all' + (kept + leaked)) + loss)[x] == ((all + kept) + gain)[x] {
      assert (all' + own)[x] == (all + own')[x];
      assert (own' + leaked + loss)[x] == (own + gain)[x];
    }
  }
}
