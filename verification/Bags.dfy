// Sequences of distinct indices as bags: two listings of the same indices report the same names.
module Bags {
  import opened Text

  lemma Concatenated(a: seq<nat>, c: seq<nat>)
    requires NoDup(a) && NoDup(c) && forall x: nat :: x in a ==> x !in c
    ensures NoDup(a + c)
  {
    forall i, j | 0 <= i < j < |a + c|
      ensures (a + c)[i] != (a + c)[j]
    {
      if i < |a| <= j {
        assert a[i] in a && c[j - |a|] in c;
      }
    }
  }

  lemma {:induction false} NoDupCounts(a: seq<nat>, x: nat)
    requires NoDup(a)
    ensures multiset(a)[x] == if x in a then 1 else 0
    decreases |a|
  {
    if a != [] {
      assert a == [a[0]] + a[1..];
      assert NoDup(a[1..]) && a[0] !in a[1..];
      NoDupCounts(a[1..], x);
    }
  }

  lemma SameMembersSameBag(a: seq<nat>, c: seq<nat>)
    requires NoDup(a) && NoDup(c) && forall x: nat :: x in a <==> x in c
    ensures multiset(a) == multiset(c)
  {
    forall x: nat
      ensures multiset(a)[x] == multiset(c)[x]
    {
      NoDupCounts(a, x);
      NoDupCounts(c, x);
    }
  }

  function NamesAt(names: seq<string>, idx: seq<nat>): (r: seq<string>)
    requires forall t :: 0 <= t < |idx| ==> idx[t] < |names|
    ensures |r| == |idx| && forall t :: 0 <= t < |idx| ==> r[t] == names[idx[t]]
  {
    seq(|idx|, t requires 0 <= t < |idx| => names[idx[t]])
  }

  lemma NamesConcat(names: seq<string>, a: seq<nat>, c: seq<nat>)
    requires (forall t :: 0 <= t < |a| ==> a[t] < |names|) && (forall t :: 0 <= t < |c| ==> c[t] < |names|)
    ensures NamesAt(names, a + c) == NamesAt(names, a) + NamesAt(names, c)
  {
  }

  lemma TakeOut(a: seq<nat>, c: seq<nat>) returns (j: nat)
    requires a != [] && multiset(a) == multiset(c)
    ensures j < |c| && c[j] == a[0] && multiset(a[1..]) == multiset(c[..j] + c[j + 1..])
  {
    assert a == [a[0]] + a[1..];
    assert a[0] in multiset(c);
    j :| 0 <= j < |c| && c[j] == a[0];
    assert c == c[..j] + [c[j]] + c[j + 1..];
    assert multiset(c) == multiset(c[..j]) + multiset{a[0]} + multiset(c[j + 1..]);
    assert multiset(a) == multiset{a[0]} + multiset(a[1..]);
    var more, less := multiset(a[1..]), multiset(c[..j]) + multiset(c[j + 1..]);
    assert multiset(c) == less + multiset{a[0]} && multiset(a) == more + multiset{a[0]};
    forall x
      ensures more[x] == less[x]
    {
      assert multiset(a)[x] == multiset(c)[x];
    }
  }

  lemma {:induction false} SameBagSameNames(names: seq<string>, a: seq<nat>, c: seq<nat>)
    requires (forall t :: 0 <= t < |a| ==> a[t] < |names|) && (forall t :: 0 <= t < |c| ==> c[t] < |names|)
    requires multiset(a) == multiset(c)
    ensures multiset(NamesAt(names, a)) == multiset(NamesAt(names, c))
    decreases |a|
  {
    if a == [] {
      assert |multiset(c)| == 0;
    } else {
      var j := TakeOut(a, c);
      var front, back, x := c[..j], c[j + 1..], [a[0]];
      assert a == x + a[1..] && c == (front + x) + back;
      SameBagSameNames(names, a[1..], front + back);
      NamesConcat(names, x, a[1..]);
      NamesConcat(names, front, back);
      NamesConcat(names, front, x);
      NamesConcat(names, front + x, back);
      BagsOfParts(NamesAt(names, x), NamesAt(names, a[1..]), NamesAt(names, front), NamesAt(names, back));
    }
  }

  lemma BagsOfParts(x: seq<string>, rest: seq<string>, front: seq<string>, back: seq<string>)
    requires multiset(rest) == multiset(front + back)
    ensures multiset(x + rest) == multiset(front + x + back)
  {
  }

  function Numbers(n: nat): (r: seq<nat>)
    ensures |r| == n && forall i :: 0 <= i < n ==> r[i] == i
  {
    seq(n, i requires 0 <= i < n => i)
  }

  /** Four disjoint listings that cover the first |names| numbers name everybody once. */
  lemma FourWays(names: seq<string>, a: seq<nat>, b: seq<nat>, c: seq<nat>, d: seq<nat>)
    requires NoDup(a) && NoDup(b) && NoDup(c) && NoDup(d)
    requires forall x: nat :: x in a || x in b || x in c || x in d <==> x < |names|
    requires forall x: nat :: (x in a ==> x !in b && x !in c && x !in d) && (x in b ==> x !in c && x !in d) && (x in c ==> x !in d)
    ensures forall t :: 0 <= t < |a| ==> a[t] < |names|
    ensures forall t :: 0 <= t < |b| ==> b[t] < |names|
    ensures forall t :: 0 <= t < |c| ==> c[t] < |names|
    ensures forall t :: 0 <= t < |d| ==> d[t] < |names|
    ensures multiset(names) == multiset(NamesAt(names, a)) + multiset(NamesAt(names, b)) + multiset(NamesAt(names, c)) + multiset(NamesAt(names, d))
  {
    forall t | 0 <= t < |a| ensures a[t] < |names| { assert a[t] in a; }
    forall t | 0 <= t < |b| ensures b[t] < |names| { assert b[t] in b; }
    forall t | 0 <= t < |c| ensures c[t] < |names| { assert c[t] in c; }
    forall t | 0 <= t < |d| ensures d[t] < |names| { assert d[t] in d; }
    var all := a + b + c + d;
    Concatenated(a, b);
    Concatenated(a + b, c);
    Concatenated(a + b + c, d);
    forall x: nat
      ensures x in all <==> x in Numbers(|names|)
    {
      assert x in all <==> x in a || x in b || x in c || x in d;
      assert x < |names| ==> Numbers(|names|)[x] == x;
    }
    SameMembersSameBag(all, Numbers(|names|));
    SameBagSameNames(names, all, Numbers(|names|));
    assert NamesAt(names, Numbers(|names|)) == names;
    NamesConcat(names, a, b);
    NamesConcat(names, a + b, c);
    NamesConcat(names, a + b + c, d);
  }
}
