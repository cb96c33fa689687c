/** Sequence facts the other modules share: duplicate-freedom, projections and reorderings. */
module Seqs {

  ghost predicate NoDup<T>(s: seq<T>) {
    forall i, j | 0 <= i < j < |s| :: s[i] != s[j]
  }

  /** The elements of s that satisfy p, in order. */
  function Filter<T>(s: seq<T>, p: T -> bool): seq<T> {
    if s == [] then []
    else if p(s[0]) then [s[0]] + Filter(s[1..], p)
    else Filter(s[1..], p)
  }

  lemma {:induction false} FilterAppend<T>(s: seq<T>, t: seq<T>, p: T -> bool)
    ensures Filter(s + t, p) == Filter(s, p) + Filter(t, p)
  {
    if s == [] {
      assert s + t == t;
    } else {
      assert (s + t)[0] == s[0] && (s + t)[1..] == s[1..] + t;
      FilterAppend(s[1..], t, p);
      if p(s[0]) {
        assert [s[0]] + (Filter(s[1..], p) + Filter(t, p)) == [s[0]] + Filter(s[1..], p) + Filter(t, p);
      }
    }
  }

  lemma FilterSnoc<T>(s: seq<T>, x: T, p: T -> bool)
    ensures Filter(s + [x], p) == Filter(s, p) + if p(x) then [x] else []
  {
    FilterAppend(s, [x], p);
    assert [x][1..] == [];
  }

  /** Every occurrence of a selected element survives the projection. */
  lemma {:induction false} FilterKeepsPairs<T>(s: seq<T>, p: T -> bool, i: nat, j: nat)
    requires i < j < |s| && p(s[i]) && p(s[j])
    ensures exists a, b :: 0 <= a < b < |Filter(s, p)| && Filter(s, p)[a] == s[i] && Filter(s, p)[b] == s[j]
  {
    var f := Filter(s, p);
    if i == 0 {
      var b := FilterIndex(s[1..], p, j - 1);
      assert f[0] == s[i] && f[b + 1] == s[j];
    } else {
      FilterKeepsPairs(s[1..], p, i - 1, j - 1);
      var g := Filter(s[1..], p);
      var a, b :| 0 <= a < b < |g| && g[a] == s[1..][i - 1] && g[b] == s[1..][j - 1];
      var d := |f| - |g|;
      assert f[a + d] == s[i] && f[b + d] == s[j];
    }
  }

  lemma {:induction false} FilterIndex<T>(s: seq<T>, p: T -> bool, i: nat) returns (a: nat)
    requires i < |s| && p(s[i])
    ensures a < |Filter(s, p)| && Filter(s, p)[a] == s[i]
  {
    if i == 0 {
      a := 0;
    } else {
      a := FilterIndex(s[1..], p, i - 1);
      a := a + |Filter(s, p)| - |Filter(s[1..], p)|;
    }
  }

  lemma {:induction false} FilterMember<T>(s: seq<T>, p: T -> bool, x: T)
    ensures x in Filter(s, p) <==> x in s && p(x)
  {
    if s != [] {
      assert s == [s[0]] + s[1..];
      FilterMember(s[1..], p, x);
    }
  }

  lemma NoDupSnoc<T>(s: seq<T>, x: T)
    requires NoDup(s) && x !in s
    ensures NoDup(s + [x])
  {
  }

  /** Taking the element at i out of s. */
  function Without<T>(s: seq<T>, i: nat): seq<T>
    requires i < |s|
  {
    s[..i] + s[i + 1..]
  }

  lemma WithoutMultiset<T>(s: seq<T>, i: nat)
    requires i < |s|
    ensures multiset(s) == multiset(Without(s, i)) + multiset{s[i]}
  {
    assert s == s[..i] + [s[i]] + s[i + 1..];
  }

  lemma SameMultisetMember<T>(s: seq<T>, t: seq<T>, x: T)
    requires multiset(s) == multiset(t)
    ensures x in s <==> x in t
  {
    assert x in s <==> x in multiset(s);
    assert x in t <==> x in multiset(t);
  }

  /** The first element of s, found in t; the rests are again the same up to order. */
  lemma HeadInOther<T>(s: seq<T>, t: seq<T>) returns (i: nat)
    requires s != [] && multiset(s) == multiset(t)
    ensures i < |t| && t[i] == s[0] && multiset(s[1..]) == multiset(Without(t, i))
  {
    SameMultisetMember(s, t, s[0]);
    i :| 0 <= i < |t| && t[i] == s[0];
    WithoutMultiset(t, i);
    assert s == [s[0]] + s[1..];
    assert multiset(s[1..]) == multiset(s) - multiset{s[0]};
  }

  lemma {:induction false} NoDupMultiset<T>(s: seq<T>)
    ensures NoDup(s) <==> forall x :: multiset(s)[x] <= 1
  {
    if s != [] {
      assert s == [s[0]] + s[1..];
      assert multiset(s) == multiset{s[0]} + multiset(s[1..]);
      NoDupMultiset(s[1..]);
      assert s[0] in s[1..] <==> s[0] in multiset(s[1..]);
      if NoDup(s) {
        assert s[0] !in s[1..];
        assert NoDup(s[1..]);
      }
      if forall x :: multiset(s)[x] <= 1 {
        assert multiset(s)[s[0]] <= 1;
        assert forall x :: multiset(s[1..])[x] <= multiset(s)[x];
      }
    }
  }

  ghost predicate DistinctBy<T, K>(s: seq<T>, key: T -> K) {
    forall i, j | 0 <= i < j < |s| :: key(s[i]) != key(s[j])
  }

  /** Keys that are distinct in one order are distinct in any order. */
  lemma DistinctPermute<T, K>(a: seq<T>, b: seq<T>, key: T -> K)
    requires multiset(a) == multiset(b) && DistinctBy(a, key)
    ensures DistinctBy(b, key)
  {
    assert NoDup(a) by {
      assert forall i, j | 0 <= i < j < |a| :: key(a[i]) != key(a[j]);
    }
    NoDupMultiset(a);
    NoDupMultiset(b);
    forall i, j | 0 <= i < j < |b|
      ensures key(b[i]) != key(b[j])
    {
      SameMultisetMember(a, b, b[i]);
      SameMultisetMember(a, b, b[j]);
      var k :| 0 <= k < |a| && a[k] == b[i];
      var l :| 0 <= l < |a| && a[l] == b[j];
      assert k != l;
      assert key(a[k]) != key(a[l]);
    }
  }

  /** Two sets that differ at most in x differ in size by the membership of x. */
  lemma SizeAfterChange<T>(before: set<T>, after: set<T>, x: T)
    requires forall y | y != x :: y in before <==> y in after
    ensures |after| == |before| + (if x in after then 1 else 0) - (if x in before then 1 else 0)
  {
    var rest := before - {x};
    assert rest == after - {x};
    assert x in before ==> before == rest + {x};
    assert x in after ==> after == rest + {x};
  }
}
