/** Totals over activity lists and over the symbols of a position book. */
module Sums {

  /** The total of `f` over `s`. */
  ghost function Sum<T>(s: seq<T>, f: T -> real): real {
    if s == [] then 0.0 else Sum(s[..|s| - 1], f) + f(s[|s| - 1])
  }

  lemma {:induction false} SumConcat<T>(s: seq<T>, t: seq<T>, f: T -> real)
    ensures Sum(s + t, f) == Sum(s, f) + Sum(t, f)
  {
    if t == [] {
      assert s + t == s;
    } else {
      SumConcat(s, t[..|t| - 1], f);
      assert (s + t)[..|s + t| - 1] == s + t[..|t| - 1];
    }
  }

  lemma {:induction false} SumRemove<T>(s: seq<T>, k: nat, f: T -> real)
    requires k < |s|
    ensures Sum(s, f) == Sum(s[..k] + s[k + 1..], f) + f(s[k])
  {
    SumConcat(s[..k], s[k..], f);
    assert s == s[..k] + s[k..];
    SumConcat([s[k]], s[k + 1..], f);
    assert s[k..] == [s[k]] + s[k + 1..];
    SumConcat(s[..k], s[k + 1..], f);
  }

  /** A total does not depend on the order. */
  lemma {:induction false} SumPermutation<T>(s: seq<T>, t: seq<T>, f: T -> real)
    requires multiset(s) == multiset(t)
    ensures Sum(s, f) == Sum(t, f)
    decreases |s|
  {
    if s == [] {
      assert |multiset(t)| == 0;
    } else {
      var n := |s| - 1;
      var k := Find(s[n], t, multiset(s));
      var rest := t[..k] + t[k + 1..];
      SumRemove(t, k, f);
      assert s == s[..n] + [s[n]];
      assert t == t[..k] + [t[k]] + t[k + 1..];
      assert multiset(s[..n]) == multiset(s) - multiset{s[n]};
      assert multiset(rest) == multiset(t) - multiset{t[k]};
      SumPermutation(s[..n], rest, f);
    }
  }

  /** Where a member of a multiset occurs in a sequence with that multiset. */
  lemma Find<T>(x: T, t: seq<T>, m: multiset<T>) returns (k: nat)
    requires m == multiset(t) && x in m
    ensures k < |t| && t[k] == x
  {
    assert x in t;
    k :| 0 <= k < |t| && t[k] == x;
  }

  lemma Without<T>(s: seq<T>, k: nat)
    requires k < |s|
    ensures multiset(s[..k] + s[k + 1..]) == multiset(s) - multiset{s[k]}
  {
    assert s == s[..k] + [s[k]] + s[k + 1..];
  }

  /** Two places of a sequence have two places of their own in any order of it. */
  lemma TwoPlaces<T>(s: seq<T>, t: seq<T>, i: nat, j: nat) returns (k: nat, l: nat)
    requires multiset(s) == multiset(t) && i < j < |t|
    ensures k < |s| && l < |s| && k != l && s[k] == t[j] && s[l] == t[i]
  {
    k := Find(t[j], s, multiset(t));
    var rest, others := t[..j] + t[j + 1..], s[..k] + s[k + 1..];
    Without(s, k);
    Without(t, j);
    assert rest[i] == t[i];
    var place := Find(t[i], others, multiset(rest));
    l := if place < k then place else place + 1;
  }

  /** The total of `f` over a finite set. */
  ghost function SetSum<T(!new)>(s: set<T>, f: T -> real): real {
    if s == {} then 0.0
    else
      var x :| x in s;
      f(x) + SetSum(s - {x}, f)
  }

  /** Any element may be taken out first. */
  lemma {:induction false} SetSumRemove<T(!new)>(s: set<T>, y: T, f: T -> real)
    requires y in s
    ensures SetSum(s, f) == f(y) + SetSum(s - {y}, f)
  {
    var x :| x in s && SetSum(s, f) == f(x) + SetSum(s - {x}, f);
    if x != y {
      SetSumRemove(s - {x}, y, f);
      SetSumRemove(s - {y}, x, f);
      assert s - {x} - {y} == s - {y} - {x};
    }
  }

  lemma {:induction false} SetSumAgrees<T(!new)>(s: set<T>, f: T -> real, g: T -> real)
    requires forall x :: x in s ==> f(x) == g(x)
    ensures SetSum(s, f) == SetSum(s, g)
  {
    if s != {} {
      var x :| x in s;
      SetSumRemove(s, x, f);
      SetSumRemove(s, x, g);
      SetSumAgrees(s - {x}, f, g);
    }
  }

  /** Elements where `f` is zero may be left out. */
  lemma {:induction false} SetSumSupport<T(!new)>(s: set<T>, t: set<T>, f: T -> real)
    requires s <= t && forall x :: x in t - s ==> f(x) == 0.0
    ensures SetSum(s, f) == SetSum(t, f)
    decreases t
  {
    if x :| x in t - s {
      SetSumRemove(t, x, f);
      SetSumSupport(s, t - {x}, f);
    } else {
      assert forall x :: x in t && x !in s ==> x in t - s;
      assert s == t;
    }
  }
}
