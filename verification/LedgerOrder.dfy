/**
 When the order of an activity list matters, ready or not: the loop counts the first copy of every id it meets, so a
 total depends on the order exactly when two activities with one id differ in what they contribute to it.
 */
module LedgerOrder {
  import opened Common
  import opened Sums
  import opened Ledger
  import opened LedgerLaws

  /** The ids the loop accepts. */
  function IdsIn(activities: seq<Activity>): set<string> {
    set a | a in activities && Truthy(a.id) :: a.id.value
  }

  /** The first copy of every id, in order. */
  function Kept(activities: seq<Activity>): seq<Activity> {
    if activities == [] then []
    else
      var init, a := activities[..|activities| - 1], activities[|activities| - 1];
      Kept(init) + if Truthy(a.id) && a.id.value !in IdsIn(init) then [a] else []
  }

  lemma IdsGrow(init: seq<Activity>, a: Activity)
    ensures IdsIn(init + [a]) == IdsIn(init) + if Truthy(a.id) then {a.id.value} else {}
  {
    assert forall b :: b in init + [a] <==> b in init || b == a;
  }

  /** Whatever the list, the loop's totals are the plain totals of the copies it keeps. */
  lemma {:induction false} KeptTotals(activities: seq<Activity>)
    ensures Totals(Replay(activities), Kept(activities)) && Replay(activities).ids == IdsIn(activities)
  {
    if activities != [] {
      var init, a := activities[..|activities| - 1], activities[|activities| - 1];
      assert activities == init + [a];
      KeptTotals(init);
      KeptNext(Replay(init), init, a);
    }
  }

  lemma KeptNext(t: Tally, init: seq<Activity>, a: Activity)
    requires Totals(t, Kept(init)) && t.ids == IdsIn(init)
    ensures Totals(Post(t, a), Kept(init + [a])) && Post(t, a).ids == IdsIn(init + [a])
  {
    var all := init + [a];
    assert all[..|all| - 1] == init;
    IdsGrow(init, a);
    if Truthy(a.id) && a.id.value !in IdsIn(init) {
      assert Kept(all) == Kept(init) + [a];
      PostTotals(t, Kept(init), a);
      PostKeepsId(t, a);
    } else {
      assert Kept(all) == Kept(init) + [];
      RefusedTotals(t, Kept(init), a);
    }
  }

  lemma PostKeepsId(t: Tally, a: Activity)
    requires Truthy(a.id) && a.id.value !in t.ids
    ensures Post(t, a).ids == t.ids + {a.id.value}
  {
  }

  lemma RefusedTotals(t: Tally, kept: seq<Activity>, a: Activity)
    requires Totals(t, kept) && (!Truthy(a.id) || a.id.value in t.ids)
    ensures Totals(Post(t, a), kept + []) && Post(t, a).ids == t.ids
  {
    assert kept + [] == kept;
  }

  /** No order of the list changes what `f` adds up to. */
  ghost predicate OrderFree(activities: seq<Activity>, f: Activity -> real) {
    forall t: seq<Activity> :: multiset(t) == multiset(activities) ==> Sum(Kept(t), f) == Sum(Kept(activities), f)
  }

  /** Activities with one id contribute the same to `f`. */
  ghost predicate CopiesAgree(activities: seq<Activity>, f: Activity -> real) {
    forall a, b :: a in activities && b in activities && Truthy(a.id) && a.id == b.id ==> f(a) == f(b)
  }

  /** What the id contributes, from any copy. */
  ghost function ValueAt(activities: seq<Activity>, f: Activity -> real, id: string): real {
    if exists a :: a in activities && a.id == Some(id) then
      var a :| a in activities && a.id == Some(id);
      f(a)
    else 0.0
  }

  lemma LastKept(init: seq<Activity>, c: Activity, f: Activity -> real)
    ensures Sum(Kept(init + [c]), f) == Sum(Kept(init), f) + if Truthy(c.id) && c.id.value !in IdsIn(init) then f(c)
            else 0.0
  {
    var all := init + [c];
    assert all[..|all| - 1] == init;
    if Truthy(c.id) && c.id.value !in IdsIn(init) {
      assert Kept(all)[..|Kept(all)| - 1] == Kept(init);
    } else {
      assert Kept(all) == Kept(init);
    }
  }

  lemma {:induction false} KeptBySet(activities: seq<Activity>, f: Activity -> real, g: string -> real)
    requires forall a :: a in activities && Truthy(a.id) ==> f(a) == g(a.id.value)
    ensures Sum(Kept(activities), f) == SetSum(IdsIn(activities), g)
  {
    if activities != [] {
      var init, a := activities[..|activities| - 1], activities[|activities| - 1];
      assert activities == init + [a] && a in activities;
      KeptBySet(init, f, g);
      LastKept(init, a, f);
      IdsGrow(init, a);
      if Truthy(a.id) && a.id.value !in IdsIn(init) {
        SetSumRemove(IdsIn(activities), a.id.value, g);
        assert IdsIn(activities) - {a.id.value} == IdsIn(init);
      } else {
        assert IdsIn(activities) == IdsIn(init);
      }
    }
  }

  lemma AgreementSuffices(activities: seq<Activity>, f: Activity -> real)
    requires CopiesAgree(activities, f)
    ensures OrderFree(activities, f)
  {
    var g := id => ValueAt(activities, f, id);
    KeptBySet(activities, f, g);
    forall t: seq<Activity> | multiset(t) == multiset(activities) ensures Sum(Kept(t), f) == Sum(Kept(activities), f) {
      forall a ensures a in t <==> a in activities {
        assert a in multiset(t) <==> a in multiset(activities);
      }
      KeptBySet(t, f, g);
      assert IdsIn(t) == IdsIn(activities);
    }
  }

  /** A list with a chosen member moved to its front. */
  lemma MoveToFront(s: seq<Activity>, a: Activity) returns (rest: seq<Activity>)
    requires a in s
    ensures multiset([a] + rest) == multiset(s)
  {
    var k :| 0 <= k < |s| && s[k] == a;
    rest := s[..k] + s[k + 1..];
    assert s == s[..k] + [a] + s[k + 1..];
  }

  lemma PairToFront(s: seq<Activity>, a: Activity, b: Activity) returns (rest: seq<Activity>)
    requires a in s && b in s && a != b
    ensures multiset([a] + [b] + rest) == multiset(s) && multiset([b] + [a] + rest) == multiset(s)
  {
    var others := MoveToFront(s, a);
    assert b in multiset(s);
    assert multiset([a] + others) == multiset{a} + multiset(others);
    assert b in others;
    rest := MoveToFront(others, b);
    assert [a] + [b] + rest == [a] + ([b] + rest);
    assert [b] + [a] + rest == [b] + ([a] + rest);
  }

  /** Of two copies the first is counted. */
  lemma PairKept(a: Activity, b: Activity, f: Activity -> real)
    requires Truthy(a.id) && a.id == b.id
    ensures Sum(Kept([a] + [b]), f) == f(a) && IdsIn([a] + [b]) == {a.id.value}
  {
    assert [] + [a] == [a];
    LastKept([], a, f);
    LastKept([a], b, f);
    IdsGrow([], a);
    IdsGrow([a], b);
  }

  lemma SameNext(h: seq<Activity>, k: seq<Activity>, c: Activity, f: Activity -> real)
    requires IdsIn(h) == IdsIn(k)
    ensures Sum(Kept(h + [c]), f) - Sum(Kept(h), f) == Sum(Kept(k + [c]), f) - Sum(Kept(k), f)
    ensures IdsIn(h + [c]) == IdsIn(k + [c])
  {
    LastKept(h, c, f);
    LastKept(k, c, f);
    IdsGrow(h, c);
    IdsGrow(k, c);
  }

  /** `total` grows by the same amount, and `ids` stay the same, after lists with the same ids. */
  ghost predicate SameGrowth(total: seq<Activity> -> real, ids: seq<Activity> -> set<string>) {
    forall h, k, c :: ids(h) == ids(k) ==>
      total(h + [c]) - total(h) == total(k + [c]) - total(k) && ids(h + [c]) == ids(k + [c])
  }

  lemma {:induction false} GrowthContinues(total: seq<Activity> -> real, ids: seq<Activity> -> set<string>,
                                           h: seq<Activity>, k: seq<Activity>, rest: seq<Activity>)
    requires SameGrowth(total, ids) && ids(h) == ids(k)
    ensures total(h + rest) - total(h) == total(k + rest) - total(k) && ids(h + rest) == ids(k + rest)
  {
    if rest == [] {
      assert h + rest == h && k + rest == k;
    } else {
      var init, c := rest[..|rest| - 1], rest[|rest| - 1];
      GrowthContinues(total, ids, h, k, init);
      assert h + rest == h + init + [c] && k + rest == k + init + [c];
    }
  }

  ghost function TotalOf(f: Activity -> real): seq<Activity> -> real {
    s => Sum(Kept(s), f)
  }

  /** What is counted of a continuation depends on the ids before it alone. */
  lemma SameContinuation(h: seq<Activity>, k: seq<Activity>, rest: seq<Activity>, f: Activity -> real)
    requires IdsIn(h) == IdsIn(k)
    ensures Sum(Kept(h + rest), f) - Sum(Kept(h), f) == Sum(Kept(k + rest), f) - Sum(Kept(k), f)
  {
    forall p, q, c | IdsIn(p) == IdsIn(q)
      ensures Sum(Kept(p + [c]), f) - Sum(Kept(p), f) == Sum(Kept(q + [c]), f) - Sum(Kept(q), f)
      ensures IdsIn(p + [c]) == IdsIn(q + [c])
    {
      SameNext(p, q, c, f);
    }
    GrowthContinues(TotalOf(f), IdsIn, h, k, rest);
  }

  lemma OrderFreeAt(activities: seq<Activity>, f: Activity -> real, t: seq<Activity>)
    requires OrderFree(activities, f) && multiset(t) == multiset(activities)
    ensures Sum(Kept(t), f) == Sum(Kept(activities), f)
  {
  }

  lemma DisagreementShows(activities: seq<Activity>, f: Activity -> real, a: Activity, b: Activity)
    requires a in activities && b in activities && Truthy(a.id) && a.id == b.id && f(a) != f(b)
    ensures !OrderFree(activities, f)
  {
    var rest := PairToFront(activities, a, b);
    var h, k := [a] + [b], [b] + [a];
    PairKept(a, b, f);
    PairKept(b, a, f);
    SameContinuation(h, k, rest, f);
    if OrderFree(activities, f) {
      OrderFreeAt(activities, f, h + rest);
      OrderFreeAt(activities, f, k + rest);
    }
  }

  /** A total keeps its value in every order exactly when the copies of each id agree on it. */
  lemma OrderFreeIff(activities: seq<Activity>, f: Activity -> real)
    ensures OrderFree(activities, f) <==> CopiesAgree(activities, f)
  {
    if CopiesAgree(activities, f) {
      AgreementSuffices(activities, f);
    } else {
      var a, b :| a in activities && b in activities && Truthy(a.id) && a.id == b.id && f(a) != f(b);
      DisagreementShows(activities, f, a, b);
    }
  }

  /** `get` reads the total of `f` off the loop's variables. */
  ghost predicate Reads(get: Tally -> real, f: Activity -> real) {
    forall t: seq<Activity> :: get(Replay(t)) == Sum(Kept(t), f)
  }

  /** The reading is the same for every order of the list. */
  ghost predicate SameInEveryOrder(activities: seq<Activity>, get: Tally -> real) {
    forall t: seq<Activity> :: multiset(t) == multiset(activities) ==> get(Replay(t)) == get(Replay(activities))
  }

  lemma ReadingOrderFreeIff(activities: seq<Activity>, get: Tally -> real, f: Activity -> real)
    requires Reads(get, f)
    ensures SameInEveryOrder(activities, get) <==> CopiesAgree(activities, f)
  {
    OrderFreeIff(activities, f);
    if SameInEveryOrder(activities, get) {
      forall t: seq<Activity> | multiset(t) == multiset(activities) ensures Sum(Kept(t), f) ==
        Sum(Kept(activities), f) {
        assert get(Replay(t)) == get(Replay(activities));
      }
    } else {
      var t: seq<Activity> :| multiset(t) == multiset(activities) && get(Replay(t)) != get(Replay(activities));
      assert Sum(Kept(t), f) != Sum(Kept(activities), f);
    }
  }

  /**
   For every list, ready or not, each total of the report is the same in every order of the list exactly when any two
   activities with one id contribute the same to it: fill cash, cash, fees, income, fills and each symbol's inventory.
   */
  lemma TotalsOrderFreeIff(activities: seq<Activity>, symbol: string)
    ensures SameInEveryOrder(activities, (t: Tally) => t.fillCash) <==> CopiesAgree(activities, FillCashOf)
    ensures SameInEveryOrder(activities, (t: Tally) => t.cash) <==> CopiesAgree(activities, CashOf)
    ensures SameInEveryOrder(activities, (t: Tally) => t.fees) <==> CopiesAgree(activities, FeeOf)
    ensures SameInEveryOrder(activities, (t: Tally) => t.income) <==> CopiesAgree(activities, IncomeOf)
    ensures SameInEveryOrder(activities, (t: Tally) => t.fills as real) <==> CopiesAgree(activities, FillUnit)
    ensures SameInEveryOrder(activities, (t: Tally) => Held(t.inventory, symbol)) <==>
              CopiesAgree(activities, QtyOf(symbol))
  {
    forall t: seq<Activity> ensures Totals(Replay(t), Kept(t)) {
      KeptTotals(t);
    }
    ReadingOrderFreeIff(activities, (t: Tally) => t.fillCash, FillCashOf);
    ReadingOrderFreeIff(activities, (t: Tally) => t.cash, CashOf);
    ReadingOrderFreeIff(activities, (t: Tally) => t.fees, FeeOf);
    ReadingOrderFreeIff(activities, (t: Tally) => t.income, IncomeOf);
    ReadingOrderFreeIff(activities, (t: Tally) => t.fills as real, FillUnit);
    ReadingOrderFreeIff(activities, (t: Tally) => Held(t.inventory, symbol), QtyOf(symbol));
  }

  /** A list that shows it: two fees under one id, of one and of two dollars. */
  lemma RepeatedIdDependsOnOrder()
    ensures var a := Activity(Some("x"), Some("FEE"), None, None, Absent, Absent, Num(1.0), None, None, None, None,
                              None);
            var b := a.(netAmount := Num(2.0));
            !SameInEveryOrder([a, b], (t: Tally) => t.fees)
  {
    var a := Activity(Some("x"), Some("FEE"), None, None, Absent, Absent, Num(1.0), None, None, None, None, None);
    var b := a.(netAmount := Num(2.0));
    assert a in [a, b] && b in [a, b] && FeeOf(a) == 1.0 && FeeOf(b) == 2.0;
    TotalsOrderFreeIff([a, b], "");
  }
}
