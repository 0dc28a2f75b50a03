/**
 What a report of any list says, ready or not: its issues one by one and its figures, from the first copy of every id.
 */
module LedgerIssues {
  import opened Common
  import opened Rounding
  import opened Sums
  import opened Ledger
  import opened LedgerLaws
  import opened LedgerOrder

  /** The kinds the ledger knows, by name. */
  predicate Known(kind: string) {
    || kind == "FILL" || kind == "CSD" || kind == "CSW" || kind == "JNLC" || kind == "FEE" || kind == "CFEE"
    || kind == "DIVFEE" || kind == "DIV" || kind == "INT"
  }

  /** Without a kind, or of a known kind that cannot be read. */
  predicate Faulty(a: Activity) {
    || a.kind == None
    || (Known(a.kind.value) && !CompleteFill(a) && !CashTransfer(a) && !FeeActivity(a) && !IncomeActivity(a))
  }

  predicate Foreign(a: Activity, kind: string) {
    a.kind == Some(kind) && !Known(kind)
  }

  lemma KindIs(a: Activity)
    ensures Read(a).Bad? <==> Faulty(a)
    ensures forall kind :: Read(a) == Unsupported(kind) <==> Foreign(a, kind)
  {
    ReadIff(a);
  }

  /** The loop finds an activity invalid: one without a new id, or a faulty one. */
  ghost predicate SomethingInvalid(activities: seq<Activity>) {
    |Kept(activities)| < |activities| || exists a :: a in Kept(activities) && Faulty(a)
  }

  ghost predicate SomethingForeign(activities: seq<Activity>, kind: string) {
    exists a :: a in Kept(activities) && Foreign(a, kind)
  }

  /** The issues of the loop. */
  ghost predicate Raises(activities: seq<Activity>, e: Issue) {
    match e
    case InvalidActivity => SomethingInvalid(activities)
    case UnsupportedActivity(kind) => SomethingForeign(activities, kind)
    case _ => false
  }

  lemma {:induction false} KeptLength(activities: seq<Activity>)
    ensures |Kept(activities)| <= |activities|
  {
    if activities != [] {
      KeptLength(activities[..|activities| - 1]);
    }
  }

  /** What one activity adds to the loop's issues. */
  ghost predicate RaisesNow(t: Tally, a: Activity, e: Issue) {
    if !Truthy(a.id) || a.id.value in t.ids then e == InvalidActivity
    else (e == InvalidActivity && Faulty(a)) || (e.UnsupportedActivity? && Foreign(a, e.kind))
  }

  lemma PostRaises(t: Tally, a: Activity, e: Issue)
    ensures e in Post(t, a).issues <==> e in t.issues || RaisesNow(t, a, e)
  {
    KindIs(a);
  }

  lemma RaisesNext(init: seq<Activity>, a: Activity, t: Tally, e: Issue)
    requires t.ids == IdsIn(init)
    ensures Raises(init + [a], e) <==> Raises(init, e) || RaisesNow(t, a, e)
  {
    var all := init + [a];
    assert all[..|all| - 1] == init;
    KeptLength(init);
    if Truthy(a.id) && a.id.value !in IdsIn(init) {
      assert Kept(all) == Kept(init) + [a];
      assert forall b :: b in Kept(all) <==> b in Kept(init) || b == a;
    } else {
      assert Kept(all) == Kept(init);
    }
  }

  /** Whatever the list, the loop's issues are exactly these. */
  lemma {:induction false} LoopIssues(activities: seq<Activity>, e: Issue)
    ensures e in Replay(activities).issues <==> Raises(activities, e)
  {
    if activities != [] {
      var init, a := activities[..|activities| - 1], activities[|activities| - 1];
      assert activities == init + [a];
      LoopIssues(init, e);
      KeptTotals(init);
      PostRaises(Replay(init), a, e);
      RaisesNext(init, a, Replay(init), e);
    }
  }

  /** The symbols whose quantity disagrees with the broker's. */
  ghost predicate Disagrees(activities: seq<Activity>, snapshot: AccountSnapshot, symbol: string) {
    Sum(Kept(activities), QtyOf(symbol)) != HeldShares(snapshot, symbol)
  }

  /** An issue of the report. */
  ghost predicate Issued(activities: seq<Activity>, snapshot: AccountSnapshot, tolerance: real, e: Issue) {
    match e
    case InvalidActivity => SomethingInvalid(activities)
    case UnsupportedActivity(kind) => SomethingForeign(activities, kind)
    case CashMismatch(delta) => delta == Sum(Kept(activities), CashOf) - snapshot.cash
      && (delta > tolerance || -delta > tolerance)
    case QuantityMismatch(symbols) => symbols != {} && forall s :: s in symbols <==> Disagrees(activities, snapshot, s)
    case InconsistentPositions => exists s :: s in snapshot.positions && !SignedPosition(snapshot.positions[s])
  }

  lemma DeltasAre(t: Tally, activities: seq<Activity>, snapshot: AccountSnapshot)
    requires Totals(t, Kept(activities))
    ensures var deltas := Deltas(t.inventory, snapshot.positions);
            forall s :: (s in deltas <==> Disagrees(activities, snapshot, s))
              && (s in deltas ==> deltas[s] == Sum(Kept(activities), QtyOf(s)) - HeldShares(snapshot, s))
  {
    var deltas := Deltas(t.inventory, snapshot.positions);
    forall s
      ensures (s in deltas <==> Disagrees(activities, snapshot, s))
        && (s in deltas ==> deltas[s] == Sum(Kept(activities), QtyOf(s)) - HeldShares(snapshot, s))
    {
      assert Held(t.inventory, s) == Sum(Kept(activities), QtyOf(s));
      assert PositionQty(snapshot.positions, s) == HeldShares(snapshot, s);
    }
  }

  lemma BookIssued(t: Tally, activities: seq<Activity>, snapshot: AccountSnapshot, tolerance: real, e: Issue)
    requires Totals(t, Kept(activities)) && (e in t.issues <==> Raises(activities, e))
    ensures e in BookIssues(t, snapshot, tolerance) <==> Issued(activities, snapshot, tolerance, e)
  {
    DeltasAre(t, activities, snapshot);
    var deltas := Deltas(t.inventory, snapshot.positions);
    match e
    case QuantityMismatch(symbols) =>
      assert deltas != map[] <==> deltas.Keys != {};
      if forall s :: s in symbols <==> Disagrees(activities, snapshot, s) {
        assert symbols == deltas.Keys;
      }
    case InconsistentPositions =>
      forall s | s in snapshot.positions
        ensures ConsistentPosition(snapshot.positions[s]) <==> SignedPosition(snapshot.positions[s])
      {
        SignedIsConsistent(snapshot.positions[s]);
      }
    case _ =>
  }

  /** The report of any list carries exactly the issues its raw fields give. */
  lemma IssuesAre(activities: seq<Activity>, snapshot: AccountSnapshot, tolerance: real, e: Issue)
    ensures e in Report(activities, snapshot, tolerance).issues <==> Issued(activities, snapshot, tolerance, e)
  {
    KeptTotals(activities);
    LoopIssues(activities, e);
    BookIssued(Replay(activities), activities, snapshot, tolerance, e);
  }

  /** The figures of the report of any list, from the first copy of every id. */
  lemma FiguresAre(activities: seq<Activity>, snapshot: AccountSnapshot, tolerance: real)
    ensures var r, kept := Report(activities, snapshot, tolerance), Kept(activities);
            && r.observedAt == snapshot.observedAt && r.activityCount == |activities|
            && r.fillCount as real == Sum(kept, FillUnit) && r.cashDelta == Sum(kept, CashOf) - snapshot.cash
            && r.fees == Sum(kept, FeeOf) && r.income == Sum(kept, IncomeOf)
            && (forall s :: s in r.quantityDeltas <==> Disagrees(activities, snapshot, s))
            && (forall s :: s in r.quantityDeltas ==>
                  r.quantityDeltas[s] == Sum(kept, QtyOf(s)) - HeldShares(snapshot, s))
            && (r.grossRealized.Some? <==> r.issues == {}) && (r.netRealized.Some? <==> r.issues == {})
  {
    KeptTotals(activities);
    DeltasAre(Replay(activities), activities, snapshot);
  }
}
