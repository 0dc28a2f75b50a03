/**
 What reconciliation means, independently of the loop: a report is ready exactly when the activity list is
 clean and its totals agree with the snapshot, so neither readiness nor any ready total depends on the order
 in which the broker lists its activities.
 */
module LedgerLaws {
  import opened Common
  import opened Rounding
  import opened Sums
  import opened Ledger

  // What an activity is and contributes, on its raw fields.

  /** A complete execution of a US equity. */
  predicate CompleteFill(a: Activity) {
    && a.kind == Some("FILL")
    && a.qty.Num? && a.qty.value > 0.0 && a.price.Num? && a.price.value > 0.0
    && a.symbol.Some? && a.symbol.value != "" && '/' !in a.symbol.value
    && a.orderId.Some? && a.orderId.value != "" && a.transactionTime.Some? && a.transactionTime.value != ""
    && (a.side == Some("buy") || a.side == Some("sell") || a.side == Some("sell_short"))
    && (a.assetClass == None || a.assetClass == Some("us_equity"))
  }

  predicate ExecutedCash(a: Activity) {
    a.netAmount.Num? && (a.status == None || a.status == Some("executed"))
  }

  /** External cash in or out, or a cash journal, that moves no shares. */
  predicate CashTransfer(a: Activity) {
    && (a.kind == Some("CSD") || a.kind == Some("CSW") || a.kind == Some("JNLC"))
    && ExecutedCash(a) && (a.qty == Absent || a.qty == Num(0.0))
  }

  predicate FeeActivity(a: Activity) {
    (a.kind == Some("FEE") || a.kind == Some("CFEE") || a.kind == Some("DIVFEE")) && ExecutedCash(a)
  }

  predicate IncomeActivity(a: Activity) {
    (a.kind == Some("DIV") || a.kind == Some("INT")) && ExecutedCash(a)
  }

  /** The dollars of an execution. */
  function Traded(qty: real, price: real): real {
    qty * price
  }

  function FillCashOf(a: Activity): real {
    if !CompleteFill(a) then 0.0
    else if a.side == Some("buy") then -Traded(a.qty.value, a.price.value)
    else Traded(a.qty.value, a.price.value)
  }

  function TransferOf(a: Activity): real {
    if CashTransfer(a) then a.netAmount.value else 0.0
  }

  function FeeOf(a: Activity): real {
    if FeeActivity(a) then a.netAmount.value else 0.0
  }

  function IncomeOf(a: Activity): real {
    if IncomeActivity(a) then a.netAmount.value else 0.0
  }

  function CashOf(a: Activity): real {
    FillCashOf(a) + TransferOf(a) + FeeOf(a) + IncomeOf(a)
  }

  function FillUnit(a: Activity): real {
    if CompleteFill(a) then 1.0 else 0.0
  }

  /** The shares of `symbol` an activity adds. */
  function Moved(a: Activity, symbol: string): real {
    if !CompleteFill(a) || a.symbol.value != symbol then 0.0
    else if a.side == Some("buy") then a.qty.value
    else -a.qty.value
  }

  /** What an activity adds to the inventory of `symbol`. */
  function QtyOf(symbol: string): Activity -> real {
    a => Moved(a, symbol)
  }

  predicate Readable(a: Activity) {
    && a.id.Some? && a.id.value != ""
    && (CompleteFill(a) || CashTransfer(a) || FeeActivity(a) || IncomeActivity(a))
  }

  /** The ledger reads exactly these activities, each as what it is; it refuses every other. */
  lemma ReadIff(a: Activity)
    ensures Read(a).Fill? <==> CompleteFill(a)
    ensures CompleteFill(a) ==>
              Read(a) == Fill(a.symbol.value, if a.side == Some("buy") then -1.0 else 1.0, a.qty.value, a.price.value)
    ensures Read(a).Transfer? <==> CashTransfer(a)
    ensures CashTransfer(a) ==> Read(a) == Transfer(a.netAmount.value)
    ensures Read(a).Fee? <==> FeeActivity(a)
    ensures FeeActivity(a) ==> Read(a) == Fee(a.netAmount.value)
    ensures Read(a).Income? <==> IncomeActivity(a)
    ensures IncomeActivity(a) ==> Read(a) == Income(a.netAmount.value)
    ensures Readable(a) <==> Truthy(a.id) && !Read(a).Bad? && !Read(a).Unsupported?
  {
  }

  /** An execution's proceeds and shares by its side. */
  lemma SidedFill(a: Activity, symbol: string)
    requires CompleteFill(a)
    ensures FillCashOf(a) == Proceeds(Read(a).direction, Read(a).qty, Read(a).price)
    ensures Moved(a, symbol) == if Read(a).symbol == symbol then Bought(Read(a).direction, Read(a).qty) else 0.0
  {
    ReadIff(a);
    UnitDirection(a.qty.value, a.price.value);
  }

  lemma UnitDirection(qty: real, price: real)
    ensures Proceeds(-1.0, qty, price) == -Traded(qty, price) && Proceeds(1.0, qty, price) == Traded(qty, price)
    ensures Bought(-1.0, qty) == qty && Bought(1.0, qty) == -qty
  {
  }

  ghost predicate DistinctIds(activities: seq<Activity>) {
    forall i, j :: 0 <= i < j < |activities| ==> activities[i].id != activities[j].id
  }

  /** Every activity is identified, supported and complete, and no id repeats. */
  ghost predicate Clean(activities: seq<Activity>) {
    (forall a :: a in activities ==> Readable(a)) && DistinctIds(activities)
  }

  /** The order-free meaning of a ready report. */
  ghost predicate Reconciles(activities: seq<Activity>, snapshot: AccountSnapshot, tolerance: real) {
    && Clean(activities)
    && Abs(Sum(activities, CashOf) - snapshot.cash) <= tolerance
    && (forall s :: Sum(activities, QtyOf(s)) == HeldShares(snapshot, s))
    && (forall s :: s in snapshot.positions ==> SignedPosition(snapshot.positions[s]))
  }

  /** What the broker says is held of `symbol`. */
  function HeldShares(snapshot: AccountSnapshot, symbol: string): real {
    if symbol in snapshot.positions then snapshot.positions[symbol].qty else 0.0
  }

  /** A US equity whose cost basis has the sign of its quantity. */
  predicate SignedPosition(p: Position) {
    && p.assetClass == "us_equity"
    && ((p.qty > 0.0 && p.costBasis > 0.0) || (p.qty < 0.0 && p.costBasis < 0.0)
       || (p.qty == 0.0 && p.costBasis == 0.0))
  }

  lemma SignedIsConsistent(p: Position)
    ensures ConsistentPosition(p) <==> SignedPosition(p)
  {
    SignsOfProduct(p.qty, p.costBasis);
  }

  lemma SignsOfProduct(x: real, y: real)
    ensures x * y > 0.0 <==> (x > 0.0 && y > 0.0) || (x < 0.0 && y < 0.0)
  {
  }

  ghost predicate IdsAre(t: Tally, activities: seq<Activity>) {
    && (forall a :: a in activities ==> a.id.Some? && a.id.value in t.ids)
    && (forall x :: x in t.ids ==> exists i :: 0 <= i < |activities| && activities[i].id == Some(x))
  }

  /** On a clean prefix the loop's variables are the plain totals. */
  ghost predicate Totals(t: Tally, activities: seq<Activity>) {
    && t.fillCash == Sum(activities, FillCashOf)
    && t.cash == Sum(activities, CashOf)
    && t.fees == Sum(activities, FeeOf)
    && t.income == Sum(activities, IncomeOf)
    && t.fills as real == Sum(activities, FillUnit)
    && (forall s :: Held(t.inventory, s) == Sum(activities, QtyOf(s)))
  }

  /** The loop leaves no issue exactly on clean lists, and then has seen exactly their ids. */
  lemma {:induction false} IssueFreeIffClean(activities: seq<Activity>)
    ensures Replay(activities).issues == {} <==> Clean(activities)
    ensures Clean(activities) ==> IdsAre(Replay(activities), activities)
  {
    var n := |activities|;
    if n > 0 {
      var init, a := activities[..n - 1], activities[n - 1];
      assert activities == init + [a];
      IssueFreeIffClean(init);
      CleanExtends(init, a);
      PostIssues(Replay(init), a);
      if Clean(init) && Readable(a) {
        IdsExtend(Replay(init), init, a);
      }
    }
  }

  lemma PostIssues(t: Tally, a: Activity)
    ensures Post(t, a).issues == {} <==> t.issues == {} && Readable(a) && a.id.value !in t.ids
  {
    ReadIff(a);
    assert t.issues <= Post(t, a).issues;
  }

  lemma CleanExtends(init: seq<Activity>, a: Activity)
    ensures Clean(init + [a]) <==> Clean(init) && Readable(a) && forall i :: 0 <= i < |init| ==> init[i].id != a.id
  {
    var all := init + [a];
    assert all[|init|] == a && forall i :: 0 <= i < |init| ==> all[i] == init[i];
    assert a in all && forall b :: b in init ==> b in all;
  }

  lemma IdsExtend(t: Tally, init: seq<Activity>, a: Activity)
    requires IdsAre(t, init) && Readable(a)
    ensures a.id.value in t.ids <==> exists i :: 0 <= i < |init| && init[i].id == a.id
    ensures IdsAre(Post(t, a), init + [a])
  {
    var all := init + [a];
    assert all[|init|] == a && forall i :: 0 <= i < |init| ==> all[i] == init[i] && init[i] in init;
  }

  lemma {:induction false} CleanTotals(activities: seq<Activity>)
    requires Clean(activities)
    ensures Totals(Replay(activities), activities)
  {
    var n := |activities|;
    if n > 0 {
      var init, a := activities[..n - 1], activities[n - 1];
      assert activities == init + [a];
      assert Clean(init);
      CleanTotals(init);
      IssueFreeIffClean(init);
      assert a in activities && Readable(a);
      assert a.id.value !in Replay(init).ids;
      PostTotals(Replay(init), init, a);
    }
  }

  lemma PostTotals(t: Tally, init: seq<Activity>, a: Activity)
    requires Totals(t, init) && Truthy(a.id) && a.id.value !in t.ids
    ensures Totals(Post(t, a), init + [a])
  {
    var all, u := init + [a], Post(t, a);
    assert all[..|all| - 1] == init;
    ReadIff(a);
    if CompleteFill(a) {
      SidedFill(a, a.symbol.value);
    }
    forall s ensures Held(u.inventory, s) == Sum(all, QtyOf(s)) {
      assert Sum(all, QtyOf(s)) == Held(t.inventory, s) + Moved(a, s);
    }
  }

  lemma NoDeltas(inventory: map<string, real>, positions: map<string, Position>)
    ensures Deltas(inventory, positions) == map[] <==> forall s :: Held(inventory, s) == PositionQty(positions, s)
  {
    var deltas := Deltas(inventory, positions);
    if deltas == map[] {
      forall s ensures Held(inventory, s) == PositionQty(positions, s) {
        assert Held(inventory, s) != PositionQty(positions, s) ==> s in deltas;
      }
    }
  }

  /** A report is ready exactly when the list reconciles. */
  lemma ReadyIffReconciles(activities: seq<Activity>, snapshot: AccountSnapshot, tolerance: real)
    ensures Report(activities, snapshot, tolerance).Ready() <==> Reconciles(activities, snapshot, tolerance)
  {
    var t := Replay(activities);
    IssueFreeIffClean(activities);
    NoDeltas(t.inventory, snapshot.positions);
    NoBookIssues(t, snapshot, tolerance);
    if Clean(activities) {
      CleanTotals(activities);
    }
  }

  /** The book adds no issue exactly when cash, quantities and positions agree. */
  lemma NoBookIssues(t: Tally, snapshot: AccountSnapshot, tolerance: real)
    ensures BookIssues(t, snapshot, tolerance) == {} <==>
            && t.issues == {} && Abs(t.cash - snapshot.cash) <= tolerance
               && Deltas(t.inventory, snapshot.positions) == map[]
            && forall s :: s in snapshot.positions ==> SignedPosition(snapshot.positions[s])
  {
    var issues, deltas := BookIssues(t, snapshot, tolerance), Deltas(t.inventory, snapshot.positions);
    assert Abs(t.cash - snapshot.cash) > tolerance ==> CashMismatch(t.cash - snapshot.cash) in issues;
    assert deltas != map[] ==> QuantityMismatch(deltas.Keys) in issues;
    forall s | s in snapshot.positions
      ensures ConsistentPosition(snapshot.positions[s]) <==> SignedPosition(snapshot.positions[s])
    {
      SignedIsConsistent(snapshot.positions[s]);
    }
    if s :| s in snapshot.positions && !ConsistentPosition(snapshot.positions[s]) {
      assert InconsistentPositions in issues;
    }
    assert t.issues <= issues;
  }

  /** A list's totals. */
  datatype Figures = Figures(fillCash: real, transfers: real, cash: real, fees: real, income: real, fills: real)

  ghost function FiguresOf(activities: seq<Activity>): Figures {
    Figures(
      Sum(activities, FillCashOf), Sum(activities, TransferOf), Sum(activities, CashOf),
      Sum(activities, FeeOf), Sum(activities, IncomeOf), Sum(activities, FillUnit))
  }

  /** The report of a list that reconciles, from its order-free totals alone. */
  ghost function ReadyReport(f: Figures, count: nat, snapshot: AccountSnapshot): LedgerReport
    requires f.fills >= 0.0
  {
    var gross := f.fillCash + TotalBasis(snapshot.positions);
    LedgerReport(
      snapshot.observedAt, count, f.fills.Floor, {}, f.cash - snapshot.cash, map[],
      Some(gross), f.fees, f.income, Some(gross + f.fees + f.income), TotalUnrealized(snapshot.positions))
  }

  lemma TallyReport(t: Tally, f: Figures, count: nat, snapshot: AccountSnapshot)
    requires t.fillCash == f.fillCash && t.cash == f.cash && t.fees == f.fees && t.income == f.income
    requires t.fills as real == f.fills && Deltas(t.inventory, snapshot.positions) == map[]
    ensures MakeReport(t, count, snapshot, {}, TotalBasis(snapshot.positions), TotalUnrealized(snapshot.positions))
            == ReadyReport(f, count, snapshot)
  {
  }

  /** Every field of a ready report is an order-free total. */
  lemma ReadyTotals(activities: seq<Activity>, snapshot: AccountSnapshot, tolerance: real)
    requires Reconciles(activities, snapshot, tolerance)
    ensures FiguresOf(activities).fills >= 0.0
    ensures Report(activities, snapshot, tolerance) == ReadyReport(FiguresOf(activities), |activities|, snapshot)
  {
    ReadyIffReconciles(activities, snapshot, tolerance);
    CleanTotals(activities);
    NoDeltas(Replay(activities).inventory, snapshot.positions);
    TallyReport(Replay(activities), FiguresOf(activities), |activities|, snapshot);
  }

  lemma DistinctIdsPermutation(s: seq<Activity>, t: seq<Activity>)
    requires multiset(s) == multiset(t) && DistinctIds(s)
    ensures DistinctIds(t)
  {
    forall i, j | 0 <= i < j < |t| ensures t[i].id != t[j].id {
      var k, l := TwoPlaces(s, t, i, j);
      assert s[k].id != s[l].id;
    }
  }

  lemma ReconcilesPermutation(s: seq<Activity>, t: seq<Activity>, snapshot: AccountSnapshot, tolerance: real)
    requires multiset(s) == multiset(t) && Reconciles(s, snapshot, tolerance)
    ensures Reconciles(t, snapshot, tolerance)
  {
    DistinctIdsPermutation(s, t);
    forall a | a in t ensures Readable(a) {
      assert a in multiset(t);
      assert a in multiset(s);
    }
    SumPermutation(s, t, CashOf);
    forall x ensures Sum(t, QtyOf(x)) == HeldShares(snapshot, x) {
      SumPermutation(s, t, QtyOf(x));
    }
  }

  lemma FiguresPermutation(s: seq<Activity>, t: seq<Activity>)
    requires multiset(s) == multiset(t)
    ensures FiguresOf(s) == FiguresOf(t) && |s| == |t|
  {
    SumPermutation(s, t, FillCashOf);
    SumPermutation(s, t, TransferOf);
    SumPermutation(s, t, CashOf);
    SumPermutation(s, t, FeeOf);
    SumPermutation(s, t, IncomeOf);
    SumPermutation(s, t, FillUnit);
    assert |s| == |multiset(s)| == |multiset(t)| == |t|;
  }

  /** Any two orders of one activity list are both ready or both not, and ready ones report the same totals. */
  lemma OrderIndependent(s: seq<Activity>, t: seq<Activity>, snapshot: AccountSnapshot, tolerance: real)
    requires multiset(s) == multiset(t)
    ensures Report(s, snapshot, tolerance).Ready() <==> Report(t, snapshot, tolerance).Ready()
    ensures Report(s, snapshot, tolerance).Ready() ==> Report(s, snapshot, tolerance) == Report(t, snapshot, tolerance)
  {
    ReadyIffReconciles(s, snapshot, tolerance);
    ReadyIffReconciles(t, snapshot, tolerance);
    if Reconciles(s, snapshot, tolerance) {
      ReconcilesPermutation(s, t, snapshot, tolerance);
      ReadyTotals(s, snapshot, tolerance);
      ReadyTotals(t, snapshot, tolerance);
      FiguresPermutation(s, t);
    } else if Reconciles(t, snapshot, tolerance) {
      ReconcilesPermutation(t, s, snapshot, tolerance);
    }
  }

  /** `_equity`: cash plus every position's signed cost basis and unrealized P&L. */
  ghost function Equity(snapshot: AccountSnapshot): real {
    snapshot.cash + SetSum(snapshot.positions.Keys, ValueOf(snapshot.positions))
  }

  ghost function ValueOf(positions: map<string, Position>): string -> real {
    symbol => if symbol in positions then positions[symbol].costBasis + positions[symbol].unrealized else 0.0
  }

  lemma {:induction false} ValueSplits(keys: set<string>, positions: map<string, Position>)
    requires keys <= positions.Keys
    ensures SetSum(keys, ValueOf(positions)) == SetSum(keys, BasisOf(positions)) + SetSum(keys, MarkOf(positions))
  {
    if keys != {} {
      var s :| s in keys;
      SetSumRemove(keys, s, ValueOf(positions));
      SetSumRemove(keys, s, BasisOf(positions));
      SetSumRemove(keys, s, MarkOf(positions));
      ValueSplits(keys - {s}, positions);
    }
  }

  lemma {:induction false} CashSplits(activities: seq<Activity>)
    ensures Sum(activities, CashOf) ==
            Sum(activities, FillCashOf) + Sum(activities, TransferOf) + Sum(activities, FeeOf) +
              Sum(activities, IncomeOf)
  {
    if activities != [] {
      CashSplits(activities[..|activities| - 1]);
    }
  }

  /** A ready report's P&L. */
  function Pnl(report: LedgerReport): real
    requires report.Ready()
  {
    report.netRealized.value + report.unrealized
  }

  /** Equity is external cash plus P&L, within `tolerance`. */
  ghost predicate Explained(equity: real, external: real, pnl: real, tolerance: real) {
    Abs(equity - (external + pnl)) <= tolerance
  }

  /** A deposit of 100, ten shares bought at 5 and sold at 6, and the broker's 110 in cash. */
  const DEPOSIT := Activity(Some("d"), Some("CSD"), None, None, Absent, Absent, Num(100.0), None, None, None, None,
                            None)
  const PURCHASE := Activity(Some("b"), Some("FILL"), Some("AAA"), Some("buy"), Num(10.0), Num(5.0), Absent, Some("o"),
                             Some("t"), None, None, None)
  const SALE := PURCHASE.(id := Some("s"), side := Some("sell"), price := Num(6.0))
  const ALL_CASH := AccountSnapshot("acct", 110.0, map[], Aware(0))

  lemma TripContributions()
    ensures Readable(DEPOSIT) && Readable(PURCHASE) && Readable(SALE)
    ensures FillCashOf(DEPOSIT) == 0.0 && FillCashOf(PURCHASE) == -50.0 && FillCashOf(SALE) == 60.0
    ensures CashOf(DEPOSIT) == 100.0 && CashOf(PURCHASE) == -50.0 && CashOf(SALE) == 60.0
    ensures FillUnit(DEPOSIT) == 0.0 && FillUnit(PURCHASE) == 1.0 && FillUnit(SALE) == 1.0
    ensures forall x :: Moved(DEPOSIT, x) + Moved(PURCHASE, x) + Moved(SALE, x) == 0.0
  {
  }

  lemma TripReconciles()
    ensures var trip := [DEPOSIT, PURCHASE, SALE];
            && Reconciles(trip, ALL_CASH, 0.01)
            && Sum(trip, FillCashOf) == 10.0 && Sum(trip, FillUnit) == 2.0
  {
    TripContributions();
    SumOfThree(DEPOSIT, PURCHASE, SALE, CashOf);
    SumOfThree(DEPOSIT, PURCHASE, SALE, FillCashOf);
    SumOfThree(DEPOSIT, PURCHASE, SALE, FillUnit);
    forall x ensures Sum([DEPOSIT, PURCHASE, SALE], QtyOf(x)) == 0.0 {
      SumOfThree(DEPOSIT, PURCHASE, SALE, QtyOf(x));
    }
  }

  /** That list is ready with a gross realized P&L of ten. */
  lemma RoundTripRealizesTen()
    ensures var report := Report([DEPOSIT, PURCHASE, SALE], ALL_CASH, 0.01);
            report.Ready() && report.grossRealized == Some(10.0) && report.fillCount == 2
  {
    var trip := [DEPOSIT, PURCHASE, SALE];
    TripReconciles();
    ReadyIffReconciles(trip, ALL_CASH, 0.01);
    ReadyTotals(trip, ALL_CASH, 0.01);
    ReadyFigures(FiguresOf(trip), ALL_CASH);
  }

  lemma ReadyFigures(f: Figures, snapshot: AccountSnapshot)
    requires f.fillCash == 10.0 && f.fills == 2.0 && snapshot.positions == map[]
    ensures ReadyReport(f, 3, snapshot).grossRealized == Some(10.0) && ReadyReport(f, 3, snapshot).fillCount == 2
  {
  }

  lemma SumOfThree(a: Activity, b: Activity, c: Activity, f: Activity -> real)
    ensures Sum([a, b, c], f) == f(a) + f(b) + f(c)
  {
    SumOfOne(a, f);
    SumOfOne(b, f);
    SumOfOne(c, f);
    SumConcat([a], [b], f);
    SumConcat([a] + [b], [c], f);
    assert [a] + [b] + [c] == [a, b, c];
  }

  lemma SumOfOne(a: Activity, f: Activity -> real)
    ensures Sum([a], f) == f(a)
  {
    assert [a][..0] == [];
  }

  /** In a ready report, equity is external cash plus P&L, up to the cash tolerance. */
  lemma LedgerEquation(activities: seq<Activity>, snapshot: AccountSnapshot, tolerance: real)
    requires Report(activities, snapshot, tolerance).Ready()
    ensures Explained(Equity(snapshot), Sum(activities, TransferOf), Pnl(Report(activities, snapshot, tolerance)),
                      tolerance)
  {
    ReadyIffReconciles(activities, snapshot, tolerance);
    ReadyTotals(activities, snapshot, tolerance);
    FiguresSplit(activities, snapshot, tolerance);
    ReadyPnl(FiguresOf(activities), |activities|, snapshot, tolerance);
  }

  lemma FiguresSplit(activities: seq<Activity>, snapshot: AccountSnapshot, tolerance: real)
    requires Reconciles(activities, snapshot, tolerance)
    ensures var f := FiguresOf(activities);
            && Abs(f.cash - snapshot.cash) <= tolerance && f.cash == f.fillCash + f.transfers + f.fees + f.income
            && Equity(snapshot) == snapshot.cash + TotalBasis(snapshot.positions) + TotalUnrealized(snapshot.positions)
  {
    CashSplits(activities);
    ValueSplits(snapshot.positions.Keys, snapshot.positions);
  }

  lemma ReadyPnl(f: Figures, count: nat, snapshot: AccountSnapshot, tolerance: real)
    requires f.fills >= 0.0 && Abs(f.cash - snapshot.cash) <= tolerance
    requires f.cash == f.fillCash + f.transfers + f.fees + f.income
    requires Equity(snapshot) == snapshot.cash + TotalBasis(snapshot.positions) + TotalUnrealized(snapshot.positions)
    ensures Explained(Equity(snapshot), f.transfers, Pnl(ReadyReport(f, count, snapshot)), tolerance)
  {
  }
}
