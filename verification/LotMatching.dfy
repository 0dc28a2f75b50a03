/**
 Gross realized P&L needs no lot matching: under every lot method that conserves cost, the realized P&L of
 the fills is the fill cash plus the cost still open. Average cost and FIFO, with shorts and flips through
 zero, are two such methods.
 */
module LotMatching {
  import opened Common
  import opened Sums
  import opened Ledger
  import opened LedgerLaws

  /**
   A lot method for one symbol: `step(lots, d, p)` trades the signed quantity `d` (a buy is positive) at price
   `p` and returns the remaining lots with the P&L it realizes; `basis` is their signed cost; `ok` holds of
   every state the method reaches.
   */
  datatype Method<!L> = Method(
    empty: L,
    step: (L, real, real) -> (L, real),
    basis: L -> real,
    ok: L -> bool)

  /** Cost is neither created nor lost: realized P&L is the cash of the fill plus the change in open cost. */
  ghost predicate ConservesCost<L(!new)>(m: Method<L>) {
    && m.ok(m.empty) && m.basis(m.empty) == 0.0
    && forall lots, d, p :: m.ok(lots) && d != 0.0 && p > 0.0 ==>
         var r := m.step(lots, d, p);
         m.ok(r.0) && r.1 == -d * p + m.basis(r.0) - m.basis(lots)
  }

  /** Every symbol's lots, and the P&L realized so far. */
  datatype Book<L> = Book(lots: map<string, L>, realized: real)

  function LotsOf<L>(m: Method<L>, lots: map<string, L>, symbol: string): L {
    if symbol in lots then lots[symbol] else m.empty
  }

  /** The book after an activity; only fills move it. */
  function Trade<L>(m: Method<L>, book: Book<L>, a: Activity): Book<L> {
    match Read(a)
    case Fill(symbol, direction, qty, price) =>
      var (lots, realized) := m.step(LotsOf(m, book.lots, symbol), Bought(direction, qty), price);
      Book(book.lots[symbol := lots], book.realized + realized)
    case _ => book
  }

  function TradeAll<L>(m: Method<L>, activities: seq<Activity>): Book<L> {
    if activities == [] then Book(map[], 0.0)
    else Trade(m, TradeAll(m, activities[..|activities| - 1]), activities[|activities| - 1])
  }

  ghost function OpenCostOf<L>(m: Method<L>, lots: map<string, L>): string -> real {
    symbol => if symbol in lots then m.basis(lots[symbol]) else 0.0
  }

  /** The signed cost of everything still open. */
  ghost function OpenCost<L>(m: Method<L>, lots: map<string, L>): real {
    SetSum(lots.Keys, OpenCostOf(m, lots))
  }

  lemma OpenCostUpdate<L(!new)>(m: Method<L>, lots: map<string, L>, symbol: string, l: L)
    requires ConservesCost(m)
    ensures OpenCost(m, lots[symbol := l]) == OpenCost(m, lots) + m.basis(l) - m.basis(LotsOf(m, lots, symbol))
  {
    var after, others := lots[symbol := l], lots.Keys - {symbol};
    SetSumRemove(after.Keys, symbol, OpenCostOf(m, after));
    assert after.Keys - {symbol} == others;
    SetSumAgrees(others, OpenCostOf(m, after), OpenCostOf(m, lots));
    if symbol in lots {
      SetSumRemove(lots.Keys, symbol, OpenCostOf(m, lots));
    } else {
      assert others == lots.Keys;
    }
  }

  /** One activity moves realized P&L less open cost by its fill cash. */
  lemma TradeConserves<L(!new)>(m: Method<L>, book: Book<L>, a: Activity)
    requires ConservesCost(m) && forall s :: s in book.lots ==> m.ok(book.lots[s])
    ensures var after := Trade(m, book, a);
            && (forall s :: s in after.lots ==> m.ok(after.lots[s]))
            && after.realized - OpenCost(m, after.lots) == book.realized - OpenCost(m, book.lots) + FillCashOf(a)
  {
    if Read(a).Fill? {
      var e := Read(a);
      var before := LotsOf(m, book.lots, e.symbol);
      assert m.ok(before);
      MethodConserves(m, before, e.direction, e.qty, e.price);
      OpenCostUpdate(m, book.lots, e.symbol, m.step(before, Bought(e.direction, e.qty), e.price).0);
    }
  }

  lemma MethodConserves<L(!new)>(m: Method<L>, lots: L, direction: real, qty: real, price: real)
    requires ConservesCost(m) && m.ok(lots) && direction != 0.0 && qty > 0.0 && price > 0.0
    ensures var r := m.step(lots, Bought(direction, qty), price);
            m.ok(r.0) && r.1 == Proceeds(direction, qty, price) + m.basis(r.0) - m.basis(lots)
  {
    assert -(-direction * qty) * price == direction * qty * price;
  }

  /** Realized P&L is fill cash plus open cost, whatever the method and the fills. */
  lemma {:induction false} RealizedIsCashPlusOpenCost<L(!new)>(m: Method<L>, activities: seq<Activity>)
    requires ConservesCost(m)
    ensures var book := TradeAll(m, activities);
            && (forall s :: s in book.lots ==> m.ok(book.lots[s]))
            && book.realized == Sum(activities, FillCashOf) + OpenCost(m, book.lots)
  {
    if activities != [] {
      var init, a := activities[..|activities| - 1], activities[|activities| - 1];
      RealizedIsCashPlusOpenCost(m, init);
      TradeConserves(m, TradeAll(m, init), a);
    }
  }

  /**
   A ready report's gross realized P&L is the method's realized P&L plus whatever the broker's remaining cost
   basis differs from the method's; the two agree exactly when those bases do.
   */
  lemma GrossRealizedIsLotFree<L(!new)>(m: Method<L>, activities: seq<Activity>, snapshot: AccountSnapshot,
                                 tolerance: real)
    requires ConservesCost(m) && Report(activities, snapshot, tolerance).Ready()
    ensures var book := TradeAll(m, activities);
            var gross := Report(activities, snapshot, tolerance).grossRealized.value;
            && gross - book.realized == TotalBasis(snapshot.positions) - OpenCost(m, book.lots)
            && (gross == book.realized <==> TotalBasis(snapshot.positions) == OpenCost(m, book.lots))
  {
    RealizedIsCashPlusOpenCost(m, activities);
    ReadyIffReconciles(activities, snapshot, tolerance);
    ReadyTotals(activities, snapshot, tolerance);
  }

  // Average cost.

  datatype Average = Average(qty: real, basis: real)

  /** Flat lots cost nothing; open ones cost on their own side (`ledger.py`'s signed-basis check). */
  predicate SignedBasis(l: Average) {
    (l.qty == 0.0 ==> l.basis == 0.0) && (l.qty != 0.0 ==> l.qty * l.basis > 0.0)
  }

  function AverageStep(l: Average, d: real, price: real): (Average, real) {
    if l.qty == 0.0 || (l.qty > 0.0) == (d > 0.0) then
      (Average(l.qty + d, l.basis + d * price), 0.0)
    else
      var cost := l.basis / l.qty;
      if (l.qty > 0.0) == (l.qty + d > 0.0) || l.qty + d == 0.0 then
        // Reduces: the closed quantity realizes against the average.
        (Average(l.qty + d, cost * (l.qty + d)), -d * (price - cost))
      else
        // Flips: everything held is closed and the rest opens at this price.
        (Average(l.qty + d, price * (l.qty + d)), l.qty * (price - cost))
  }

  const AVERAGE_COST: Method<Average> :=
    Method(Average(0.0, 0.0), AverageStep, (l: Average) => l.basis, SignedBasis)

  lemma SignOfProduct(x: real, y: real)
    ensures x > 0.0 && y > 0.0 ==> x * y > 0.0
    ensures x < 0.0 && y < 0.0 ==> x * y > 0.0
    ensures x > 0.0 && y < 0.0 ==> x * y < 0.0
    ensures x < 0.0 && y > 0.0 ==> x * y < 0.0
  {
    if x < 0.0 { assert x * y == -((-x) * y); }
  }

  lemma SignOfBasis(l: Average)
    requires SignedBasis(l) && l.qty != 0.0
    ensures l.basis / l.qty > 0.0 && l.basis / l.qty * l.qty == l.basis
  {
    var cost := l.basis / l.qty;
    assert cost * l.qty == l.basis;
    SignOfProduct(cost, l.qty);
    SignOfProduct(l.basis, l.qty);
  }

  lemma AverageKeepsSign(l: Average, d: real, price: real)
    requires SignedBasis(l) && d != 0.0 && price > 0.0
    ensures SignedBasis(AverageStep(l, d, price).0)
  {
    var q := l.qty + d;
    SignOfProduct(d, price);
    SignOfProduct(price, q);
    SignOfProduct(l.qty, l.basis);
    if l.qty == 0.0 || (l.qty > 0.0) == (d > 0.0) {
      SignOfProduct(q, l.basis + d * price);
    } else {
      SignOfBasis(l);
      var cost := l.basis / l.qty;
      SignOfProduct(cost, q);
      SignOfProduct(q, cost * q);
      SignOfProduct(q, price * q);
    }
  }

  lemma AverageStepConserves(l: Average, d: real, price: real)
    requires SignedBasis(l) && d != 0.0 && price > 0.0
    ensures var r := AverageStep(l, d, price);
            SignedBasis(r.0) && r.1 == -d * price + r.0.basis - l.basis
  {
    AverageKeepsSign(l, d, price);
    if l.qty == 0.0 || (l.qty > 0.0) == (d > 0.0) {
    } else {
      SignOfBasis(l);
      var cost := l.basis / l.qty;
      assert cost * (l.qty + d) == l.basis + cost * d;
      assert -d * (price - cost) == -d * price + cost * d;
      assert l.qty * (price - cost) == l.qty * price - l.basis;
      assert price * (l.qty + d) == price * l.qty + d * price;
    }
  }

  /** Adding averages the price in, reducing keeps the unit cost, and a flip leaves the rest at the new price. */
  lemma AverageStepIs(l: Average, d: real, price: real)
    requires SignedBasis(l) && d != 0.0
    ensures var r := AverageStep(l, d, price);
            && r.0.qty == l.qty + d
            && (if l.qty == 0.0 || (l.qty > 0.0 && d > 0.0) || (l.qty < 0.0 && d < 0.0)
                then r.0.basis == l.basis + d * price && r.1 == 0.0
                else if r.0.qty == 0.0 || (r.0.qty > 0.0 && l.qty > 0.0) || (r.0.qty < 0.0 && l.qty < 0.0)
                then r.0.basis * l.qty == l.basis * r.0.qty
                else r.0.basis == price * r.0.qty)
  {
    if l.qty != 0.0 {
      SignOfBasis(l);
      UnitCostKept(l.basis / l.qty, l.qty, l.basis, l.qty + d);
    }
  }

  lemma UnitCostKept(cost: real, qty: real, basis: real, left: real)
    requires cost * qty == basis
    ensures cost * left * qty == basis * left
  {
    assert cost * left * qty == cost * qty * left;
  }

  lemma AverageCostConserves()
    ensures ConservesCost(AVERAGE_COST)
  {
    forall l: Average, d: real, p: real | SignedBasis(l) && d != 0.0 && p > 0.0
      ensures var r := AverageStep(l, d, p); SignedBasis(r.0) && r.1 == -d * p + r.0.basis - l.basis
    {
      AverageStepConserves(l, d, p);
    }
  }

  /** The average-cost quantity of every symbol is the ledger's inventory. */
  lemma {:induction false} AverageQtyIsInventory(activities: seq<Activity>, symbol: string)
    ensures LotsOf(AVERAGE_COST, TradeAll(AVERAGE_COST, activities).lots, symbol).qty == Sum(activities, QtyOf(symbol))
  {
    if activities != [] {
      AverageQtyIsInventory(activities[..|activities| - 1], symbol);
    }
  }

  ghost predicate BasisIsAverageCost(activities: seq<Activity>, positions: map<string, Position>) {
    forall s :: s in positions ==>
      positions[s].costBasis == LotsOf(AVERAGE_COST, TradeAll(AVERAGE_COST, activities).lots, s).basis
  }

  /**
   When the broker's bases are its weighted averages, a ready report's gross realized P&L is exactly the sum of
   the per-fill average-cost realizations.
   */
  lemma GrossRealizedIsAverageCost(activities: seq<Activity>, snapshot: AccountSnapshot, tolerance: real)
    requires Report(activities, snapshot, tolerance).Ready()
    requires BasisIsAverageCost(activities, snapshot.positions)
    ensures Report(activities, snapshot, tolerance).grossRealized == Some(TradeAll(AVERAGE_COST, activities).realized)
  {
    var book := TradeAll(AVERAGE_COST, activities);
    AverageCostConserves();
    GrossRealizedIsLotFree(AVERAGE_COST, activities, snapshot, tolerance);
    RealizedIsCashPlusOpenCost(AVERAGE_COST, activities);
    ReadyIffReconciles(activities, snapshot, tolerance);
    var open := OpenCostOf(AVERAGE_COST, book.lots);
    var all := snapshot.positions.Keys + book.lots.Keys;
    forall s | s in all - snapshot.positions.Keys ensures open(s) == 0.0 {
      AverageQtyIsInventory(activities, s);
      assert Sum(activities, QtyOf(s)) == HeldShares(snapshot, s);
      assert SignedBasis(book.lots[s]);
    }
    SetSumAgrees(snapshot.positions.Keys, BasisOf(snapshot.positions), open);
    SetSumSupport(snapshot.positions.Keys, all, open);
    SetSumSupport(book.lots.Keys, all, open);
  }

  // FIFO.

  datatype Lot = Lot(qty: real, price: real)

  function CostOf(lots: seq<Lot>): real {
    if lots == [] then 0.0 else lots[0].qty * lots[0].price + CostOf(lots[1..])
  }

  function FifoStep(lots: seq<Lot>, d: real, price: real): (seq<Lot>, real)
    decreases |lots|
  {
    if d == 0.0 then (lots, 0.0)
    else if lots == [] || (lots[0].qty > 0.0) == (d > 0.0) then (lots + [Lot(d, price)], 0.0)
    else
      var head := lots[0];
      if (head.qty > 0.0) == (head.qty + d > 0.0) && head.qty + d != 0.0 then
        ([Lot(head.qty + d, head.price)] + lots[1..], -d * (price - head.price))
      else
        var (rest, realized) := FifoStep(lots[1..], head.qty + d, price);
        (rest, head.qty * (price - head.price) + realized)
  }

  const FIFO: Method<seq<Lot>> := Method([], FifoStep, CostOf, (lots: seq<Lot>) => true)

  lemma {:induction false} CostOfAppend(lots: seq<Lot>, l: Lot)
    ensures CostOf(lots + [l]) == CostOf(lots) + l.qty * l.price
  {
    if lots == [] {
      assert lots + [l] == [l];
    } else {
      CostOfAppend(lots[1..], l);
      assert (lots + [l])[1..] == lots[1..] + [l];
    }
  }

  ghost predicate Conserves(realized: real, d: real, price: real, before: real, after: real) {
    realized == -d * price + after - before
  }

  lemma Closes(q: real, d: real, cost: real, price: real, rest: real)
    ensures Conserves(-d * (price - cost), d, price, q * cost + rest, (q + d) * cost + rest)
  {
  }

  lemma Rolls(q: real, d: real, cost: real, price: real, realized: real, before: real, after: real)
    requires Conserves(realized, q + d, price, before, after)
    ensures Conserves(q * (price - cost) + realized, d, price, q * cost + before, after)
  {
  }

  predicate Reduces(head: Lot, d: real) {
    (head.qty > 0.0) == (head.qty + d > 0.0) && head.qty + d != 0.0
  }

  ghost predicate StepConserves(lots: seq<Lot>, d: real, price: real) {
    Conserves(FifoStep(lots, d, price).1, d, price, CostOf(lots), CostOf(FifoStep(lots, d, price).0))
  }

  lemma CloseStep(lots: seq<Lot>, d: real, price: real)
    requires lots != [] && d != 0.0 && (lots[0].qty > 0.0) != (d > 0.0) && Reduces(lots[0], d)
    ensures StepConserves(lots, d, price)
  {
    Closes(lots[0].qty, d, lots[0].price, price, CostOf(lots[1..]));
    assert ([Lot(lots[0].qty + d, lots[0].price)] + lots[1..])[1..] == lots[1..];
  }

  lemma RollStep(lots: seq<Lot>, d: real, price: real)
    requires lots != [] && d != 0.0 && (lots[0].qty > 0.0) != (d > 0.0) && !Reduces(lots[0], d)
    requires StepConserves(lots[1..], lots[0].qty + d, price)
    ensures StepConserves(lots, d, price)
  {
    var r := FifoStep(lots[1..], lots[0].qty + d, price);
    Rolls(lots[0].qty, d, lots[0].price, price, r.1, CostOf(lots[1..]), CostOf(r.0));
  }

  lemma AppendStep(lots: seq<Lot>, d: real, price: real)
    requires d != 0.0 && (lots == [] || (lots[0].qty > 0.0) == (d > 0.0))
    ensures StepConserves(lots, d, price)
  {
    CostOfAppend(lots, Lot(d, price));
  }

  lemma NothingStep(lots: seq<Lot>, price: real)
    ensures StepConserves(lots, 0.0, price)
  {
  }

  lemma {:induction false} FifoStepConserves(lots: seq<Lot>, d: real, price: real)
    ensures StepConserves(lots, d, price)
    decreases |lots|
  {
    if d == 0.0 {
      NothingStep(lots, price);
    } else if lots == [] || (lots[0].qty > 0.0) == (d > 0.0) {
      AppendStep(lots, d, price);
    } else if Reduces(lots[0], d) {
      CloseStep(lots, d, price);
    } else {
      FifoStepConserves(lots[1..], lots[0].qty + d, price);
      RollStep(lots, d, price);
    }
  }

  lemma FifoConserves()
    ensures ConservesCost(FIFO)
  {
    forall lots: seq<Lot>, d: real, p: real
      ensures var r := FifoStep(lots, d, p); r.1 == -d * p + CostOf(r.0) - CostOf(lots)
    {
      FifoStepConserves(lots, d, p);
      assert StepConserves(lots, d, p);
    }
  }

  /** All lots on one side. */
  ghost predicate OneSided(lots: seq<Lot>) {
    (forall i :: 0 <= i < |lots| ==> lots[i].qty > 0.0) || (forall i :: 0 <= i < |lots| ==> lots[i].qty < 0.0)
  }

  /** The lots from `k` on are left, the oldest of them perhaps in part at its own price. */
  ghost predicate LeavesFrom(lots: seq<Lot>, k: int, rest: seq<Lot>) {
    && 0 <= k < |lots| && |rest| == |lots| - k && rest[0].price == lots[k].price
    && (forall i :: 0 < i < |rest| ==> rest[i] == lots[k + i])
  }

  /**
   First in, first out: the newest lot comes last, the oldest are closed first, and an excess opens one at the price.
   */
  lemma {:induction false} FifoStepIs(lots: seq<Lot>, d: real, price: real)
    requires OneSided(lots) && d != 0.0
    ensures var rest := FifoStep(lots, d, price).0;
            if lots == [] || (lots[0].qty > 0.0) == (d > 0.0) then rest == lots + [Lot(d, price)]
            else rest == [] || (|rest| == 1 && rest[0].price == price) || exists k :: LeavesFrom(lots, k, rest)
    decreases |lots|
  {
    var rest := FifoStep(lots, d, price).0;
    if lots != [] && (lots[0].qty > 0.0) != (d > 0.0) {
      if Reduces(lots[0], d) {
        assert LeavesFrom(lots, 0, rest);
      } else if lots[0].qty + d == 0.0 {
        if |lots| > 1 {
          assert LeavesFrom(lots, 1, rest);
        }
      } else {
        FifoStepIs(lots[1..], lots[0].qty + d, price);
        if k :| LeavesFrom(lots[1..], k, rest) {
          assert LeavesFrom(lots, k + 1, rest);
        }
      }
    }
  }

  /** FIFO and average cost disagree on realized P&L by exactly what they disagree on what is still open. */
  lemma FifoVersusAverage(activities: seq<Activity>)
    ensures var fifo, average := TradeAll(FIFO, activities), TradeAll(AVERAGE_COST, activities);
            fifo.realized - average.realized == OpenCost(FIFO, fifo.lots) - OpenCost(AVERAGE_COST, average.lots)
  {
    FifoConserves();
    AverageCostConserves();
    RealizedIsCashPlusOpenCost(FIFO, activities);
    RealizedIsCashPlusOpenCost(AVERAGE_COST, activities);
  }
}
