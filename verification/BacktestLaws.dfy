/**
 Laws of the backtest over every timeline, market and signal: money is conserved, trades are neither lost nor
 duplicated, capacity holds, and stops only move in the trade's favour.
 */
module BacktestLaws {
  import opened Common
  import opened Rounding
  import opened Backtest

  // Conservation of money.

  /** The unrounded P&L of the closed trades. */
  function TotalNet(net: Trade -> real, closed: seq<Trade>): real {
    if closed == [] then 0.0 else TotalNet(net, closed[..|closed| - 1]) + net(closed[|closed| - 1])
  }

  /** The reported P&L of the closed trades, each rounded to cents. */
  function TotalReported(closed: seq<Trade>): real {
    if closed == [] then 0.0
    else
      var t := closed[|closed| - 1];
      TotalReported(closed[..|closed| - 1]) + if t.exit.Exited? then t.exit.pnl else 0.0
  }

  /** A closed trade reports its P&L to the nearest cent. */
  ghost predicate Reports(net: Trade -> real, t: Trade) {
    t.exit.Exited? && Abs(t.exit.pnl - net(t)) <= 0.005
  }

  ghost predicate AllReport(net: Trade -> real, closed: seq<Trade>) {
    forall t :: t in closed ==> Reports(net, t)
  }

  /** Cash is the initial cash, the interest and the unrounded P&L of what has been closed. */
  ghost predicate CashBalances(initial: real, net: Trade -> real, b: Book) {
    AllReport(net, b.closed) && b.cash == initial + b.interest + TotalNet(net, b.closed)
  }

  ghost predicate AllOpen(open: seq<Trade>) {
    forall t :: t in open ==> t.exit.StillOpen?
  }

  /** Ageing an open trade leaves it open or closes it with its P&L reported. */
  ghost predicate Ages(age: Trade -> Trade, net: Trade -> real) {
    forall t: Trade :: t.exit.StillOpen? && age(t).exit.Exited? ==> Reports(net, age(t))
  }

  lemma BarsAge(cfg: Setup, at: int)
    ensures Ages(Ager(cfg, at), Netter(cfg))
  {
    forall t: Trade | t.exit.StillOpen? && Age(cfg, t, at).exit.Exited? ensures Reports(Netter(cfg), Age(cfg, t, at)) {
      AgedReports(cfg, t, at);
    }
  }

  lemma AgedReports(cfg: Setup, t: Trade, at: int)
    requires t.exit.StillOpen? && Age(cfg, t, at).exit.Exited?
    ensures Age(cfg, t, at).exit.pnl == Round2(NetPnl(cfg, Age(cfg, t, at)))
  {
  }

  lemma {:induction false} SettleBalances(initial: real, b: Book, trades: seq<Trade>, age: Trade -> Trade,
                                          net: Trade -> real)
    requires CashBalances(initial, net, b) && AllOpen(trades) && Ages(age, net)
    ensures var s := SettleAll(b, trades, age, net); CashBalances(initial, net, s) && AllOpen(s.open)
  {
    if trades != [] {
      var init, t := trades[..|trades| - 1], trades[|trades| - 1];
      SettleBalances(initial, b, init, age, net);
      var s := SettleAll(b, init, age, net);
      var after := Settle(s, t, age, net);
      if age(t).exit.Exited? {
        assert after.closed[..|after.closed| - 1] == s.closed;
      }
    }
  }

  lemma {:induction false} OfferAllOpen(cfg: Setup, i: Intake, symbols: seq<string>, at: int)
    requires AllOpen(i.open)
    ensures AllOpen(OfferAll(cfg, i, symbols, at).open)
  {
    if symbols != [] {
      OfferAllOpen(cfg, i, symbols[..|symbols| - 1], at);
    }
  }

  ghost predicate Balanced(cfg: Setup, b: Book) {
    CashBalances(cfg.initialCash, Netter(cfg), b) && AllOpen(b.open)
  }

  lemma AccrueBalances(cfg: Setup, b: Book)
    requires Balanced(cfg, b)
    ensures Balanced(cfg, Accrue(cfg, b))
  {
    var interest := b.cash * cfg.dailyRate;
    assert Accrue(cfg, b) == b.(interest := b.interest + interest, cash := b.cash + interest);
  }

  lemma AdmitBalances(cfg: Setup, b: Book, at: int)
    requires Balanced(cfg, b)
    ensures Balanced(cfg, Admit(cfg, b, at))
  {
    OfferAllOpen(cfg, Intake(b.open, OpenNotional(cfg, b.open), b.serial), cfg.symbols, at);
  }

  lemma AdvanceBalances(cfg: Setup, b: Book, at: int)
    requires Balanced(cfg, b)
    ensures Balanced(cfg, Advance(cfg, b, at))
  {
    AccrueBalances(cfg, b);
    var accrued := Accrue(cfg, b);
    BarsAge(cfg, at);
    SettleBalances(cfg.initialCash, accrued, accrued.open, Ager(cfg, at), Netter(cfg));
    AdmitBalances(cfg, SettleAll(accrued, accrued.open, Ager(cfg, at), Netter(cfg)), at);
  }

  /** After every bar of every backtest the cash balances. */
  lemma CashAlwaysBalances(cfg: Setup, initial: seq<Trade>, n: nat)
    requires AllOpen(initial)
    ensures var b := Simulate(cfg, initial, n); CashBalances(cfg.initialCash, Netter(cfg), b) && AllOpen(b.open)
  {
    StartBalances(cfg, Simulate(cfg, initial, 0));
    for i := 0 to n
      invariant Balanced(cfg, Simulate(cfg, initial, i))
    {
      BarBalances(cfg, initial, i);
    }
  }

  lemma StartBalances(cfg: Setup, b: Book)
    requires b.closed == [] && b.cash == cfg.initialCash && b.interest == 0.0 && AllOpen(b.open)
    ensures Balanced(cfg, b)
  {
  }

  lemma BarBalances(cfg: Setup, initial: seq<Trade>, n: nat)
    requires Balanced(cfg, Simulate(cfg, initial, n))
    ensures Balanced(cfg, Simulate(cfg, initial, n + 1))
  {
    AdvanceBalances(cfg, Simulate(cfg, initial, n), n);
  }

  lemma {:induction false} ReportedWithinHalfCents(net: Trade -> real, closed: seq<Trade>)
    requires AllReport(net, closed)
    ensures Abs(TotalNet(net, closed) - TotalReported(closed)) <= 0.005 * |closed| as real
  {
    if closed != [] {
      ReportedWithinHalfCents(net, closed[..|closed| - 1]);
      assert Reports(net, closed[|closed| - 1]);
    }
  }

  /**
   Ending equity (its last point, rounded once more) differs from initial cash plus interest plus reported trade P&L
   plus unrealized P&L by at most half a cent for each closed trade and half a cent for its own rounding.
   */
  lemma EndingEquityReconciles(cfg: Setup, initial: seq<Trade>, n: nat)
    requires AllOpen(initial) && n > 0
    ensures var b := Simulate(cfg, initial, n);
            EquityReconciles(cfg, b, Unrealized(cfg, b.open, n - 1), Round2(EquityAt(cfg, b, n - 1)))
  {
    CashAlwaysBalances(cfg, initial, n);
    BalancedReconciles(cfg, Simulate(cfg, initial, n), n - 1);
  }

  ghost predicate EquityReconciles(cfg: Setup, b: Book, unrealized: real, ending: real) {
    Abs(ending - (cfg.initialCash + b.interest + TotalReported(b.closed) + unrealized)) <= 0.005 * |b.closed| as real +
      0.005
  }

  lemma BalancedReconciles(cfg: Setup, b: Book, at: int)
    requires CashBalances(cfg.initialCash, Netter(cfg), b)
    ensures EquityReconciles(cfg, b, Unrealized(cfg, b.open, at), Round2(EquityAt(cfg, b, at)))
  {
    CashReconciles(cfg.initialCash, Netter(cfg), b, Unrealized(cfg, b.open, at));
  }

  lemma CashReconciles(initialCash: real, net: Trade -> real, b: Book, unrealized: real)
    requires CashBalances(initialCash, net, b)
    ensures Abs(Round2(Round2(b.cash + unrealized)) - (initialCash + b.interest + TotalReported(b.closed) + unrealized))
            <= 0.005 * |b.closed| as real + 0.005
  {
    ReportedWithinHalfCents(net, b.closed);
    RoundedTwice(b.cash + unrealized);
    Reconciled(initialCash + b.interest, TotalNet(net, b.closed), TotalReported(b.closed), unrealized,
               Round2(Round2(b.cash + unrealized)), 0.005 * |b.closed| as real);
  }

  lemma Reconciled(base: real, net: real, reported: real, unrealized: real, ending: real, bound: real)
    requires Abs(net - reported) <= bound && Abs(ending - (base + net + unrealized)) <= 0.005
    ensures Abs(ending - (base + reported + unrealized)) <= bound + 0.005
  {
  }

  lemma RoundedTwice(x: real)
    ensures Abs(Round2(Round2(x)) - x) <= 0.005
  {
    Round2OnCents(Round2(x));
  }

  // Conservation of trades.

  function Ids(trades: seq<Trade>): multiset<nat> {
    if trades == [] then multiset{} else Ids(trades[..|trades| - 1]) + multiset{trades[|trades| - 1].id}
  }

  function Symbols(trades: seq<Trade>): multiset<string> {
    if trades == [] then multiset{} else Symbols(trades[..|trades| - 1]) + multiset{trades[|trades| - 1].symbol}
  }

  /** The ids 0..n-1, each once. */
  function Serial(n: nat): multiset<nat> {
    if n == 0 then multiset{} else Serial(n - 1) + multiset{n - 1}
  }

  lemma AppendCounts(trades: seq<Trade>, t: Trade)
    ensures Ids(trades + [t]) == Ids(trades) + multiset{t.id}
    ensures Symbols(trades + [t]) == Symbols(trades) + multiset{t.symbol}
  {
    assert (trades + [t])[..|trades|] == trades;
  }

  /** The static terms of a trade, fixed when it opens. */
  ghost predicate SameOrder(t: Trade, u: Trade) {
    && u.id == t.id && u.symbol == t.symbol && u.assetClass == t.assetClass && u.direction == t.direction
    && u.entryBar == t.entryBar && u.entryPrice == t.entryPrice && u.quantity == t.quantity
    && u.takeProfit == t.takeProfit && u.initialStop == t.initialStop
  }

  /** Ageing keeps every trade's terms and counts one bar. */
  ghost predicate KeepsOrders(age: Trade -> Trade) {
    forall t: Trade :: SameOrder(t, age(t)) && age(t).duration == t.duration + 1
  }

  lemma BarsKeepOrders(cfg: Setup, at: int)
    ensures KeepsOrders(Ager(cfg, at))
  {
    forall t: Trade ensures SameOrder(t, Age(cfg, t, at)) && Age(cfg, t, at).duration == t.duration + 1 {
      AgeKeepsOrder(cfg, t, at);
    }
  }

  lemma AgeKeepsOrder(cfg: Setup, t: Trade, at: int)
    ensures SameOrder(t, Age(cfg, t, at)) && Age(cfg, t, at).duration == t.duration + 1
  {
  }

  /** Settling moves trades between the lists and changes nothing else about the population. */
  lemma {:induction false} SettleConserves(b: Book, trades: seq<Trade>, age: Trade -> Trade, net: Trade -> real)
    requires KeepsOrders(age)
    ensures var s := SettleAll(b, trades, age, net);
            && Ids(s.open) + Ids(s.closed) == Ids(trades) + Ids(b.closed)
            && Symbols(s.open) <= Symbols(trades)
            && |s.open| + |s.closed| == |trades| + |b.closed| && |s.open| <= |trades|
            && s.serial == b.serial
  {
    if trades != [] {
      var init, t := trades[..|trades| - 1], trades[|trades| - 1];
      SettleConserves(b, init, age, net);
      assert SameOrder(t, age(t));
      SettleMovesOne(SettleAll(b, init, age, net), t, age, net);
    }
  }

  lemma SettleMovesOne(b: Book, t: Trade, age: Trade -> Trade, net: Trade -> real)
    requires SameOrder(t, age(t))
    ensures var s := Settle(b, t, age, net);
            && Ids(s.open) + Ids(s.closed) == Ids(b.open) + Ids(b.closed) + multiset{t.id}
            && Symbols(s.open) <= Symbols(b.open) + multiset{t.symbol}
            && |s.open| + |s.closed| == |b.open| + |b.closed| + 1 && |s.open| <= |b.open| + 1 && s.serial == b.serial
  {
    if age(t).exit.Exited? {
      AppendCounts(b.closed, age(t));
    } else {
      AppendCounts(b.open, age(t));
    }
  }

  /** No symbol twice among the open trades. */
  ghost predicate OnePerSymbol(open: seq<Trade>) {
    forall s :: Symbols(open)[s] <= 1
  }

  lemma {:induction false} SymbolHeld(open: seq<Trade>, symbol: string)
    ensures symbol in Symbols(open) ==> exists k :: 0 <= k < |open| && open[k].symbol == symbol
  {
    if open != [] {
      var init := open[..|open| - 1];
      SymbolHeld(init, symbol);
      if k :| 0 <= k < |init| && init[k].symbol == symbol {
        assert open[k].symbol == symbol;
      }
    }
  }

  /** An offer leaves the intake alone, or opens one trade under the next id on a symbol not held. */
  lemma OfferLaws(cfg: Setup, i: Intake, symbol: string, at: int)
    ensures var o := Offer(cfg, i, symbol, at);
            || o == i
            || (&& Ids(o.open) == Ids(i.open) + multiset{i.serial} && o.serial == i.serial + 1
                && |o.open| == |i.open| + 1 <= cfg.capacity && (OnePerSymbol(i.open) ==> OnePerSymbol(o.open)))
  {
    var o := Offer(cfg, i, symbol, at);
    if o != i {
      AppendCounts(i.open, o.open[|i.open|]);
      SymbolHeld(i.open, symbol);
      NewSymbol(i.open, o.open, symbol);
    }
  }

  lemma NewSymbol(before: seq<Trade>, after: seq<Trade>, symbol: string)
    requires Symbols(after) == Symbols(before) + multiset{symbol} && symbol !in Symbols(before)
    ensures OnePerSymbol(before) ==> OnePerSymbol(after)
  {
    if OnePerSymbol(before) {
      forall s ensures Symbols(after)[s] <= 1 {
        assert Symbols(before)[s] <= 1;
      }
    }
  }

  ghost predicate Population(b: Book) {
    Ids(b.open) + Ids(b.closed) == Serial(b.serial) && |b.open| + |b.closed| == b.serial
  }

  /** The intake and the closed trades hold every id once, no symbol twice, within capacity. */
  ghost predicate Placed(cfg: Setup, i: Intake, closed: seq<Trade>) {
    && Ids(i.open) + Ids(closed) == Serial(i.serial) && |i.open| + |closed| == i.serial
    && OnePerSymbol(i.open) && |i.open| <= cfg.capacity
  }

  lemma OfferKeepsPlaced(cfg: Setup, i: Intake, closed: seq<Trade>, symbol: string, at: int)
    requires Placed(cfg, i, closed)
    ensures Placed(cfg, Offer(cfg, i, symbol, at), closed)
  {
    OfferLaws(cfg, i, symbol, at);
    if Offer(cfg, i, symbol, at) != i {
      PlacedNext(cfg, i, Offer(cfg, i, symbol, at), closed);
    }
  }

  lemma PlacedNext(cfg: Setup, i: Intake, o: Intake, closed: seq<Trade>)
    requires Placed(cfg, i, closed) && OnePerSymbol(o.open)
    requires Ids(o.open) == Ids(i.open) + multiset{i.serial} && o.serial == i.serial + 1
    requires |o.open| == |i.open| + 1 <= cfg.capacity
    ensures Placed(cfg, o, closed)
  {
    SerialExtends(Ids(i.open), Ids(closed), i.serial);
  }

  lemma SerialExtends(open: multiset<nat>, closed: multiset<nat>, n: nat)
    requires open + closed == Serial(n)
    ensures open + multiset{n} + closed == Serial(n + 1)
  {
  }

  lemma {:induction false} OfferAllLaws(cfg: Setup, i: Intake, closed: seq<Trade>, symbols: seq<string>, at: int)
    requires Placed(cfg, i, closed)
    ensures Placed(cfg, OfferAll(cfg, i, symbols, at), closed)
  {
    if symbols != [] {
      OfferAllLaws(cfg, i, closed, symbols[..|symbols| - 1], at);
      OfferKeepsPlaced(cfg, OfferAll(cfg, i, symbols[..|symbols| - 1], at), closed, symbols[|symbols| - 1], at);
    }
  }

  /** Every id below `serial` is on exactly one list, once. */
  lemma {:induction false} SerialOnce(n: nat, id: nat)
    ensures Serial(n)[id] == if id < n then 1 else 0
  {
    if n > 0 {
      SerialOnce(n - 1, id);
    }
  }

  ghost predicate Orderly(cfg: Setup, b: Book, initial: nat) {
    Population(b) && OnePerSymbol(b.open) && (|b.open| <= cfg.capacity || |b.open| <= initial)
  }

  lemma FewerSymbols(open: seq<Trade>, kept: seq<Trade>)
    requires OnePerSymbol(open) && Symbols(kept) <= Symbols(open)
    ensures OnePerSymbol(kept)
  {
    forall s ensures Symbols(kept)[s] <= 1 {
      assert Symbols(open)[s] <= 1;
    }
  }

  lemma AdmitOrderly(cfg: Setup, b: Book, at: int, initial: nat)
    requires Orderly(cfg, b, initial)
    ensures Orderly(cfg, Admit(cfg, b, at), initial)
  {
    if |b.open| < cfg.capacity {
      OfferAllLaws(cfg, Intake(b.open, OpenNotional(cfg, b.open), b.serial), b.closed, cfg.symbols, at);
    }
  }

  lemma AdvanceOrderly(cfg: Setup, b: Book, at: int, initial: nat)
    requires Orderly(cfg, b, initial)
    ensures Orderly(cfg, Advance(cfg, b, at), initial)
  {
    var accrued := Accrue(cfg, b);
    BarsKeepOrders(cfg, at);
    SettleConserves(accrued, accrued.open, Ager(cfg, at), Netter(cfg));
    var s := SettleAll(accrued, accrued.open, Ager(cfg, at), Netter(cfg));
    FewerSymbols(b.open, s.open);
    AdmitOrderly(cfg, s, at, initial);
  }

  /**
   Over every timeline: each trade ever opened is on exactly one of the open and closed lists, no symbol has two
   open trades, and the open trades fit the capacity (or the initial book, when that was larger).
   */
  lemma {:induction false} TradesAreConserved(cfg: Setup, initial: seq<Trade>, n: nat)
    requires Ids(initial) == Serial(|initial|) && OnePerSymbol(initial)
    ensures var b := Simulate(cfg, initial, n);
            && (forall id: nat :: Ids(b.open)[id] + Ids(b.closed)[id] == if id < b.serial then 1 else 0)
            && OnePerSymbol(b.open) && (|b.open| <= cfg.capacity || |b.open| <= |initial|)
            && |b.open| + |b.closed| == b.serial
  {
    SimulationOrderly(cfg, initial, n);
    var b := Simulate(cfg, initial, n);
    forall id: nat ensures Ids(b.open)[id] + Ids(b.closed)[id] == if id < b.serial then 1 else 0 {
      SerialOnce(b.serial, id);
      assert Serial(b.serial)[id] == (Ids(b.open) + Ids(b.closed))[id];
    }
  }

  lemma StartOrderly(cfg: Setup, b: Book)
    requires b.closed == [] && Ids(b.open) == Serial(|b.open|) && OnePerSymbol(b.open) && b.serial == |b.open|
    ensures Orderly(cfg, b, |b.open|)
  {
    assert Ids(b.closed) == multiset{};
  }

  lemma BarOrderly(cfg: Setup, initial: seq<Trade>, n: nat)
    requires Orderly(cfg, Simulate(cfg, initial, n), |initial|)
    ensures Orderly(cfg, Simulate(cfg, initial, n + 1), |initial|)
  {
    AdvanceOrderly(cfg, Simulate(cfg, initial, n), n, |initial|);
  }

  lemma SimulationOrderly(cfg: Setup, initial: seq<Trade>, n: nat)
    requires Ids(initial) == Serial(|initial|) && OnePerSymbol(initial)
    ensures Orderly(cfg, Simulate(cfg, initial, n), |initial|)
  {
    StartOrderly(cfg, Simulate(cfg, initial, 0));
    for i := 0 to n
      invariant Orderly(cfg, Simulate(cfg, initial, i), |initial|)
    {
      BarOrderly(cfg, initial, i);
    }
  }

  // The percentage P&L of an exit divides by the trade's notional at entry.

  function EntryValue(cfg: Setup, symbol: string, assetClass: AssetClass, entryPrice: real, quantity: real): real {
    entryPrice * cfg.Multiplier(symbol, assetClass) * quantity
  }

  predicate Divisible(cfg: Setup, t: Trade) {
    EntryValue(cfg, t.symbol, t.assetClass, t.entryPrice, t.quantity) != 0.0
  }

  ghost predicate AllDivisible(cfg: Setup, trades: seq<Trade>) {
    forall t :: t in trades ==> Divisible(cfg, t)
  }

  /** No signal opens a trade worth nothing: none of zero quantity, as a blocked sizing has, price or multiplier. */
  ghost predicate DivisibleSignals(cfg: Setup) {
    forall at, symbol, id :: cfg.signals(at, symbol).Some? ==>
      Divisible(cfg, Enter(cfg, cfg.signals(at, symbol).value, symbol, id, at))
  }

  lemma {:induction false} SettleDivisible(cfg: Setup, b: Book, trades: seq<Trade>, age: Trade -> Trade,
                                           net: Trade -> real)
    requires KeepsOrders(age) && AllDivisible(cfg, trades) && AllDivisible(cfg, b.closed)
    ensures var s := SettleAll(b, trades, age, net); AllDivisible(cfg, s.open) && AllDivisible(cfg, s.closed)
  {
    if trades != [] {
      var init, t := trades[..|trades| - 1], trades[|trades| - 1];
      SettleDivisible(cfg, b, init, age, net);
      assert SameOrder(t, age(t)) && Divisible(cfg, t);
    }
  }

  lemma {:induction false} OfferDivisible(cfg: Setup, i: Intake, symbols: seq<string>, at: int)
    requires DivisibleSignals(cfg) && AllDivisible(cfg, i.open)
    ensures AllDivisible(cfg, OfferAll(cfg, i, symbols, at).open)
  {
    if symbols != [] {
      OfferDivisible(cfg, i, symbols[..|symbols| - 1], at);
    }
  }

  lemma AdvanceDivisible(cfg: Setup, b: Book, at: int)
    requires DivisibleSignals(cfg) && AllDivisible(cfg, b.open) && AllDivisible(cfg, b.closed)
    ensures var a := Advance(cfg, b, at); AllDivisible(cfg, a.open) && AllDivisible(cfg, a.closed)
  {
    var accrued := Accrue(cfg, b);
    BarsKeepOrders(cfg, at);
    SettleDivisible(cfg, accrued, accrued.open, Ager(cfg, at), Netter(cfg));
    var s := SettleAll(accrued, accrued.open, Ager(cfg, at), Netter(cfg));
    OfferDivisible(cfg, Intake(s.open, OpenNotional(cfg, s.open), s.serial), cfg.symbols, at);
  }

  /** Where no opened or initial trade is worth nothing, no exit of any timeline divides by zero. */
  lemma ExitsNeverDivideByZero(cfg: Setup, initial: seq<Trade>, n: nat)
    requires DivisibleSignals(cfg) && AllDivisible(cfg, initial)
    ensures var b := Simulate(cfg, initial, n); AllDivisible(cfg, b.open) && AllDivisible(cfg, b.closed)
  {
    for i := 0 to n
      invariant AllDivisible(cfg, Simulate(cfg, initial, i).open) && AllDivisible(cfg, Simulate(cfg, initial, i).closed)
    {
      AdvanceDivisible(cfg, Simulate(cfg, initial, i), i);
    }
  }
}
