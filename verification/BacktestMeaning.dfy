/**
 What the backtest's money, fills, exits, stops and admissions are, in prices, quantities, multipliers and fees: the
 statements here name none of the functions the simulation is made of.
 */
module BacktestMeaning {
  import opened Common
  import opened Rounding
  import opened Backtest
  import opened BacktestLaws

  /** Dollars per point and unit. */
  function PointValue(cfg: Setup, symbol: string, assetClass: AssetClass): real {
    if symbol in cfg.contracts then cfg.contracts[symbol].multiplier else if assetClass.Shares? then 1.0 else 5.0
  }

  /** What a move of `points` is worth to the trade. */
  function Worth(cfg: Setup, t: Trade, points: real): real {
    points * PointValue(cfg, t.symbol, t.assetClass) * t.quantity
  }

  // Cash and equity.

  /** The P&L of the closed longs: exit less entry, less commission. */
  function LongsBooked(cfg: Setup, closed: seq<Trade>): real {
    if closed == [] then 0.0
    else
      var t := closed[|closed| - 1];
      LongsBooked(cfg, closed[..|closed| - 1]) +
        if t.direction.Long? && t.exit.Exited? then Worth(cfg, t, t.exit.price - t.entryPrice) - t.commission else 0.0
  }

  /** The P&L of the closed shorts: entry less exit, less commission. */
  function ShortsBooked(cfg: Setup, closed: seq<Trade>): real {
    if closed == [] then 0.0
    else
      var t := closed[|closed| - 1];
      ShortsBooked(cfg, closed[..|closed| - 1]) +
        if t.direction.Short? && t.exit.Exited? then Worth(cfg, t, t.entryPrice - t.exit.price) - t.commission else 0.0
  }

  lemma NetBySide(cfg: Setup, t: Trade)
    requires t.exit.Exited?
    ensures t.direction.Long? ==> NetPnl(cfg, t) == Worth(cfg, t, t.exit.price - t.entryPrice) - t.commission
    ensures t.direction.Short? ==> NetPnl(cfg, t) == Worth(cfg, t, t.entryPrice - t.exit.price) - t.commission
  {
  }

  lemma {:induction false} BookedBySide(cfg: Setup, closed: seq<Trade>)
    requires AllReport(Netter(cfg), closed)
    ensures TotalNet(Netter(cfg), closed) == LongsBooked(cfg, closed) + ShortsBooked(cfg, closed)
  {
    if closed != [] {
      BookedBySide(cfg, closed[..|closed| - 1]);
      assert Reports(Netter(cfg), closed[|closed| - 1]);
      NetBySide(cfg, closed[|closed| - 1]);
    }
  }

  /**
   After every bar of every timeline, cash is the initial cash and the interest, plus exit less entry for every closed
   long and entry less exit for every closed short, at its point value and quantity and less its commission.
   */
  lemma CashIsPricesAndFees(cfg: Setup, initial: seq<Trade>, n: nat)
    requires AllOpen(initial)
    ensures var b := Simulate(cfg, initial, n);
            b.cash == cfg.initialCash + b.interest + (LongsBooked(cfg, b.closed) + ShortsBooked(cfg, b.closed))
  {
    CashAlwaysBalances(cfg, initial, n);
    BookedBySide(cfg, Simulate(cfg, initial, n).closed);
  }

  function Interest(cash: real, rate: real): real {
    cash * rate
  }

  /** Every bar adds the daily rate on the cash it finds to the interest. */
  lemma InterestAccrues(cfg: Setup, initial: seq<Trade>, n: nat)
    ensures var b, next := Simulate(cfg, initial, n), Simulate(cfg, initial, n + 1);
            next.interest == b.interest + Interest(b.cash, cfg.dailyRate)
  {
    AdvanceInterest(cfg, Simulate(cfg, initial, n), n);
    BarAdvances(cfg, initial, n);
  }

  lemma BarAdvances(cfg: Setup, initial: seq<Trade>, n: nat)
    ensures Simulate(cfg, initial, n + 1) == Advance(cfg, Simulate(cfg, initial, n), n)
  {
  }

  lemma AdvanceInterest(cfg: Setup, b: Book, at: int)
    ensures Advance(cfg, b, at).interest == b.interest + Interest(b.cash, cfg.dailyRate)
  {
    var accrued := Accrue(cfg, b);
    SettleKeepsInterest(accrued, accrued.open, Ager(cfg, at), Netter(cfg));
  }

  lemma {:induction false} SettleKeepsInterest(b: Book, trades: seq<Trade>, age: Trade -> Trade, net: Trade -> real)
    ensures SettleAll(b, trades, age, net).interest == b.interest
  {
    if trades != [] {
      SettleKeepsInterest(b, trades[..|trades| - 1], age, net);
    }
  }

  /** An open long, or an open short, marked at its symbol's close; a symbol without the bar counts for nothing. */
  function LongMark(cfg: Setup, t: Trade, at: int): real {
    if t.direction.Long? && t.symbol in cfg.bars && at in cfg.bars[t.symbol]
    then Worth(cfg, t, cfg.bars[t.symbol][at].close - t.entryPrice) else 0.0
  }

  function ShortMark(cfg: Setup, t: Trade, at: int): real {
    if t.direction.Short? && t.symbol in cfg.bars && at in cfg.bars[t.symbol]
    then Worth(cfg, t, t.entryPrice - cfg.bars[t.symbol][at].close) else 0.0
  }

  function LongsMarked(cfg: Setup, open: seq<Trade>, at: int): real {
    if open == [] then 0.0
    else LongsMarked(cfg, open[..|open| - 1], at) + LongMark(cfg, open[|open| - 1], at)
  }

  function ShortsMarked(cfg: Setup, open: seq<Trade>, at: int): real {
    if open == [] then 0.0
    else ShortsMarked(cfg, open[..|open| - 1], at) + ShortMark(cfg, open[|open| - 1], at)
  }

  lemma LastMark(cfg: Setup, open: seq<Trade>, at: int)
    requires open != []
    ensures var t := open[|open| - 1];
            Unrealized(cfg, open, at) ==
              Unrealized(cfg, open[..|open| - 1], at) + LongMark(cfg, t, at) + ShortMark(cfg, t, at)
  {
  }

  lemma {:induction false} UnrealizedBySide(cfg: Setup, open: seq<Trade>, at: int)
    ensures Unrealized(cfg, open, at) == LongsMarked(cfg, open, at) + ShortsMarked(cfg, open, at)
  {
    if open != [] {
      UnrealizedBySide(cfg, open[..|open| - 1], at);
      LastMark(cfg, open, at);
    }
  }

  function CentsOf(cash: real, longs: real, shorts: real): real {
    Round2(cash + longs + shorts)
  }

  /** The equity of a book at the closes of a bar, to the cent. */
  lemma EquityMarks(cfg: Setup, b: Book, at: int)
    ensures EquityAt(cfg, b, at) == CentsOf(b.cash, LongsMarked(cfg, b.open, at), ShortsMarked(cfg, b.open, at))
  {
    UnrealizedBySide(cfg, b.open, at);
  }

  /** The equity point of every bar: cash and the open longs and shorts at the closes, to the cent. */
  lemma EquityIsCashAndMarks(cfg: Setup, initial: seq<Trade>, n: nat)
    ensures var b, curve := Simulate(cfg, initial, n + 1), EquityCurve(cfg, initial, n + 1);
            && |curve| == n + 1 && curve[..n] == EquityCurve(cfg, initial, n)
            && curve[n] == CentsOf(b.cash, LongsMarked(cfg, b.open, n), ShortsMarked(cfg, b.open, n))
  {
    CurveLength(cfg, initial, n);
    LastPoint(cfg, initial, n);
    EquityMarks(cfg, Simulate(cfg, initial, n + 1), n);
  }

  lemma LastPoint(cfg: Setup, initial: seq<Trade>, n: nat)
    ensures EquityCurve(cfg, initial, n + 1) ==
              EquityCurve(cfg, initial, n) + [EquityAt(cfg, Simulate(cfg, initial, n + 1), n)]
  {
  }

  lemma {:induction false} CurveLength(cfg: Setup, initial: seq<Trade>, n: nat)
    ensures |EquityCurve(cfg, initial, n)| == n
  {
    if n > 0 {
      CurveLength(cfg, initial, n - 1);
    }
  }

  // Fills and fees.

  /** The points a fill slips, and what it costs. */
  function SlipPoints(f: Option<Friction>, assetClass: AssetClass, price: real): real {
    if f.None? then 0.0 else if assetClass.Shares? then price * f.value.equitySlippage else f.value.futuresSlippage
  }

  function Fee(f: Option<Friction>, assetClass: AssetClass, quantity: real): real {
    if f.None? then 0.0
    else if assetClass.Shares? then Round2(quantity * f.value.equityCommission)
    else Round2(quantity * f.value.futuresCommission)
  }

  /** `fill` is `price` moved by `slip` against a buyer or a seller, to the cent when there is friction. */
  predicate Slipped(f: Option<Friction>, buys: bool, price: real, slip: real, fill: real) {
    fill == if f.None? then price else Round2(if buys then price + slip else price - slip)
  }

  /** A closed trade's fill: a long sells and a short buys at the slipped trigger. */
  lemma ExitFillIs(f: Option<Friction>, t: Trade, price: real)
    ensures Slipped(f, t.direction.Short?, price, SlipPoints(f, t.assetClass, price), ExitFill(f, t, price))
  {
  }

  lemma CostsAre(f: Option<Friction>, assetClass: AssetClass, price: real, quantity: real)
    ensures Costs(f, assetClass, price, quantity) == (SlipPoints(f, assetClass, price), Fee(f, assetClass, quantity))
  {
  }

  /** What the slip costs in dollars, to the cent; nothing without friction. */
  function SlipCost(f: Option<Friction>, slip: real, pointValue: real, quantity: real): real {
    if f.None? then 0.0 else Round2(slip * pointValue * quantity)
  }

  /** The trade `c` closes `t` at the bar: filled at the slipped trigger, charged the exit fee, its P&L to the cent. */
  ghost predicate Closes(cfg: Setup, t: Trade, at: int, trigger: real, c: Trade) {
    && c.exit.Exited? && c.exit.bar == at && SameOrder(t, c) && c.stopLoss == t.stopLoss && c.duration == t.duration
    && Slipped(cfg.friction, t.direction.Short?, trigger, SlipPoints(cfg.friction, t.assetClass, trigger), c.exit.price)
    && c.commission == Round2(t.commission + Fee(cfg.friction, t.assetClass, t.quantity))
    && c.slippage == Round2(t.slippage + SlipCost(cfg.friction, SlipPoints(cfg.friction, t.assetClass, trigger),
                                                  PointValue(cfg, t.symbol, t.assetClass), t.quantity))
    && c.exit.pnl == Round2(Worth(cfg, c, if t.direction.Long? then c.exit.price - t.entryPrice
                                          else t.entryPrice - c.exit.price) - c.commission)
  }

  lemma ClosedTradeIs(cfg: Setup, t: Trade, at: int, price: real, reason: ExitReason)
    ensures var c := Close(cfg, t, at, price, reason); Closes(cfg, t, at, price, c) && c.exit.reason == reason
  {
    var c := Close(cfg, t, at, price, reason);
    NetBySide(cfg, c);
    ExitFillIs(cfg.friction, t, price);
    CostsAre(cfg.friction, t.assetClass, price, t.quantity);
    CloseKeeps(cfg, t, at, price, reason);
    CloseSlips(cfg, t, at, price, reason);
  }

  lemma CloseSlips(cfg: Setup, t: Trade, at: int, price: real, reason: ExitReason)
    ensures Close(cfg, t, at, price, reason).slippage ==
              Round2(t.slippage + SlipCost(cfg.friction, Costs(cfg.friction, t.assetClass, price, t.quantity).0,
                                           PointValue(cfg, t.symbol, t.assetClass), t.quantity))
  {
    SlipCostIs(cfg.friction, Costs(cfg.friction, t.assetClass, price, t.quantity).0,
               PointValue(cfg, t.symbol, t.assetClass), t.quantity);
  }

  lemma SlipCostIs(f: Option<Friction>, slip: real, pointValue: real, quantity: real)
    ensures SlipDollars(f, slip, pointValue, quantity) == SlipCost(f, slip, pointValue, quantity)
  {
  }

  lemma CloseKeeps(cfg: Setup, t: Trade, at: int, price: real, reason: ExitReason)
    ensures var c := Close(cfg, t, at, price, reason);
            && SameOrder(t, c) && c.stopLoss == t.stopLoss && c.duration == t.duration
            && c.exit.price == ExitFill(cfg.friction, t, price)
            && c.commission == Round2(t.commission + Costs(cfg.friction, t.assetClass, price, t.quantity).1)
  {
  }

  /** No slipped fill is better than its price, by more than half a cent in general and at all on a cent price. */
  lemma FillsAreNoBetter(f: Option<Friction>, buys: bool, price: real, slip: real, fill: real)
    requires Slipped(f, buys, price, slip, fill) && slip >= 0.0
    ensures if buys then fill >= price - 0.005 else fill <= price + 0.005
    ensures OnCents(price) ==> if buys then fill >= price else fill <= price
  {
    if OnCents(price) && f.Some? {
      if buys {
        Round2AtLeast(price + slip, price);
      } else {
        Round2AtMost(price - slip, price);
      }
    }
  }

  /** A price and friction that are not negative never slip a fill in the trader's favour. */
  lemma SlipsAgainst(f: Option<Friction>, assetClass: AssetClass, price: real)
    requires f.Some? ==> f.value.equitySlippage >= 0.0 && f.value.futuresSlippage >= 0.0
    requires price >= 0.0
    ensures SlipPoints(f, assetClass, price) >= 0.0
  {
  }

  // Admissions.

  /** The point value an entry's slippage is counted at: an unlisted symbol goes by its leading slash. */
  function EntryPointValue(cfg: Setup, symbol: string): real {
    if symbol in cfg.contracts then cfg.contracts[symbol].multiplier
    else if |symbol| > 0 && symbol[0] == '/' then 5.0 else 1.0
  }

  /** The trade a signal opens: a long buys and a short sells at the slipped price, and both pay the entry fee. */
  ghost predicate Opens(cfg: Setup, s: Signal, symbol: string, id: nat, at: int, t: Trade) {
    && Slipped(cfg.friction, s.direction.Long?, s.price, SlipPoints(cfg.friction, s.assetClass, s.price), t.entryPrice)
    && t.commission == Fee(cfg.friction, s.assetClass, s.quantity)
    && t.slippage == SlipCost(cfg.friction, SlipPoints(cfg.friction, s.assetClass, s.price),
                              EntryPointValue(cfg, symbol), s.quantity)
    && t.id == id && t.symbol == symbol && t.assetClass == s.assetClass && t.direction == s.direction
       && t.entryBar == at
    && t.quantity == s.quantity && t.stopLoss == s.stopLoss && t.initialStop == s.stopLoss
       && t.takeProfit == s.takeProfit
    && t.highWater == t.entryPrice && t.lowWater == t.entryPrice && t.duration == 0 && t.exit.StillOpen?
  }

  /** The symbol may open a trade: room, none open on it, a bar, a signal, and the notional fits. */
  ghost predicate Admissible(cfg: Setup, i: Intake, symbol: string, at: int) {
    && |i.open| < cfg.capacity && (forall k :: 0 <= k < |i.open| ==> i.open[k].symbol != symbol)
    && symbol in cfg.bars && at in cfg.bars[symbol] && cfg.signals(at, symbol).Some?
    && i.notional + cfg.signals(at, symbol).value.notional <= cfg.maxNotional
  }

  lemma EnterOpens(cfg: Setup, s: Signal, symbol: string, id: nat, at: int)
    ensures Opens(cfg, s, symbol, id, at, Enter(cfg, s, symbol, id, at))
  {
    CostsAre(cfg.friction, s.assetClass, s.price, s.quantity);
    EntrySlips(cfg, s, symbol, id, at);
  }

  lemma EntrySlips(cfg: Setup, s: Signal, symbol: string, id: nat, at: int)
    ensures Enter(cfg, s, symbol, id, at).slippage ==
              SlipCost(cfg.friction, Costs(cfg.friction, s.assetClass, s.price, s.quantity).0,
                       EntryPointValue(cfg, symbol), s.quantity)
  {
    assert "/" <= symbol <==> |symbol| > 0 && symbol[0] == '/';
    SlipCostIs(cfg.friction, Costs(cfg.friction, s.assetClass, s.price, s.quantity).0, EntryPointValue(cfg, symbol),
               s.quantity);
  }

  /** A symbol opens exactly one trade, its signal's, exactly when it is admissible. */
  lemma AdmittedIff(cfg: Setup, i: Intake, symbol: string, at: int)
    ensures var o := Offer(cfg, i, symbol, at);
            if Admissible(cfg, i, symbol, at) then
              && |o.open| == |i.open| + 1 && o.open[..|i.open|] == i.open && o.serial == i.serial + 1
              && Opens(cfg, cfg.signals(at, symbol).value, symbol, i.serial, at, o.open[|i.open|])
              && o.notional == i.notional + cfg.signals(at, symbol).value.notional
            else o == i
  {
    if Admissible(cfg, i, symbol, at) {
      EnterOpens(cfg, cfg.signals(at, symbol).value, symbol, i.serial, at);
    }
  }

  /** Admissions are tried from the warm-up on and below capacity alone, against the entry value of the open trades. */
  lemma AdmitsWhen(cfg: Setup, b: Book, at: int)
    ensures at < cfg.warmup || |b.open| >= cfg.capacity ==> Admit(cfg, b, at) == b
    ensures at >= cfg.warmup && |b.open| < cfg.capacity ==>
              Admit(cfg, b, at).open ==
                OfferAll(cfg, Intake(b.open, EntryValues(cfg, b.open), b.serial), cfg.symbols, at).open
  {
    EntryValuesAre(cfg, b.open);
  }

  function EntryValues(cfg: Setup, open: seq<Trade>): real {
    if open == [] then 0.0
    else EntryValues(cfg, open[..|open| - 1]) + Worth(cfg, open[|open| - 1], open[|open| - 1].entryPrice)
  }

  lemma {:induction false} EntryValuesAre(cfg: Setup, open: seq<Trade>)
    ensures OpenNotional(cfg, open) == EntryValues(cfg, open)
  {
    if open != [] {
      EntryValuesAre(cfg, open[..|open| - 1]);
      WorthAtEntry(cfg, open[|open| - 1]);
    }
  }

  lemma WorthAtEntry(cfg: Setup, t: Trade)
    ensures t.entryPrice * cfg.Multiplier(t.symbol, t.assetClass) * t.quantity == Worth(cfg, t, t.entryPrice)
  {
  }

  // Exits and stops of one bar.

  /** The bar takes the trade out: a long at or below its stop or at or above its target, a short the other way. */
  predicate HitsStop(t: Trade, bar: Bar) {
    if t.direction.Long? then bar.low <= t.stopLoss else bar.high >= t.stopLoss
  }

  predicate HitsTarget(t: Trade, bar: Bar) {
    if t.direction.Long? then bar.high >= t.takeProfit else bar.low <= t.takeProfit
  }

  /**
   An open trade through a bar: untouched but for the count without one; closed at its stop if the bar reaches that,
   else at its target if it reaches that; otherwise still open.
   */
  lemma AgedTradeIs(cfg: Setup, t: Trade, at: int)
    requires t.exit.StillOpen?
    ensures var u, next := Age(cfg, t, at), t.(duration := t.duration + 1);
            if t.symbol !in cfg.bars || at !in cfg.bars[t.symbol] then u == next
            else
              var bar := cfg.bars[t.symbol][at];
              if HitsStop(t, bar) then Closes(cfg, next, at, t.stopLoss, u) && u.exit.reason != TakeProfit
              else if HitsTarget(t, bar) then Closes(cfg, next, at, t.takeProfit, u) && u.exit.reason == TakeProfit
              else u == Ratchet(cfg, next, bar) && u.exit.StillOpen?
  {
    var next := t.(duration := t.duration + 1);
    if t.symbol in cfg.bars && at in cfg.bars[t.symbol] {
      BracketIs(next, cfg.bars[t.symbol][at]);
      var exit := BracketExit(next, cfg.bars[t.symbol][at]);
      if exit.Some? {
        ClosedTradeIs(cfg, next, at, exit.value.0, exit.value.1);
      }
    }
  }

  lemma BracketIs(t: Trade, bar: Bar)
    ensures var exit := BracketExit(t, bar);
            if HitsStop(t, bar) then exit.Some? && exit.value.0 == t.stopLoss && exit.value.1 != TakeProfit
            else if HitsTarget(t, bar) then exit == Some((t.takeProfit, TakeProfit))
            else exit.None?
  {
  }

  // Fills over every timeline.

  /** A closed trade's exit filled at its slipped target or stop. */
  ghost predicate FilledFairly(f: Option<Friction>, t: Trade) {
    t.exit.Exited? ==>
      var trigger := if t.exit.reason.TakeProfit? then t.takeProfit else t.stopLoss;
      Slipped(f, t.direction.Short?, trigger, SlipPoints(f, t.assetClass, trigger), t.exit.price)
  }

  ghost predicate AllFilledFairly(f: Option<Friction>, trades: seq<Trade>) {
    forall t :: t in trades ==> FilledFairly(f, t)
  }

  ghost predicate FillsFairly(f: Option<Friction>, age: Trade -> Trade) {
    forall t: Trade :: t.exit.StillOpen? ==> FilledFairly(f, age(t))
  }

  lemma BarsFillFairly(cfg: Setup, at: int)
    ensures FillsFairly(cfg.friction, Ager(cfg, at))
  {
    forall t: Trade | t.exit.StillOpen? ensures FilledFairly(cfg.friction, Age(cfg, t, at)) {
      AgedTradeIs(cfg, t, at);
    }
  }

  lemma {:induction false} SettleFillsFairly(f: Option<Friction>, b: Book, trades: seq<Trade>, age: Trade -> Trade,
                                             net: Trade -> real)
    requires FillsFairly(f, age) && AllOpen(trades) && AllFilledFairly(f, b.closed)
    ensures AllFilledFairly(f, SettleAll(b, trades, age, net).closed)
  {
    if trades != [] {
      var init, t := trades[..|trades| - 1], trades[|trades| - 1];
      SettleFillsFairly(f, b, init, age, net);
      assert t.exit.StillOpen? && FilledFairly(f, age(t));
    }
  }

  lemma AdvanceFillsFairly(cfg: Setup, b: Book, at: int)
    requires AllOpen(b.open) && AllFilledFairly(cfg.friction, b.closed)
    ensures AllFilledFairly(cfg.friction, Advance(cfg, b, at).closed)
  {
    BarsFillFairly(cfg, at);
    var accrued := Accrue(cfg, b);
    SettleFillsFairly(cfg.friction, accrued, accrued.open, Ager(cfg, at), Netter(cfg));
  }

  lemma SimulationFillsFairly(cfg: Setup, initial: seq<Trade>, n: nat)
    requires AllOpen(initial)
    ensures AllFilledFairly(cfg.friction, Simulate(cfg, initial, n).closed)
  {
    for i := 0 to n
      invariant AllFilledFairly(cfg.friction, Simulate(cfg, initial, i).closed)
    {
      CashAlwaysBalances(cfg, initial, i);
      AdvanceFillsFairly(cfg, Simulate(cfg, initial, i), i);
    }
  }

  /** `fill` is no better than `price` for the side: at all on a cent price, by more than half a cent otherwise. */
  predicate NoBetter(buys: bool, price: real, fill: real) {
    var slack := if OnCents(price) then 0.0 else 0.005;
    if buys then fill >= price - slack else fill <= price + slack
  }

  predicate Frictional(f: Option<Friction>) {
    f.Some? ==> f.value.equitySlippage >= 0.0 && f.value.futuresSlippage >= 0.0
  }

  /**
   Over every timeline, under slippage that is not negative, every closed long sold no better than its stop or target
   and every closed short bought no better than its own.
   */
  lemma ExitsAreNoBetter(cfg: Setup, initial: seq<Trade>, n: nat, t: Trade)
    requires AllOpen(initial) && Frictional(cfg.friction) && t in Simulate(cfg, initial, n).closed
    requires t.stopLoss >= 0.0 && t.takeProfit >= 0.0
    ensures t.exit.Exited?
    ensures NoBetter(t.direction.Short?, if t.exit.reason.TakeProfit? then t.takeProfit else t.stopLoss, t.exit.price)
  {
    CashAlwaysBalances(cfg, initial, n);
    assert Reports(Netter(cfg), t);
    SimulationFillsFairly(cfg, initial, n);
    var trigger := if t.exit.reason.TakeProfit? then t.takeProfit else t.stopLoss;
    SlipsAgainst(cfg.friction, t.assetClass, trigger);
    FillsAreNoBetter(cfg.friction, t.direction.Short?, trigger, SlipPoints(cfg.friction, t.assetClass, trigger),
                     t.exit.price);
  }

  /** Every admitted long buys no better than its signal's price, and every admitted short sells no better. */
  lemma EntriesAreNoBetter(cfg: Setup, i: Intake, symbol: string, at: int)
    requires Admissible(cfg, i, symbol, at) && Frictional(cfg.friction) && cfg.signals(at, symbol).value.price >= 0.0
    ensures var s, o := cfg.signals(at, symbol).value, Offer(cfg, i, symbol, at);
            |o.open| == |i.open| + 1 && NoBetter(s.direction.Long?, s.price, o.open[|i.open|].entryPrice)
  {
    AdmittedIff(cfg, i, symbol, at);
    var s, o := cfg.signals(at, symbol).value, Offer(cfg, i, symbol, at);
    SlipsAgainst(cfg.friction, s.assetClass, s.price);
    FillsAreNoBetter(cfg.friction, s.direction.Long?, s.price, SlipPoints(cfg.friction, s.assetClass, s.price),
                     o.open[|i.open|].entryPrice);
  }

  // The ratchet.

  /** The best price of the trade by the end of the bar. */
  function Best(t: Trade, bar: Bar): real {
    if t.direction.Long? then (if bar.high > t.highWater then bar.high else t.highWater)
    else (if bar.low < t.lowWater then bar.low else t.lowWater)
  }

  /** The distance from the entry to the first stop. */
  function FirstRisk(t: Trade): real {
    if t.entryPrice > t.initialStop then t.entryPrice - t.initialStop else t.initialStop - t.entryPrice
  }

  function Favourable(t: Trade, best: real): real {
    if t.direction.Long? then best - t.entryPrice else t.entryPrice - best
  }

  /**
   The price has gone the trade's way by the multiple of its first risk; without a risk every multiple reads as zero.
   */
  predicate Reached(favourable: real, risk: real, multiple: real) {
    if risk > 0.0 then favourable >= multiple * risk else multiple <= 0.0
  }

  /** The R multiple. */
  function Multiple(favourable: real, risk: real): real {
    if risk > 0.0 then favourable / risk else 0.0
  }

  lemma MultipleReaches(favourable: real, risk: real, multiple: real)
    ensures Multiple(favourable, risk) >= multiple <==> Reached(favourable, risk, multiple)
  {
    if risk > 0.0 {
      assert favourable == (favourable / risk) * risk;
    }
  }

  /** A rule that is due moves the stop to the cent at its price when that is better by more than `step`. */
  predicate Moves(direction: Direction, due: bool, from: real, price: real, step: real, to: real) {
    var better := if direction.Long? then price > from + step else price < from - step;
    to == if due && better then Round2(price) else from
  }

  lemma RaisedMoves(direction: Direction, from: real, price: real, step: real)
    ensures Moves(direction, true, from, price, step, Raised(direction, from, price, step))
  {
  }

  /** The points past the entry that breaking even covers. */
  function BreakevenPoints(ts: Trailing, pointValue: real): real {
    if pointValue > 0.0 then ts.breakevenBuffer / pointValue else 0.5
  }

  /** How far the trailing stop follows the best price: a multiple of the ATR, or of the risk without one. */
  function FollowDistance(ts: Trailing, risk: real, atr: real): real {
    if atr > 0.0 then ts.atrMultiple * atr else Max(risk, risk * ts.atrMultiple)
  }

  function TickSteps(tick: real, steps: int): real {
    tick * steps as real
  }

  function LeastStep(cfg: Setup, symbol: string): real
    requires cfg.trailing.Some?
  {
    TickSteps(if symbol in cfg.contracts then cfg.contracts[symbol].tickSize else 0.25, cfg.trailing.value.stepTicks)
  }

  function Past(direction: Direction, price: real, points: real): real {
    if direction.Long? then price + points else price - points
  }

  function Behind(direction: Direction, price: real, points: real): real {
    if direction.Long? then price - points else price + points
  }

  predicate BreaksEven(cfg: Setup, t: Trade, best: real, to: real)
    requires cfg.trailing.Some?
  {
    var ts := cfg.trailing.value;
    Moves(t.direction, ts.breakevenR.Some?
      && Reached(Favourable(t, best), FirstRisk(t), ts.breakevenR.value), t.stopLoss,
          Past(t.direction, t.entryPrice, BreakevenPoints(ts, PointValue(cfg, t.symbol, t.assetClass))), 0.0, to)
  }

  predicate Follows(cfg: Setup, t: Trade, best: real, atr: real, from: real, to: real)
    requires cfg.trailing.Some?
  {
    var ts := cfg.trailing.value;
    Moves(t.direction, Reached(Favourable(t, best), FirstRisk(t), ts.triggerR), from,
          Behind(t.direction, best, FollowDistance(ts, FirstRisk(t), atr)), LeastStep(cfg, t.symbol), to)
  }

  lemma BreakevenIs(cfg: Setup, t: Trade, best: real)
    requires cfg.trailing.Some?
    ensures BreaksEven(cfg, t, best, BreakevenStop(cfg, t, Multiple(Favourable(t, best), FirstRisk(t))))
  {
    if cfg.trailing.value.breakevenR.Some? {
      MultipleReaches(Favourable(t, best), FirstRisk(t), cfg.trailing.value.breakevenR.value);
    }
  }

  lemma StepIs(cfg: Setup, symbol: string)
    requires cfg.trailing.Some?
    ensures cfg.MinStep(symbol) == LeastStep(cfg, symbol)
  {
  }

  lemma TrailIs(cfg: Setup, t: Trade, atr: real, from: real)
    requires cfg.trailing.Some?
    ensures var best := if t.direction.Long? then t.highWater else t.lowWater;
            Follows(cfg, t, best, atr, from,
                    TrailedStop(cfg, t, from, atr, FirstRisk(t), Multiple(Favourable(t, best), FirstRisk(t))))
  {
    var best := if t.direction.Long? then t.highWater else t.lowWater;
    MultipleReaches(Favourable(t, best), FirstRisk(t), cfg.trailing.value.triggerR);
    StepIs(cfg, t.symbol);
    var distance := FollowDistance(cfg.trailing.value, FirstRisk(t), atr);
    TrailedBy(cfg, t, from, atr, FirstRisk(t), Multiple(Favourable(t, best), FirstRisk(t)));
    RaisedMoves(t.direction, from, Behind(t.direction, best, distance), LeastStep(cfg, t.symbol));
  }

  lemma TrailedBy(cfg: Setup, t: Trade, from: real, atr: real, risk: real, r: real)
    requires cfg.trailing.Some?
    ensures var best := if t.direction.Long? then t.highWater else t.lowWater;
            TrailedStop(cfg, t, from, atr, risk, r) ==
              if r >= cfg.trailing.value.triggerR then
                Raised(t.direction, from, Behind(t.direction, best, FollowDistance(cfg.trailing.value, risk, atr)),
                       cfg.MinStep(t.symbol))
              else from
  {
    DistanceIs(cfg.trailing.value, risk, atr);
  }

  lemma DistanceIs(ts: Trailing, risk: real, atr: real)
    ensures TrailDistance(ts, risk, atr) == FollowDistance(ts, risk, atr)
  {
  }

  /** The trade with the bar's best price on record. */
  function Watermarked(t: Trade, bar: Bar): Trade {
    if t.direction.Long? then t.(highWater := Best(t, bar)) else t.(lowWater := Best(t, bar))
  }

  lemma RatchetBy(cfg: Setup, t: Trade, bar: Bar, m: Trade, r: real)
    requires cfg.trailing.Some? && m == Watermarked(t, bar) && r == Multiple(Favourable(t, Best(t, bar)), FirstRisk(t))
    ensures Ratchet(cfg, t, bar) ==
              m.(stopLoss := TrailedStop(cfg, m, BreakevenStop(cfg, m, r), bar.atr, FirstRisk(t), r))
  {
    assert FirstRisk(t) == Abs(t.entryPrice - t.initialStop);
  }

  /**
   A trade that stays open keeps its terms and records the best price; its stop breaks even, then follows, each exactly
   when its rule is due and improves it enough.
   */
  lemma RatchetIs(cfg: Setup, t: Trade, bar: Bar)
    ensures var u := Ratchet(cfg, t, bar);
            if cfg.trailing.None? then u == t
            else
              && u == Watermarked(t, bar).(stopLoss := u.stopLoss)
              && exists even :: BreaksEven(cfg, t, Best(t, bar), even) &&
                                Follows(cfg, t, Best(t, bar), bar.atr, even, u.stopLoss)
  {
    if cfg.trailing.Some? {
      var m, best := Watermarked(t, bar), Best(t, bar);
      var r := Multiple(Favourable(t, best), FirstRisk(t));
      var even := BreakevenStop(cfg, m, r);
      BreakevenIs(cfg, m, best);
      TrailIs(cfg, m, bar.atr, even);
      RatchetBy(cfg, t, bar, m, r);
      assert BreaksEven(cfg, t, best, even);
    }
  }
}
