/**
 The bar-by-bar backtest (`backtest/engine.py`): interest, bracket exits, stop ratchets, admissions and the
 equity curve. A trade is a value in the open or the closed list; `id` is its object identity.
 */
module Backtest {
  import opened Common
  import opened Rounding

  datatype ExitReason = StopLoss | TrailingStop | TakeProfit

  datatype Exit = StillOpen | Exited(bar: int, price: real, reason: ExitReason, pnl: real)

  datatype Trade = Trade(
    id: nat,
    symbol: string,
    assetClass: AssetClass,
    direction: Direction,
    entryBar: int,
    entryPrice: real,
    quantity: real,
    stopLoss: real,
    takeProfit: real,
    initialStop: real,
    highWater: real,
    lowWater: real,
    commission: real,
    slippage: real,
    duration: int,
    exit: Exit)

  datatype Bar = Bar(high: real, low: real, close: real, atr: real)

  /** A strategy candidate with its deterministic levels; it depends on market data alone. */
  datatype Signal = Signal(
    assetClass: AssetClass,
    direction: Direction,
    price: real,
    stopLoss: real,
    takeProfit: real,
    notional: real,
    quantity: real)

  datatype Contract = Contract(multiplier: real, tickSize: real)

  datatype Friction = Friction(
    equitySlippage: real,
    equityCommission: real,
    futuresSlippage: real,
    futuresCommission: real)

  datatype Trailing = Trailing(
    triggerR: real,
    atrMultiple: real,
    breakevenR: Option<real>,
    breakevenBuffer: real,
    stepTicks: int)

  datatype Setup = Setup(
    initialCash: real,
    dailyRate: real,
    capacity: int,
    maxNotional: real,
    warmup: int,
    symbols: seq<string>,
    contracts: map<string, Contract>,
    friction: Option<Friction>,
    trailing: Option<Trailing>,
    bars: map<string, map<int, Bar>>,
    signals: (int, string) -> Option<Signal>)
  {
    function Multiplier(symbol: string, assetClass: AssetClass): real {
      if symbol in contracts then contracts[symbol].multiplier else if assetClass.Shares? then 1.0 else 5.0
    }

    function BarAt(symbol: string, at: int): Option<Bar> {
      if symbol in bars && at in bars[symbol] then Some(bars[symbol][at]) else None
    }

    /** The smallest trailing move, in price. */
    function MinStep(symbol: string): real
      requires trailing.Some?
    {
      (if symbol in contracts then contracts[symbol].tickSize else 0.25) * trailing.value.stepTicks as real
    }
  }

  /** Where a bar takes an open trade out, before friction: the stop first, then the target. */
  function BracketExit(t: Trade, bar: Bar): Option<(real, ExitReason)> {
    if t.direction.Long? then
      if bar.low <= t.stopLoss then
        Some((t.stopLoss, if t.initialStop > 0.0 && t.stopLoss > t.initialStop then TrailingStop else StopLoss))
      else if bar.high >= t.takeProfit then Some((t.takeProfit, TakeProfit))
      else None
    else
      if bar.high >= t.stopLoss then
        Some((t.stopLoss, if t.initialStop > 0.0 && t.stopLoss < t.initialStop then TrailingStop else StopLoss))
      else if bar.low <= t.takeProfit then Some((t.takeProfit, TakeProfit))
      else None
  }

  /** Slippage in points and commission in dollars for a fill at `price`. */
  function Costs(f: Option<Friction>, assetClass: AssetClass, price: real, quantity: real): (real, real) {
    if f.None? then (0.0, 0.0)
    else if assetClass.Shares? then (price * f.value.equitySlippage, Round2(f.value.equityCommission * quantity))
    else (f.value.futuresSlippage, Round2(f.value.futuresCommission * quantity))
  }

  /** The dollars a slip of `points` costs. */
  function SlipDollars(f: Option<Friction>, points: real, multiplier: real, quantity: real): real {
    if f.None? then 0.0 else Round2(points * multiplier * quantity)
  }

  function Gain(direction: Direction, entry: real, exit: real): real {
    if direction.Long? then exit - entry else entry - exit
  }

  function Proceeds(direction: Direction, entry: real, exit: real, multiplier: real, quantity: real,
                    commission: real): real {
    Gain(direction, entry, exit) * multiplier * quantity - commission
  }

  /** The unrounded P&L of a closed trade, from its own record; nothing while it is open. */
  function NetPnl(cfg: Setup, t: Trade): real {
    if t.exit.StillOpen? then 0.0
    else Proceeds(t.direction, t.entryPrice, t.exit.price, cfg.Multiplier(t.symbol, t.assetClass), t.quantity,
                  t.commission)
  }

  /** The fill price of an exit triggered at `price`. */
  function ExitFill(f: Option<Friction>, t: Trade, price: real): real {
    var slip := Costs(f, t.assetClass, price, t.quantity).0;
    if f.None? then price else if t.direction.Long? then Round2(price - slip) else Round2(price + slip)
  }

  function Close(cfg: Setup, t: Trade, at: int, price: real, reason: ExitReason): (c: Trade)
    ensures c.exit.Exited? && c.exit.bar == at && c.exit.reason == reason
    ensures c.exit.pnl == Round2(NetPnl(cfg, c))
  {
    var multiplier := cfg.Multiplier(t.symbol, t.assetClass);
    var (slip, fee) := Costs(cfg.friction, t.assetClass, price, t.quantity);
    var actual := ExitFill(cfg.friction, t, price);
    var slipped := SlipDollars(cfg.friction, slip, multiplier, t.quantity);
    var commission := Round2(t.commission + fee);
    var net := Proceeds(t.direction, t.entryPrice, actual, multiplier, t.quantity, commission);
    t.(commission := commission, slippage := Round2(t.slippage + slipped),
       exit := Exited(at, actual, reason, Round2(net)))
  }

  /** A proposed stop replaces the current one only when it is more protective by more than `step`. */
  function Raised(direction: Direction, stop: real, proposed: real, step: real): real {
    if direction.Long? then
      if proposed > stop + step then Round2(proposed) else stop
    else
      if proposed < stop - step then Round2(proposed) else stop
  }

  /** The stop after the break-even rule. */
  function BreakevenStop(cfg: Setup, t: Trade, rMultiple: real): real
    requires cfg.trailing.Some?
  {
    var ts, multiplier := cfg.trailing.value, cfg.Multiplier(t.symbol, t.assetClass);
    var buffer := if multiplier > 0.0 then ts.breakevenBuffer / multiplier else 0.5;
    if ts.breakevenR.Some? && rMultiple >= ts.breakevenR.value then
      Raised(t.direction, t.stopLoss, if t.direction.Long? then t.entryPrice + buffer else t.entryPrice - buffer, 0.0)
    else t.stopLoss
  }

  function TrailDistance(ts: Trailing, risk: real, atr: real): real {
    if atr > 0.0 then ts.atrMultiple * atr else Max(risk, risk * ts.atrMultiple)
  }

  /** The stop after the trailing rule, from the break-even one. */
  function TrailedStop(cfg: Setup, t: Trade, stop: real, atr: real, risk: real, rMultiple: real): real
    requires cfg.trailing.Some?
  {
    var ts := cfg.trailing.value;
    if rMultiple >= ts.triggerR then
      var distance := TrailDistance(ts, risk, atr);
      var proposed := if t.direction.Long? then t.highWater - distance else t.lowWater + distance;
      Raised(t.direction, stop, proposed, cfg.MinStep(t.symbol))
    else stop
  }

  /** The water mark and the stop of a trade that stayed open through `bar`. */
  function Ratchet(cfg: Setup, t: Trade, bar: Bar): Trade {
    if cfg.trailing.None? then t
    else
      var m := if t.direction.Long? then t.(highWater := Max(t.highWater, bar.high))
        else t.(lowWater := Min(t.lowWater, bar.low));
      var favourable := if t.direction.Long? then m.highWater - t.entryPrice else t.entryPrice - m.lowWater;
      var risk := Abs(t.entryPrice - t.initialStop);
      var r := if risk > 0.0 then favourable / risk else 0.0;
      m.(stopLoss := TrailedStop(cfg, m, BreakevenStop(cfg, m, r), bar.atr, risk, r))
  }

  /** One open trade through the bar `at`: it is carried, ratcheted or closed. */
  function Age(cfg: Setup, t: Trade, at: int): Trade {
    var t := t.(duration := t.duration + 1);
    var bar := cfg.BarAt(t.symbol, at);
    if bar.None? then t
    else
      var exit := BracketExit(t, bar.value);
      if exit.Some? then Close(cfg, t, at, exit.value.0, exit.value.1) else Ratchet(cfg, t, bar.value)
  }

  datatype Book = Book(cash: real, interest: real, open: seq<Trade>, closed: seq<Trade>, serial: nat)

  function Accrue(cfg: Setup, b: Book): Book {
    b.(interest := b.interest + b.cash * cfg.dailyRate, cash := b.cash + b.cash * cfg.dailyRate)
  }

  /** How the bar `at` ages every open trade, as a function. */
  function Ager(cfg: Setup, at: int): Trade -> Trade {
    t => Age(cfg, t, at)
  }

  function Netter(cfg: Setup): Trade -> real {
    t => NetPnl(cfg, t)
  }

  /** One step of the exit loop: `b.open` collects the survivors. */
  function Settle(b: Book, t: Trade, age: Trade -> Trade, net: Trade -> real): Book {
    var aged := age(t);
    if aged.exit.Exited? then b.(cash := b.cash + net(aged), closed := b.closed + [aged])
    else b.(open := b.open + [aged])
  }

  function SettleAll(b: Book, trades: seq<Trade>, age: Trade -> Trade, net: Trade -> real): Book {
    if trades == [] then b.(open := [])
    else Settle(SettleAll(b, trades[..|trades| - 1], age, net), trades[|trades| - 1], age, net)
  }

  function OpenNotional(cfg: Setup, open: seq<Trade>): real {
    if open == [] then 0.0
    else
      var t := open[|open| - 1];
      OpenNotional(cfg, open[..|open| - 1]) + t.entryPrice * cfg.Multiplier(t.symbol, t.assetClass) * t.quantity
  }

  /** The trade a signal opens, friction included. */
  function Enter(cfg: Setup, s: Signal, symbol: string, id: nat, at: int): Trade {
    var (slip, commission) := Costs(cfg.friction, s.assetClass, s.price, s.quantity);
    var entry := if cfg.friction.None? then s.price else if s.direction.Long? then Round2(s.price + slip)
      else Round2(s.price - slip);
    var multiplier := if symbol in cfg.contracts then cfg.contracts[symbol].multiplier
                      else if "/" <= symbol then 5.0 else 1.0;
    var slipped := SlipDollars(cfg.friction, slip, multiplier, s.quantity);
    Trade(id, symbol, s.assetClass, s.direction, at, entry, s.quantity, s.stopLoss, s.takeProfit, s.stopLoss,
          entry, entry, commission, slipped, 0, StillOpen)
  }

  datatype Intake = Intake(open: seq<Trade>, notional: real, serial: nat)

  /** One symbol of the admission loop. */
  function Offer(cfg: Setup, i: Intake, symbol: string, at: int): Intake {
    if |i.open| >= cfg.capacity || (exists k :: 0 <= k < |i.open| && i.open[k].symbol == symbol) then i
    else if cfg.BarAt(symbol, at).None? then i
    else
      var s := cfg.signals(at, symbol);
      if s.None? || i.notional + s.value.notional > cfg.maxNotional then i
      else Intake(i.open + [Enter(cfg, s.value, symbol, i.serial, at)], i.notional + s.value.notional, i.serial + 1)
  }

  function OfferAll(cfg: Setup, i: Intake, symbols: seq<string>, at: int): Intake {
    if symbols == [] then i
    else Offer(cfg, OfferAll(cfg, i, symbols[..|symbols| - 1], at), symbols[|symbols| - 1], at)
  }

  function Admit(cfg: Setup, b: Book, at: int): Book {
    if at >= cfg.warmup && |b.open| < cfg.capacity then
      var i := OfferAll(cfg, Intake(b.open, OpenNotional(cfg, b.open), b.serial), cfg.symbols, at);
      b.(open := i.open, serial := i.serial)
    else b
  }

  /** One bar of the timeline. */
  function Advance(cfg: Setup, b: Book, at: int): Book {
    var accrued := Accrue(cfg, b);
    Admit(cfg, SettleAll(accrued, accrued.open, Ager(cfg, at), Netter(cfg)), at)
  }

  /** The book after the first `n` bars, starting from the given open trades. */
  function Simulate(cfg: Setup, initial: seq<Trade>, n: nat): Book {
    if n == 0 then Book(cfg.initialCash, 0.0, initial, [], |initial|)
    else Advance(cfg, Simulate(cfg, initial, n - 1), n - 1)
  }

  function Unrealized(cfg: Setup, open: seq<Trade>, at: int): real {
    if open == [] then 0.0
    else
      var t := open[|open| - 1];
      var bar := cfg.BarAt(t.symbol, at);
      Unrealized(cfg, open[..|open| - 1], at) +
      if bar.None? then 0.0
      else Gain(t.direction, t.entryPrice, bar.value.close) * cfg.Multiplier(t.symbol, t.assetClass) * t.quantity
  }

  /** The equity point of the bar `at` that leaves the book `b`. */
  function EquityAt(cfg: Setup, b: Book, at: int): real {
    Marked(b.cash, Unrealized(cfg, b.open, at))
  }

  function Marked(cash: real, unrealized: real): real {
    Round2(cash + unrealized)
  }

  /** The equity points of the first `n` bars. */
  function EquityCurve(cfg: Setup, initial: seq<Trade>, n: nat): seq<real> {
    if n == 0 then [] else EquityCurve(cfg, initial, n - 1) + [EquityAt(cfg, Simulate(cfg, initial, n), n - 1)]
  }

  class BacktestEngine {
    const cfg: Setup
    const initial: seq<Trade>
    var cashReserve: real
    var cumulativeYield: real
    var openTrades: seq<Trade>
    var closedTrades: seq<Trade>
    var equityPoints: seq<real>
    var serial: nat

    ghost function Contents(): Book
      reads this
    {
      Book(cashReserve, cumulativeYield, openTrades, closedTrades, serial)
    }

    constructor (cfg: Setup, initial: seq<Trade>)
      ensures this.cfg == cfg && this.initial == initial
      ensures Contents() == Simulate(cfg, initial, 0) && equityPoints == []
    {
      this.cfg, this.initial := cfg, initial;
      cashReserve, cumulativeYield := cfg.initialCash, 0.0;
      openTrades, closedTrades, equityPoints := initial, [], [];
      serial := |initial|;
    }

    method SettleOpenTrades(at: int)
      modifies this`cashReserve, this`openTrades, this`closedTrades
      ensures Contents() == SettleAll(old(Contents()), old(openTrades), Ager(cfg, at), Netter(cfg))
    {
      var trades, remaining := openTrades, [];
      ghost var start := Contents();
      for i := 0 to |trades|
        invariant openTrades == trades && cumulativeYield == old(cumulativeYield) && serial == old(serial)
        invariant Book(cashReserve, cumulativeYield, remaining, closedTrades, serial) ==
                  SettleAll(start, trades[..i], Ager(cfg, at), Netter(cfg))
      {
        assert trades[..i + 1][..i] == trades[..i];
        var aged := Age(cfg, trades[i], at);
        if aged.exit.Exited? {
          cashReserve := cashReserve + NetPnl(cfg, aged);
          closedTrades := closedTrades + [aged];
        } else {
          remaining := remaining + [aged];
        }
      }
      assert trades[..|trades|] == trades;
      openTrades := remaining;
    }

    method Notional() returns (total: real)
      ensures total == OpenNotional(cfg, openTrades)
    {
      total := 0.0;
      for i := 0 to |openTrades|
        invariant total == OpenNotional(cfg, openTrades[..i])
      {
        assert openTrades[..i + 1][..i] == openTrades[..i];
        var t := openTrades[i];
        total := total + t.entryPrice * cfg.Multiplier(t.symbol, t.assetClass) * t.quantity;
      }
      assert openTrades[..|openTrades|] == openTrades;
    }

    /** One symbol of the admission loop below capacity. */
    method OfferSymbol(symbol: string, at: int, notional: real) returns (total: real)
      requires |openTrades| < cfg.capacity
      modifies this`openTrades, this`serial
      ensures Intake(openTrades, total, serial) == Offer(cfg, old(Intake(openTrades, notional, serial)), symbol, at)
    {
      total := notional;
      if (exists k :: 0 <= k < |openTrades| && openTrades[k].symbol == symbol) || cfg.BarAt(symbol, at).None? {
        return;
      }
      var s := cfg.signals(at, symbol);
      if s.Some? && notional + s.value.notional <= cfg.maxNotional {
        openTrades := openTrades + [Enter(cfg, s.value, symbol, serial, at)];
        total := notional + s.value.notional;
        serial := serial + 1;
      }
    }

    method AdmitSignals(at: int)
      modifies this`openTrades, this`serial
      ensures Contents() == Admit(cfg, old(Contents()), at)
    {
      if at >= cfg.warmup && |openTrades| < cfg.capacity {
        var notional := Notional();
        ghost var start := Intake(openTrades, notional, serial);
        for i := 0 to |cfg.symbols|
          invariant Intake(openTrades, notional, serial) == OfferAll(cfg, start, cfg.symbols[..i], at)
        {
          assert cfg.symbols[..i + 1][..i] == cfg.symbols[..i];
          if |openTrades| >= cfg.capacity {
            FullStaysFull(cfg, start, cfg.symbols, i, at);
            break;
          }
          notional := OfferSymbol(cfg.symbols[i], at, notional);
        }
        assert cfg.symbols[..|cfg.symbols|] == cfg.symbols;
      }
    }

    method MarkToMarket(at: int) returns (total: real)
      ensures total == Unrealized(cfg, openTrades, at)
    {
      total := 0.0;
      for i := 0 to |openTrades|
        invariant total == Unrealized(cfg, openTrades[..i], at)
      {
        assert openTrades[..i + 1][..i] == openTrades[..i];
        var t := openTrades[i];
        var bar := cfg.BarAt(t.symbol, at);
        if bar.Some? {
          total := total +
            Gain(t.direction, t.entryPrice, bar.value.close) * cfg.Multiplier(t.symbol, t.assetClass) * t.quantity;
        }
      }
      assert openTrades[..|openTrades|] == openTrades;
    }

    method AccrueInterest()
      modifies this`cumulativeYield, this`cashReserve
      ensures Contents() == Accrue(cfg, old(Contents()))
    {
      var interest := cashReserve * cfg.dailyRate;
      cumulativeYield := cumulativeYield + interest;
      cashReserve := cashReserve + interest;
    }

    method OneBar(at: int)
      modifies this
      ensures Contents() == Advance(cfg, old(Contents()), at)
      ensures equityPoints == old(equityPoints) + [EquityAt(cfg, Contents(), at)]
    {
      AccrueInterest();
      SettleOpenTrades(at);
      AdmitSignals(at);
      var unrealized := MarkToMarket(at);
      equityPoints := equityPoints + [Marked(cashReserve, unrealized)];
    }

    /** `run`'s timeline loop. */
    method Run(bars: nat)
      requires Contents() == Simulate(cfg, initial, 0) && equityPoints == []
      modifies this
      ensures Contents() == Simulate(cfg, initial, bars)
      ensures equityPoints == EquityCurve(cfg, initial, bars)
    {
      for at := 0 to bars
        invariant Contents() == Simulate(cfg, initial, at) && equityPoints == EquityCurve(cfg, initial, at)
      {
        OneBar(at);
        assert Contents() == Simulate(cfg, initial, at + 1);
      }
    }
  }

  /** Once capacity is reached no later symbol is admitted, so stopping there loses nothing. */
  lemma {:induction false} FullStaysFull(cfg: Setup, i: Intake, symbols: seq<string>, k: nat, at: int)
    requires k <= |symbols| && |OfferAll(cfg, i, symbols[..k], at).open| >= cfg.capacity
    ensures OfferAll(cfg, i, symbols, at) == OfferAll(cfg, i, symbols[..k], at)
  {
    if k == |symbols| {
      assert symbols[..k] == symbols;
    } else {
      var init := symbols[..|symbols| - 1];
      assert init[..k] == symbols[..k];
      FullStaysFull(cfg, i, init, k, at);
    }
  }
}
