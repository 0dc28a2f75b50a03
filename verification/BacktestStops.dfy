/**
 Stops over every price path: they only move in the trade's favour, cent rounding included, so a stop exit is
 triggered no worse than the initial stop and, where a positive initial stop is known, is labelled trailing exactly
 when the stop has moved; and no trade exits on the bar it was opened.
 */
module BacktestStops {
  import opened Common
  import opened Rounding
  import opened Backtest
  import opened BacktestLaws

  /** `to` is at least as protective as `from`. */
  predicate Protects(direction: Direction, from: real, to: real) {
    if direction.Long? then from <= to else to <= from
  }

  /** The last cent not above `x`. */
  function FloorCents(x: real): real {
    Cents((x * 100.0).Floor)
  }

  /** No proposal more than `step` past the stop rounds back over it. */
  predicate RoundsSafely(direction: Direction, stop: real, step: real) {
    || OnCents(stop)
    || if direction.Long? then FloorCents(stop) + 0.005 <= stop + step else stop - step <= FloorCents(stop) + 0.005
  }

  /** Rounding a taken stop to cents never reverses the ratchet exactly when the stop and the step round safely. */
  lemma RaisedProtectsIff(direction: Direction, stop: real, step: real)
    requires step >= 0.0
    ensures (forall p :: Protects(direction, stop, Raised(direction, stop, p, step))) <==>
                RoundsSafely(direction, stop, step)
  {
    if RoundsSafely(direction, stop, step) {
      forall p ensures Protects(direction, stop, Raised(direction, stop, p, step)) {
        RaisedProtects(direction, stop, p, step);
      }
    } else {
      var p := (if direction.Long? then stop + step else stop - step) / 2.0 + (FloorCents(stop) + 0.005) / 2.0;
      RaisedReverses(direction, stop, step, p);
    }
  }

  lemma RaisedProtects(direction: Direction, stop: real, proposed: real, step: real)
    requires RoundsSafely(direction, stop, step) && step >= 0.0
    ensures var next := Raised(direction, stop, proposed, step);
            Protects(direction, stop, next) && (next == stop || OnCents(next))
  {
    if OnCents(stop) {
      if direction.Long? && proposed > stop + step {
        Round2AtLeast(proposed, stop);
      } else if direction.Short? && proposed < stop - step {
        Round2AtMost(proposed, stop);
      }
    } else {
      var k, n := (stop * 100.0).Floor, RoundInt(proposed * 100.0);
      assert FloorCents(stop) * 100.0 == k as real && Round2(proposed) * 100.0 == n as real;
      assert direction.Long? && proposed > stop + step ==> n >= k + 1;
      assert direction.Short? && proposed < stop - step ==> n <= k;
    }
  }

  lemma RaisedReverses(direction: Direction, stop: real, step: real, p: real)
    requires step >= 0.0 && !RoundsSafely(direction, stop, step)
    requires p == (if direction.Long? then stop + step else stop - step) / 2.0 + (FloorCents(stop) + 0.005) / 2.0
    ensures !Protects(direction, stop, Raised(direction, stop, p, step))
  {
    var k, n := (stop * 100.0).Floor, RoundInt(p * 100.0);
    assert FloorCents(stop) * 100.0 == k as real && Round2(p) * 100.0 == n as real;
    assert n == if direction.Long? then k else k + 1;
  }

  /** A sub-cent stop that shows it: break-even at 99.0045 takes a long's stop from 99.004 back to 99.00. */
  lemma SubCentStopReverses()
    ensures Raised(Long, 99.004, 99.0045, 0.0) == 99.0 && !RoundsSafely(Long, 99.004, 0.0)
  {
    assert RoundInt(9900.45) == 9900 && (9900.4).Floor == 9900;
  }

  /** The stop rounds safely under every ratchet the setup has. */
  predicate SafeStop(cfg: Setup, symbol: string, direction: Direction, stop: real) {
    cfg.trailing.Some? ==>
      && (cfg.trailing.value.breakevenR.Some? ==> RoundsSafely(direction, stop, 0.0))
      && RoundsSafely(direction, stop, cfg.MinStep(symbol))
  }

  /** No worse than the first stop where that is known: a trade may carry the default of zero. */
  ghost predicate StopOrdered(t: Trade) {
    t.initialStop > 0.0 ==> Protects(t.direction, t.initialStop, t.stopLoss)
  }

  /** Ticks and trailing steps are not negative, and every signal's stop rounds safely, as every cent price does. */
  ghost predicate SaneSetup(cfg: Setup) {
    && (cfg.trailing.Some? ==> cfg.trailing.value.stepTicks >= 0)
    && (forall s :: s in cfg.contracts ==> cfg.contracts[s].tickSize >= 0.0)
    && (forall at, s :: cfg.signals(at, s).Some? ==>
          SafeStop(cfg, s, cfg.signals(at, s).value.direction, cfg.signals(at, s).value.stopLoss))
  }

  lemma MinStepNonnegative(cfg: Setup, symbol: string)
    requires SaneSetup(cfg) && cfg.trailing.Some?
    ensures cfg.MinStep(symbol) >= 0.0
  {
    var tick := if symbol in cfg.contracts then cfg.contracts[symbol].tickSize else 0.25;
    assert tick >= 0.0 && cfg.trailing.value.stepTicks as real >= 0.0;
  }

  /** The break-even rule keeps the stop safe, and no less protective. */
  lemma BreakevenProtects(cfg: Setup, t: Trade, r: real)
    requires cfg.trailing.Some? && SafeStop(cfg, t.symbol, t.direction, t.stopLoss)
    ensures var stop := BreakevenStop(cfg, t, r);
            SafeStop(cfg, t.symbol, t.direction, stop) && Protects(t.direction, t.stopLoss, stop)
  {
    var ts, multiplier := cfg.trailing.value, cfg.Multiplier(t.symbol, t.assetClass);
    var buffer := if multiplier > 0.0 then ts.breakevenBuffer / multiplier else 0.5;
    var proposed := if t.direction.Long? then t.entryPrice + buffer else t.entryPrice - buffer;
    if ts.breakevenR.Some? {
      RaisedProtects(t.direction, t.stopLoss, proposed, 0.0);
    }
  }

  lemma TrailProtects(cfg: Setup, t: Trade, stop: real, atr: real, risk: real, r: real)
    requires SaneSetup(cfg) && cfg.trailing.Some? && SafeStop(cfg, t.symbol, t.direction, stop)
    ensures var next := TrailedStop(cfg, t, stop, atr, risk, r);
            SafeStop(cfg, t.symbol, t.direction, next) && Protects(t.direction, stop, next)
  {
    MinStepNonnegative(cfg, t.symbol);
    RaisesProtect(t.direction, stop, cfg.MinStep(t.symbol));
  }

  lemma RaisesProtect(direction: Direction, stop: real, step: real)
    requires RoundsSafely(direction, stop, step) && step >= 0.0
    ensures forall p :: Protects(direction, stop, Raised(direction, stop, p, step))
    ensures forall p :: Raised(direction, stop, p, step) == stop || OnCents(Raised(direction, stop, p, step))
  {
    forall p
      ensures Protects(direction, stop, Raised(direction, stop, p, step))
      ensures Raised(direction, stop, p, step) == stop || OnCents(Raised(direction, stop, p, step))
    {
      RaisedProtects(direction, stop, p, step);
    }
  }

  lemma RatchetProtects(cfg: Setup, t: Trade, bar: Bar)
    requires SaneSetup(cfg) && SafeStop(cfg, t.symbol, t.direction, t.stopLoss)
    ensures var u := Ratchet(cfg, t, bar);
            SafeStop(cfg, t.symbol, t.direction, u.stopLoss) && Protects(t.direction, t.stopLoss, u.stopLoss)
  {
    if cfg.trailing.Some? {
      var m := if t.direction.Long? then t.(highWater := Max(t.highWater, bar.high))
        else t.(lowWater := Min(t.lowWater, bar.low));
      var favourable := if t.direction.Long? then m.highWater - t.entryPrice else t.entryPrice - m.lowWater;
      var risk := Abs(t.entryPrice - t.initialStop);
      var r := if risk > 0.0 then favourable / risk else 0.0;
      BreakevenProtects(cfg, m, r);
      TrailProtects(cfg, m, BreakevenStop(cfg, m, r), bar.atr, risk, r);
    }
  }

  /**
   A stop exit fills from the stop itself, and its label says whether that stop had moved; a target exit fills from
   the target.
   */
  ghost predicate HonestExit(f: Option<Friction>, t: Trade) {
    t.exit.Exited? ==>
      if t.exit.reason.TakeProfit? then t.exit.price == ExitFill(f, t, t.takeProfit)
      else
        && t.exit.price == ExitFill(f, t, t.stopLoss)
        && (t.exit.reason.TrailingStop? <==> t.initialStop > 0.0 && t.stopLoss != t.initialStop)
  }

  /** The bar reaches a price from the trade's entry side: down to it or up to it. */
  predicate Touches(bar: Bar, below: bool, price: real) {
    if below then bar.low <= price else bar.high >= price
  }

  /** A bar takes a trade out exactly when it reaches the stop or the target, and at the stop when it reaches both. */
  lemma ExitsOnTouchStopFirst(t: Trade, bar: Bar)
    ensures var exit, long := BracketExit(t, bar), t.direction.Long?;
            && (exit.Some? <==> Touches(bar, long, t.stopLoss) || Touches(bar, !long, t.takeProfit))
            && (exit.Some? ==> (exit.value.1.TakeProfit? <==> !Touches(bar, long, t.stopLoss)))
            && (exit.Some? ==> exit.value.0 == if exit.value.1.TakeProfit? then t.takeProfit else t.stopLoss)
  {
  }

  /** An open trade after `n` bars: opened earlier, one bar counted for each bar since. */
  ghost predicate HeldSince(t: Trade, n: int) {
    t.exit.StillOpen? && t.entryBar < n && t.duration == n - 1 - t.entryBar
  }

  /** A closed trade held for at least one bar after its entry bar, every one of them counted. */
  ghost predicate LeftLater(t: Trade) {
    t.exit.Exited? && t.entryBar < t.exit.bar && t.duration == t.exit.bar - t.entryBar
  }

  /** An open trade after `n` bars whose stop is ordered and safe. */
  ghost predicate OpenAfter(cfg: Setup, t: Trade, n: int) {
    HeldSince(t, n) && StopOrdered(t) && SafeStop(cfg, t.symbol, t.direction, t.stopLoss)
  }

  /** A closed trade with an ordered stop, an honest label and dates in order. */
  ghost predicate ClosedWell(f: Option<Friction>, t: Trade) {
    LeftLater(t) && StopOrdered(t) && HonestExit(f, t)
  }

  lemma AgeWell(cfg: Setup, t: Trade, at: int)
    requires SaneSetup(cfg) && OpenAfter(cfg, t, at)
    ensures var u := Age(cfg, t, at);
            && Protects(t.direction, t.stopLoss, u.stopLoss)
            && if u.exit.StillOpen? then OpenAfter(cfg, u, at + 1) else ClosedWell(cfg.friction, u)
  {
    var bar, next := cfg.BarAt(t.symbol, at), t.(duration := t.duration + 1);
    if bar.Some? {
      if BracketExit(next, bar.value).Some? {
        ClosesWell(cfg, next, bar.value, at);
      } else {
        RatchetProtects(cfg, next, bar.value);
      }
    }
  }

  lemma ClosesWell(cfg: Setup, t: Trade, bar: Bar, at: int)
    requires StopOrdered(t) && t.entryBar < at && t.duration == at - t.entryBar && BracketExit(t, bar).Some?
    ensures var exit := BracketExit(t, bar).value;
            var c := Close(cfg, t, at, exit.0, exit.1);
            ClosedWell(cfg.friction, c) && c.stopLoss == t.stopLoss
  {
  }

  /** Ageing at bar `at`, as a property of the function. */
  ghost predicate AgesWell(cfg: Setup, age: Trade -> Trade, at: int) {
    forall t: Trade :: OpenAfter(cfg, t, at) ==>
      && Protects(t.direction, t.stopLoss, age(t).stopLoss) && SameOrder(t, age(t))
      && if age(t).exit.StillOpen? then OpenAfter(cfg, age(t), at + 1) else ClosedWell(cfg.friction, age(t))
  }

  lemma BarsAgeWell(cfg: Setup, at: int)
    requires SaneSetup(cfg)
    ensures AgesWell(cfg, Ager(cfg, at), at)
  {
    forall t: Trade | OpenAfter(cfg, t, at)
      ensures var u := Age(cfg, t, at);
              && Protects(t.direction, t.stopLoss, u.stopLoss) && SameOrder(t, u)
              && if u.exit.StillOpen? then OpenAfter(cfg, u, at + 1) else ClosedWell(cfg.friction, u)
    {
      AgeWell(cfg, t, at);
      AgeKeepsOrder(cfg, t, at);
    }
  }

  /** Every survivor is an aged trade; every closed one is an aged trade or was closed before. */
  lemma {:induction false} SettleLineage(b: Book, trades: seq<Trade>, age: Trade -> Trade, net: Trade -> real)
    ensures var s := SettleAll(b, trades, age, net);
            && (forall u :: u in s.open ==> u.exit.StillOpen? && exists t :: t in trades && u == age(t))
            && (forall u :: u in s.closed ==>
                   u in b.closed || (u.exit.Exited? && exists t :: t in trades && u == age(t)))
  {
    if trades != [] {
      var init, t := trades[..|trades| - 1], trades[|trades| - 1];
      SettleLineage(b, init, age, net);
      assert t in trades && forall x :: x in init ==> x in trades;
    }
  }

  /** Every trade of an intake was there before, or is new: a fresh id, opened now, at its initial stop. */
  lemma {:induction false} OfferLineage(cfg: Setup, i: Intake, symbols: seq<string>, at: int)
    requires SaneSetup(cfg)
    ensures var o := OfferAll(cfg, i, symbols, at);
            o.serial >= i.serial && forall u :: u in o.open ==>
              u in i.open || (u.id >= i.serial && OpenAfter(cfg, u, at + 1))
  {
    if symbols != [] {
      OfferLineage(cfg, i, symbols[..|symbols| - 1], at);
    }
  }

  ghost predicate Sound(cfg: Setup, b: Book, n: int) {
    && (forall t :: t in b.open ==> OpenAfter(cfg, t, n))
    && (forall t :: t in b.closed ==> ClosedWell(cfg.friction, t))
  }

  lemma AdvanceSound(cfg: Setup, b: Book, at: int)
    requires SaneSetup(cfg) && Sound(cfg, b, at)
    ensures Sound(cfg, Advance(cfg, b, at), at + 1)
  {
    var accrued := Accrue(cfg, b);
    BarsAgeWell(cfg, at);
    SettleLineage(accrued, accrued.open, Ager(cfg, at), Netter(cfg));
    var s := SettleAll(accrued, accrued.open, Ager(cfg, at), Netter(cfg));
    OfferLineage(cfg, Intake(s.open, OpenNotional(cfg, s.open), s.serial), cfg.symbols, at);
  }

  /**
   Over every timeline: every stop is at least as protective as the trade's first one, every closed trade exited
   strictly after its entry bar having counted each bar held, and every stop exit filled from its stop and is
   labelled trailing exactly when that stop had moved.
   */
  lemma StopsAndExitsAreSound(cfg: Setup, initial: seq<Trade>, n: nat)
    requires SaneSetup(cfg) && forall t :: t in initial ==> OpenAfter(cfg, t, 0)
    ensures Sound(cfg, Simulate(cfg, initial, n), n)
  {
    for i := 0 to n
      invariant Sound(cfg, Simulate(cfg, initial, i), i)
    {
      AdvanceSound(cfg, Simulate(cfg, initial, i), i);
    }
  }

  /** `u` is `t` later on: the same order, with a stop at least as protective. */
  ghost predicate Descends(t: Trade, u: Trade) {
    SameOrder(t, u) && Protects(t.direction, t.stopLoss, u.stopLoss)
  }

  lemma AdvanceDescends(cfg: Setup, b: Book, at: int, u: Trade)
    requires SaneSetup(cfg) && Sound(cfg, b, at)
    requires var a := Advance(cfg, b, at); u in a.open || u in a.closed
    ensures u in b.closed || u.id >= b.serial || exists t :: t in b.open && Descends(t, u)
  {
    var accrued := Accrue(cfg, b);
    BarsAgeWell(cfg, at);
    SettleLineage(accrued, accrued.open, Ager(cfg, at), Netter(cfg));
    var s := SettleAll(accrued, accrued.open, Ager(cfg, at), Netter(cfg));
    SerialKept(accrued, accrued.open, Ager(cfg, at), Netter(cfg));
    OfferLineage(cfg, Intake(s.open, OpenNotional(cfg, s.open), s.serial), cfg.symbols, at);
  }

  lemma {:induction false} SerialKept(b: Book, trades: seq<Trade>, age: Trade -> Trade, net: Trade -> real)
    ensures SettleAll(b, trades, age, net).serial == b.serial
  {
    if trades != [] {
      SerialKept(b, trades[..|trades| - 1], age, net);
    }
  }

  ghost predicate InBook(b: Book, u: Trade) {
    u in b.open || u in b.closed
  }

  /** The same trade one bar earlier, unless it has just been opened. */
  lemma OneBarEarlier(cfg: Setup, initial: seq<Trade>, n: nat, u: Trade) returns (v: Trade)
    requires SaneSetup(cfg) && (forall x :: x in initial ==> OpenAfter(cfg, x, 0))
    requires InBook(Simulate(cfg, initial, n + 1), u) && u.id < Simulate(cfg, initial, n).serial
    ensures InBook(Simulate(cfg, initial, n), v) && (v == u || Descends(v, u))
  {
    var b := Simulate(cfg, initial, n);
    StopsAndExitsAreSound(cfg, initial, n);
    AdvanceDescends(cfg, b, n, u);
    if u in b.closed {
      return u;
    }
    v :| v in b.open && Descends(v, u);
  }

  /** The books of a backtest by number of bars. */
  function Books(cfg: Setup, initial: seq<Trade>): nat -> Book {
    (n: nat) => Simulate(cfg, initial, n)
  }

  ghost predicate Earlier(b: Book, v: Trade, u: Trade) {
    InBook(b, v) && v.id == u.id && Descends(v, u)
  }

  /** Every trade of `after` that is not new descends from one of `before`. */
  ghost predicate LinksBack(before: Book, after: Book) {
    forall u :: InBook(after, u) && u.id < before.serial ==> exists v :: Earlier(before, v, u)
  }

  ghost predicate LinksBackAt(books: nat -> Book, n: nat) {
    LinksBack(books(n), books(n + 1))
  }

  ghost predicate Lineage(books: nat -> Book) {
    forall n: nat :: LinksBackAt(books, n)
  }

  ghost predicate SerialGrowsAt(books: nat -> Book, n: nat) {
    books(n).serial <= books(n + 1).serial
  }

  ghost predicate SerialsGrow(books: nat -> Book) {
    forall n: nat :: SerialGrowsAt(books, n)
  }

  lemma {:induction false} SerialGrows(books: nat -> Book, k: nat, n: nat)
    requires SerialsGrow(books) && k <= n
    ensures books(k).serial <= books(n).serial
    decreases n
  {
    if k < n {
      SerialGrows(books, k, n - 1);
      assert SerialGrowsAt(books, n - 1);
    }
  }

  lemma {:induction false} LineageReaches(books: nat -> Book, k: nat, n: nat, t: Trade, u: Trade)
    requires Lineage(books) && SerialsGrow(books) && k <= n && t.id < books(k).serial
    requires forall x :: InBook(books(k), x) && x.id == t.id ==> x == t
    requires InBook(books(n), u) && u.id == t.id
    ensures Descends(t, u)
    decreases n
  {
    if k < n {
      SerialGrows(books, k, n - 1);
      assert LinksBackAt(books, n - 1);
      var v :| Earlier(books(n - 1), v, u);
      LineageReaches(books, k, n - 1, t, v);
    }
  }

  lemma BarLinksBack(cfg: Setup, initial: seq<Trade>, n: nat)
    requires SaneSetup(cfg) && forall x :: x in initial ==> OpenAfter(cfg, x, 0)
    ensures LinksBack(Simulate(cfg, initial, n), Simulate(cfg, initial, n + 1))
  {
    var before, after := Simulate(cfg, initial, n), Simulate(cfg, initial, n + 1);
    forall u | InBook(after, u) && u.id < before.serial ensures exists v :: Earlier(before, v, u) {
      var v := OneBarEarlier(cfg, initial, n, u);
      assert Earlier(before, v, u);
    }
  }

  lemma BacktestLineage(cfg: Setup, initial: seq<Trade>)
    requires SaneSetup(cfg) && forall x :: x in initial ==> OpenAfter(cfg, x, 0)
    ensures Lineage(Books(cfg, initial)) && SerialsGrow(Books(cfg, initial))
  {
    forall n: nat ensures LinksBackAt(Books(cfg, initial), n) {
      BarLinksBack(cfg, initial, n);
    }
    forall n: nat ensures SerialGrowsAt(Books(cfg, initial), n) {
      SerialStep(cfg, initial, n);
    }
  }

  /** A trade open after `k` bars, found again after any later number of bars, has only gained protection. */
  lemma StopsOnlyRatchet(cfg: Setup, initial: seq<Trade>, k: nat, n: nat, t: Trade, u: Trade)
    requires SaneSetup(cfg) && Ids(initial) == Serial(|initial|) && OnePerSymbol(initial)
    requires (forall x :: x in initial ==> OpenAfter(cfg, x, 0)) && k <= n
    requires t in Simulate(cfg, initial, k).open && u.id == t.id && InBook(Simulate(cfg, initial, n), u)
    ensures Descends(t, u)
  {
    BacktestLineage(cfg, initial);
    IdsBelowSerial(cfg, initial, k, t);
    forall x | InBook(Books(cfg, initial)(k), x) && x.id == t.id ensures x == t {
      SameIdSameTrade(cfg, initial, k, t, x);
    }
    assert InBook(Books(cfg, initial)(n), u);
    LineageReaches(Books(cfg, initial), k, n, t, u);
  }

  lemma {:induction false} MemberCounted(trades: seq<Trade>, t: Trade)
    requires t in trades
    ensures Ids(trades)[t.id] >= 1
  {
    if trades[|trades| - 1] != t {
      MemberCounted(trades[..|trades| - 1], t);
    }
  }

  lemma {:induction false} TwoMembersCounted(trades: seq<Trade>, t: Trade, u: Trade)
    requires t in trades && u in trades && t != u && t.id == u.id
    ensures Ids(trades)[t.id] >= 2
  {
    var init, last := trades[..|trades| - 1], trades[|trades| - 1];
    if last == t {
      MemberCounted(init, u);
    } else if last == u {
      MemberCounted(init, t);
    } else {
      TwoMembersCounted(init, t, u);
    }
  }

  lemma SameIdSameTrade(cfg: Setup, initial: seq<Trade>, n: nat, t: Trade, u: Trade)
    requires Ids(initial) == Serial(|initial|) && OnePerSymbol(initial)
    requires t in Simulate(cfg, initial, n).open && InBook(Simulate(cfg, initial, n), u) && t.id == u.id
    ensures t == u
  {
    TradesAreConserved(cfg, initial, n);
    var b := Simulate(cfg, initial, n);
    MemberCounted(b.open, t);
    if u in b.open {
      if t != u {
        TwoMembersCounted(b.open, t, u);
      }
    } else {
      MemberCounted(b.closed, u);
    }
  }

  lemma IdsBelowSerial(cfg: Setup, initial: seq<Trade>, n: nat, t: Trade)
    requires Ids(initial) == Serial(|initial|) && OnePerSymbol(initial)
    requires t in Simulate(cfg, initial, n).open
    ensures t.id < Simulate(cfg, initial, n).serial
  {
    TradesAreConserved(cfg, initial, n);
    MemberCounted(Simulate(cfg, initial, n).open, t);
  }

  lemma {:induction false} OfferSerial(cfg: Setup, i: Intake, symbols: seq<string>, at: int)
    ensures OfferAll(cfg, i, symbols, at).serial >= i.serial
  {
    if symbols != [] {
      OfferSerial(cfg, i, symbols[..|symbols| - 1], at);
    }
  }

  lemma SerialStep(cfg: Setup, initial: seq<Trade>, n: nat)
    ensures Simulate(cfg, initial, n).serial <= Simulate(cfg, initial, n + 1).serial
  {
    AdvanceSerial(cfg, Simulate(cfg, initial, n), n);
  }

  lemma AdvanceSerial(cfg: Setup, b: Book, at: int)
    ensures Advance(cfg, b, at).serial >= b.serial
  {
    var accrued := Accrue(cfg, b);
    SerialKept(accrued, accrued.open, Ager(cfg, at), Netter(cfg));
    AdmitSerial(cfg, SettleAll(accrued, accrued.open, Ager(cfg, at), Netter(cfg)), at);
  }

  lemma AdmitSerial(cfg: Setup, b: Book, at: int)
    ensures Admit(cfg, b, at).serial >= b.serial
  {
    OfferSerial(cfg, Intake(b.open, OpenNotional(cfg, b.open), b.serial), cfg.symbols, at);
  }

  // Dates need no assumption on stops, ticks or steps.

  ghost predicate Dated(b: Book, n: int) {
    (forall t :: t in b.open ==> HeldSince(t, n)) && (forall t :: t in b.closed ==> LeftLater(t))
  }

  ghost predicate AgesInOrder(age: Trade -> Trade, at: int) {
    forall t: Trade :: HeldSince(t, at) ==>
      if age(t).exit.StillOpen? then HeldSince(age(t), at + 1) else LeftLater(age(t))
  }

  lemma BarsAgeInOrder(cfg: Setup, at: int)
    ensures AgesInOrder(Ager(cfg, at), at)
  {
    forall t: Trade | HeldSince(t, at)
      ensures var u := Age(cfg, t, at); if u.exit.StillOpen? then HeldSince(u, at + 1) else LeftLater(u)
    {
    }
  }

  lemma {:induction false} OfferDates(cfg: Setup, i: Intake, symbols: seq<string>, at: int)
    requires forall t :: t in i.open ==> HeldSince(t, at + 1)
    ensures forall t :: t in OfferAll(cfg, i, symbols, at).open ==> HeldSince(t, at + 1)
  {
    if symbols != [] {
      OfferDates(cfg, i, symbols[..|symbols| - 1], at);
    }
  }

  lemma AdvanceDates(cfg: Setup, b: Book, at: int)
    requires Dated(b, at)
    ensures Dated(Advance(cfg, b, at), at + 1)
  {
    var accrued := Accrue(cfg, b);
    BarsAgeInOrder(cfg, at);
    SettleLineage(accrued, accrued.open, Ager(cfg, at), Netter(cfg));
    var s := SettleAll(accrued, accrued.open, Ager(cfg, at), Netter(cfg));
    OfferDates(cfg, Intake(s.open, OpenNotional(cfg, s.open), s.serial), cfg.symbols, at);
  }

  /** Over every timeline and any setup no trade exits on its entry bar, and every bar held is counted. */
  lemma NoExitOnEntryBar(cfg: Setup, initial: seq<Trade>, n: nat)
    requires forall t :: t in initial ==> HeldSince(t, 0)
    ensures Dated(Simulate(cfg, initial, n), n)
  {
    for i := 0 to n
      invariant Dated(Simulate(cfg, initial, i), i)
    {
      AdvanceDates(cfg, Simulate(cfg, initial, i), i);
    }
  }
}
