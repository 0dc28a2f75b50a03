/**
 What the sizes are, on the raw inputs: the maximum is the largest whole quantity that fits every limit, the default
 is the largest (shares) or the nearest (contracts) whole quantity for the budgets in force, and the tiers follow.
 */
module SizingMeaning {
  import opened Common
  import opened Rounding
  import opened Sizing

  function Times(x: real, y: real): real {
    x * y
  }

  /** Dollars one unit risks, and costs: at least a cent. */
  function RiskPerUnit(r: Request): (u: real)
    ensures u >= 0.01
  {
    if Times(r.stopDistance, r.multiplier) > 0.01 then Times(r.stopDistance, r.multiplier) else 0.01
  }

  function CostPerUnit(r: Request): (u: real)
    ensures u >= 0.01
  {
    if Times(r.entry, r.multiplier) > 0.01 then Times(r.entry, r.multiplier) else 0.01
  }

  lemma UnitsAre(r: Request)
    ensures PerUnitRisk(r) == RiskPerUnit(r) && UnitNotional(r) == CostPerUnit(r)
  {
  }

  // The largest quantity.

  /** A quantity fits the count cap, the dollars of the budget and the card's cap, and both notional limits. */
  predicate Fits(cfg: Config, b: Budget, r: Request, q: real) {
    && q <= (if r.assetClass.Shares? then cfg.maxShares else cfg.maxContracts) as real
    && Times(q, RiskPerUnit(r)) <= b.dollars && (r.cap.Some? ==> Times(q, RiskPerUnit(r)) <= r.cap.value)
    && Times(q, CostPerUnit(r)) <= cfg.maxTradeNotional
    && (Times(q, CostPerUnit(r)) <= 0.0 || Times(q, CostPerUnit(r)) <= cfg.maxPortfolioNotional - r.openNotional)
  }

  /** The largest whole quantity that fits, or nothing. */
  predicate LargestFit(cfg: Config, b: Budget, r: Request, m: real) {
    m >= 0.0 && Whole(m) && (m > 0.0 ==> Fits(cfg, b, r, m)) && !Fits(cfg, b, r, m + 1.0)
  }

  lemma QuotientIff(q: real, total: real, unit: real)
    requires unit > 0.0
    ensures q <= total / unit <==> Times(q, unit) <= total
  {
    var x := total / unit;
    assert Times(x, unit) == total;
    if q <= x {
      ProductOrder(q, x, unit);
    } else {
      ProductOrder(x, q, unit);
    }
  }

  /** Times a positive unit, a strict order stays strict. */
  lemma ProductOrder(x: real, y: real, unit: real)
    requires unit > 0.0 && x <= y
    ensures Times(x, unit) <= Times(y, unit) && (x < y ==> Times(x, unit) < Times(y, unit))
  {
    var d := y - x;
    assert d >= 0.0 ==> d * unit >= 0.0;
    assert d > 0.0 ==> d * unit > 0.0;
    assert d * unit == Times(y, unit) - Times(x, unit);
  }

  lemma FitsIff(cfg: Config, b: Budget, r: Request, q: real)
    requires q > 0.0
    ensures Fits(cfg, b, r, q) <==>
              q <= Min(CountCap(cfg, r),
                       Min(RiskCeiling(b, r) / PerUnitRisk(r), NotionalCeiling(cfg, r) / UnitNotional(r)))
  {
    UnitsAre(r);
    QuotientIff(q, RiskCeiling(b, r), RiskPerUnit(r));
    QuotientIff(q, NotionalCeiling(cfg, r), CostPerUnit(r));
    PositiveProduct(q, CostPerUnit(r));
  }

  lemma PositiveProduct(x: real, y: real)
    requires x > 0.0 && y > 0.0
    ensures Times(x, y) > 0.0
  {
  }

  lemma TruncBetween(x: real, q: real)
    requires q == Max(0.0, Trunc(x) as real)
    ensures q >= 0.0 && Whole(q) && (q > 0.0 ==> q <= x) && q + 1.0 > x
  {
  }

  /** The maximum is maximal: it fits, and one more unit breaks a limit. */
  lemma MaxIsLargest(cfg: Config, b: Budget, r: Request)
    ensures LargestFit(cfg, b, r, MaxQty(cfg, b, r))
  {
    var m := MaxQty(cfg, b, r);
    TruncBetween(Min(CountCap(cfg, r),
                     Min(RiskCeiling(b, r) / PerUnitRisk(r), NotionalCeiling(cfg, r) / UnitNotional(r))), m);
    FitsIff(cfg, b, r, m + 1.0);
    if m > 0.0 {
      FitsIff(cfg, b, r, m);
    }
  }

  /** Less of what fits fits. */
  lemma SmallerFits(cfg: Config, b: Budget, r: Request, p: real, q: real)
    requires 0.0 < p <= q && Fits(cfg, b, r, q)
    ensures Fits(cfg, b, r, p)
  {
    FitsIff(cfg, b, r, p);
    FitsIff(cfg, b, r, q);
  }

  /** Any whole quantity that fits is at most the maximum. */
  lemma NothingLargerFits(cfg: Config, b: Budget, r: Request, q: real)
    requires q > 0.0 && Whole(q) && Fits(cfg, b, r, q)
    ensures q <= MaxQty(cfg, b, r)
  {
    MaxIsLargest(cfg, b, r);
    var m := MaxQty(cfg, b, r);
    if q > m {
      WholeGap(m, q);
      SmallerFits(cfg, b, r, m + 1.0, q);
    }
  }

  lemma WholeGap(m: real, q: real)
    requires Whole(m) && Whole(q) && q > m
    ensures q >= m + 1.0
  {
    var a, b := m.Floor, q.Floor;
    assert b > a;
  }

  /** Some whole quantity of at least the minimum fits. */
  ghost predicate SomethingFits(cfg: Config, b: Budget, r: Request) {
    exists q :: FitsMinimum(cfg, b, r, q)
  }

  predicate FitsMinimum(cfg: Config, b: Budget, r: Request, q: real) {
    && Whole(q) && Fits(cfg, b, r, q)
    && q >= if r.assetClass.Shares? then cfg.minShares else cfg.minContracts as real
  }

  /** A card is blocked exactly when the drawdown halts sizing or no whole quantity from the minimum up fits. */
  lemma BlockedIff(cfg: Config, b: Budget, r: Request)
    requires PositiveMinimums(cfg)
    ensures Blocked(cfg, b, r) <==> b.drawdownFactor == 0.0 || !SomethingFits(cfg, b, r)
  {
    var m := MaxQty(cfg, b, r);
    MaxIsLargest(cfg, b, r);
    if m >= Minimum(cfg, r) {
      assert FitsMinimum(cfg, b, r, m);
    }
    if q :| FitsMinimum(cfg, b, r, q) {
      NothingLargerFits(cfg, b, r, q);
    }
  }

  // The budgets in force.

  /**
   A risk budget the default quantity must respect: the contract's own target when it is set; otherwise for shares the
   default, or 500, in static mode, and in dynamic mode both the default and the share of capital (the default alone
   where either is not positive, the share alone without a default); for contracts the futures target or the share.
   */
  predicate InForce(cfg: Config, capital: real, r: Request, x: real) {
    var share := Times(capital, cfg.targetRiskPct);
    if r.targetRisk.Some? && r.targetRisk.value != 0.0 then x == r.targetRisk.value
    else if r.assetClass.Contracts? then x == if cfg.targetFuturesRisk != 0.0 then cfg.targetFuturesRisk else share
    else if cfg.staticMode then x == if cfg.defaultEquityRisk != 0.0 then cfg.defaultEquityRisk else 500.0
    else if cfg.defaultEquityRisk == 0.0 then x == share
    else x == cfg.defaultEquityRisk || (x == share && share > 0.0 && cfg.defaultEquityRisk > 0.0)
  }

  /** The base budget is the smallest budget in force. */
  lemma BaseBudgetIsSmallest(cfg: Config, capital: real, r: Request)
    ensures var base := BaseBudget(cfg, capital, r);
            InForce(cfg, capital, r, base) && forall x :: InForce(cfg, capital, r, x) ==> base <= x
  {
    ShareIs(cfg, capital);
  }

  lemma ShareIs(cfg: Config, capital: real)
    ensures capital * cfg.targetRiskPct == Times(capital, cfg.targetRiskPct)
  {
  }

  /** A budget after both factors. */
  function Scaled(b: Budget, x: real): real {
    Times(x, Times(b.drawdownFactor, b.macroFactor))
  }

  lemma LargerScaled(b: Budget, x: real, y: real)
    requires x <= y && b.drawdownFactor >= 0.0 && b.macroFactor >= 0.0
    ensures Scaled(b, x) <= Scaled(b, y)
  {
    var f := Times(b.drawdownFactor, b.macroFactor);
    assert f >= 0.0;
    assert (y - x) * f >= 0.0;
  }

  // The default quantity.

  /** The largest whole quantity whose risk is within every scaled budget in force; zero where even one is too much. */
  ghost predicate LargestWithin(cfg: Config, b: Budget, r: Request, n: nat) {
    && (n > 0 ==> forall x :: InForce(cfg, b.capital, r, x) ==> Times(n as real, RiskPerUnit(r)) <= Scaled(b, x))
    && (exists x :: InForce(cfg, b.capital, r, x) && Times(n as real + 1.0, RiskPerUnit(r)) > Scaled(b, x))
  }

  /** The whole quantity whose risk is nearest the scaled budget in force, the even one of two. */
  ghost predicate NearestTo(cfg: Config, b: Budget, r: Request, n: int) {
    exists x :: InForce(cfg, b.capital, r, x) && NearestUnits(n, Scaled(b, x), RiskPerUnit(r))
  }

  predicate NearestUnits(n: int, total: real, unit: real) {
    var gap := Times(n as real, unit) - total;
    -unit <= gap + gap <= unit && (gap + gap == unit || gap + gap == -unit ==> n % 2 == 0)
  }

  function RawUnits(cfg: Config, b: Budget, r: Request): real {
    RawBase(BaseBudget(cfg, b.capital, r), Extend(b.drawdownFactor, b.macroFactor), PerUnitRisk(r))
  }

  lemma RawUnitsAre(cfg: Config, b: Budget, r: Request)
    ensures RawUnits(cfg, b, r) == Scaled(b, BaseBudget(cfg, b.capital, r)) / RiskPerUnit(r)
  {
    UnitsAre(r);
    ExtendIsTimes(b.drawdownFactor, b.macroFactor);
    ExtendIsTimes(BaseBudget(cfg, b.capital, r), Times(b.drawdownFactor, b.macroFactor));
  }

  lemma ExtendIsTimes(x: real, y: real)
    ensures Extend(x, y) == Times(x, y)
  {
  }

  lemma WholePart(raw: real, total: real, unit: real, n: int)
    requires unit > 0.0 && raw == total / unit && n == IntMax(0, Trunc(raw))
    ensures n >= 0 && (n > 0 ==> Times(n as real, unit) <= total) && Times(n as real + 1.0, unit) > total
  {
    QuotientIff(n as real, total, unit);
    QuotientIff(n as real + 1.0, total, unit);
  }

  lemma WholePartIsLargest(cfg: Config, b: Budget, r: Request, n: nat)
    requires b.drawdownFactor >= 0.0 && b.macroFactor >= 0.0 && n == IntMax(0, Trunc(RawUnits(cfg, b, r)))
    ensures LargestWithin(cfg, b, r, n)
  {
    var base := BaseBudget(cfg, b.capital, r);
    BaseBudgetIsSmallest(cfg, b.capital, r);
    RawUnitsAre(cfg, b, r);
    WholePart(RawUnits(cfg, b, r), Scaled(b, base), RiskPerUnit(r), n);
    forall x | InForce(cfg, b.capital, r, x) ensures Scaled(b, base) <= Scaled(b, x) {
      LargerScaled(b, base, x);
    }
  }

  lemma NearestWhole(raw: real, total: real, unit: real)
    requires unit > 0.0 && raw == total / unit
    ensures NearestUnits(RoundInt(raw), total, unit)
  {
    var n := RoundInt(raw);
    assert raw * unit == total;
    var d := n as real - raw;
    assert -0.5 <= d <= 0.5 && (d == 0.5 || d == -0.5 ==> n % 2 == 0);
    GapIs(n as real, raw, unit, d);
  }

  lemma GapIs(n: real, raw: real, unit: real, d: real)
    requires unit > 0.0 && d == n - raw && -0.5 <= d <= 0.5
    ensures var gap := Times(n, unit) - raw * unit;
            && -unit <= gap + gap <= unit && (gap + gap == unit ==> d == 0.5) && (gap + gap == -unit ==> d == -0.5)
  {
    assert Times(n, unit) - raw * unit == Times(d, unit);
    ProductOrder(-0.5, d, unit);
    ProductOrder(d, 0.5, unit);
  }

  lemma RoundedIsNearest(cfg: Config, b: Budget, r: Request)
    ensures NearestTo(cfg, b, r, RoundInt(RawUnits(cfg, b, r)))
  {
    var base := BaseBudget(cfg, b.capital, r);
    BaseBudgetIsSmallest(cfg, b.capital, r);
    RawUnitsAre(cfg, b, r);
    NearestWhole(RawUnits(cfg, b, r), Scaled(b, base), RiskPerUnit(r));
  }

  /** `q` is `n` held to at most `most`, then to at least one and the minimum. */
  predicate Held(n: real, least: real, most: real, q: real) {
    var capped := if n > most then most else n;
    q == if capped >= least && capped >= 1.0 then capped else if least >= 1.0 then least else 1.0
  }

  /**
   The default quantity of an unblocked card, with `m` the maximum: shares take the largest whole quantity within every
   budget in force, contracts the nearest to theirs, or one in static mode; both between the minimum and the maximum.
   */
  ghost predicate DefaultIs(cfg: Config, b: Budget, r: Request, m: real, q: real) {
    if r.assetClass.Shares? then exists n: nat :: LargestWithin(cfg, b, r, n) && Held(n as real, cfg.minShares, m, q)
    else if cfg.staticMode then q == 1.0
    else exists n: int :: NearestTo(cfg, b, r, n) && Held(n as real, cfg.minContracts as real, m, q)
  }

  lemma SharesHeld(cfg: Config, raw: real, m: real)
    requires cfg.minShares > 0.0 && m >= 0.0
    ensures Held(IntMax(0, Trunc(raw)) as real, cfg.minShares, m, ClampBase(cfg, Shares, raw, m))
  {
  }

  lemma ContractsHeld(cfg: Config, raw: real, m: real)
    requires cfg.minContracts >= 1 && Whole(m) && m >= cfg.minContracts as real && !cfg.staticMode
    ensures Held(RoundInt(raw) as real, cfg.minContracts as real, m, ClampBase(cfg, Contracts, raw, m))
  {
    assert Trunc(m) as real == m;
  }

  lemma BaseIs(cfg: Config, b: Budget, r: Request)
    requires PositiveMinimums(cfg) && b.drawdownFactor >= 0.0 && b.macroFactor >= 0.0 && !Blocked(cfg, b, r)
    ensures DefaultIs(cfg, b, r, MaxQty(cfg, b, r), BaseQty(cfg, b, r))
  {
    MaxIsLargest(cfg, b, r);
    var raw, m := RawUnits(cfg, b, r), MaxQty(cfg, b, r);
    if r.assetClass.Shares? {
      WholePartIsLargest(cfg, b, r, IntMax(0, Trunc(raw)));
      SharesHeld(cfg, raw, m);
    } else if !cfg.staticMode {
      RoundedIsNearest(cfg, b, r);
      ContractsHeld(cfg, raw, m);
    }
  }

  // The tiers.

  /** Half a share position: the whole part of half the base, and at least one. */
  predicate HalfOf(base: real, h: real) {
    h >= 1.0 && Whole(h) && (h > 1.0 ==> h + h <= base) && h + h + 2.0 > base
  }

  /** The plans of a base and a maximum: shares offer half where it is less and the maximum where it is more. */
  ghost predicate Offers(assetClass: AssetClass, m: real, base: real, plans: seq<Plan>) {
    if assetClass.Shares? then
      exists h :: HalfOf(base, h) &&
        plans == (if h < base then [Plan("half", h, false)] else []) + [Plan("base", base, true)] +
                 (if m > base then [Plan("max", m, false)] else [])
    else if m < 2.0 then plans == [Plan("base", 1.0, true)]
    else if m < 3.0 then plans == [Plan("half", 1.0, base < 2.0), Plan("base", 2.0, base >= 2.0)]
    else if base < 2.0 then plans == [Plan("base", 1.0, true), Plan("med", 2.0, false), Plan("max", m, false)]
    else plans == [Plan("half", 1.0, false), Plan("base", base, true), Plan("max", m, false)]
  }

  lemma PlansAre(assetClass: AssetClass, m: real, base: real)
    requires 1.0 <= base <= m && Whole(m) && (assetClass.Contracts? ==> Whole(base))
    ensures Offers(assetClass, m, base, Plans(assetClass, m, base))
  {
    if assetClass.Shares? {
      var h := Max(1.0, Trunc(base * 0.5) as real);
      assert HalfOf(base, h);
    }
  }

  /** A tier of a plan: its risk, reward and notional are its quantity's, each to the cent. */
  predicate Prices(r: Request, p: Plan, t: Tier) {
    && t.id == p.id && t.quantity == p.quantity && t.isDefault == p.isDefault
    && t.risk == Round2(Times(p.quantity, RiskPerUnit(r))) && t.notional == Round2(Times(p.quantity, CostPerUnit(r)))
    && t.reward == Round2(Times(p.quantity, Times(r.targetDistance, r.multiplier)))
  }

  lemma TierPrices(r: Request, p: Plan)
    ensures Prices(r, p, TierFor(UnitOf(r), p))
  {
    UnitsAre(r);
    Commutes(RiskPerUnit(r), p.quantity);
    Commutes(CostPerUnit(r), p.quantity);
    Commutes(r.multiplier, r.targetDistance);
    Commutes(Times(r.targetDistance, r.multiplier), p.quantity);
  }

  lemma Commutes(x: real, y: real)
    ensures Extend(x, y) == Times(y, x)
  {
  }

  ghost predicate Priced(r: Request, plans: seq<Plan>, tiers: seq<Tier>) {
    |tiers| == |plans| && forall i :: 0 <= i < |plans| ==> Prices(r, plans[i], tiers[i])
  }

  lemma RowsPriced(r: Request, plans: seq<Plan>)
    ensures Priced(r, plans, Rows(UnitOf(r), plans))
  {
    forall i | 0 <= i < |plans| ensures Prices(r, plans[i], Rows(UnitOf(r), plans)[i]) {
      TierPrices(r, plans[i]);
    }
  }

  ghost predicate TiersShow(r: Request, m: real, base: real, tiers: seq<Tier>) {
    exists plans :: Offers(r.assetClass, m, base, plans) && Priced(r, plans, tiers)
  }

  /** The tiers of an unblocked card are the plans of its default and maximum, priced. */
  lemma TiersAre(cfg: Config, b: Budget, r: Request)
    requires PositiveMinimums(cfg) && !Blocked(cfg, b, r)
    ensures TiersShow(r, LargestQty(cfg, b, r), DefaultQty(cfg, b, r), TiersOf(cfg, b, r))
  {
    var m, base := MaxQty(cfg, b, r), BaseQty(cfg, b, r);
    MaxQtyLaws(cfg, b, r);
    ClampLaws(cfg, r.assetClass, RawUnits(cfg, b, r), m);
    PlansAre(r.assetClass, m, base);
    RowsPriced(r, Plans(r.assetClass, m, base));
  }

  /**
   The sizes of every request: nothing when blocked; otherwise the largest quantity that fits as the maximum, below it
   the default its budgets ask for, and the tiers of both.
   */
  lemma SizesAre(cfg: Config, b: Budget, r: Request)
    requires PositiveMinimums(cfg) && b.drawdownFactor >= 0.0 && b.macroFactor >= 0.0
    ensures var q, m, tiers := DefaultQty(cfg, b, r), LargestQty(cfg, b, r), TiersOf(cfg, b, r);
            if b.drawdownFactor == 0.0 || !SomethingFits(cfg, b, r)
            then q == 0.0 == m && tiers == [Tier("blocked", 0.0, 0.0, 0.0, 0.0, true)]
            else LargestFit(cfg, b, r, m) && DefaultIs(cfg, b, r, m, q) && TiersShow(r, m, q, tiers)
  {
    BlockedIff(cfg, b, r);
    if !Blocked(cfg, b, r) {
      MaxIsLargest(cfg, b, r);
      BaseIs(cfg, b, r);
      TiersAre(cfg, b, r);
    }
  }

  // The shared budget.

  /** The drawdown factor: one up to the threshold, zero from the halt, linear between, never under the floor there. */
  lemma HaircutIs(drawdown: real, p: DrawdownPolicy)
    requires p.threshold < p.halt
    ensures var f := DrawdownFactor(drawdown, p);
            if !p.enabled then f == 1.0
            else if drawdown >= p.halt then f == 0.0
            else if drawdown <= p.threshold then f == 1.0
            else f >= p.floor && Times(f, p.halt - p.threshold) >= p.halt - drawdown
                 && (f == p.floor || Times(f, p.halt - p.threshold) == p.halt - drawdown)
  {
    if p.enabled && p.threshold < drawdown < p.halt {
      Linear(drawdown - p.threshold, p.halt - p.threshold, DrawdownFactor(drawdown, p), p.floor);
    }
  }

  lemma Linear(excess: real, span: real, f: real, floor: real)
    requires span > 0.0 && f == Max(floor, 1.0 - excess / span)
    ensures Times(f, span) >= span - excess && (f == floor || Times(f, span) == span - excess)
  {
    var x := excess / span;
    assert x * span == excess;
    assert (1.0 - x) * span == span - excess;
    assert (f - (1.0 - x)) * span >= 0.0;
  }

  /** The shared dollars: capital times the cap, cut by both factors; the regime cuts to a tenth at most. */
  lemma SharedBudgetIs(capital: real, pct: real, drawdown: real, p: DrawdownPolicy, multiplier: real)
    ensures var b := SharedBudget(capital, pct, drawdown, p, multiplier);
            && b.capital == capital && b.drawdownFactor == DrawdownFactor(drawdown, p)
            && b.macroFactor == (if multiplier < 0.1 then 0.1 else if multiplier > 1.0 then 1.0 else multiplier)
            && b.dollars == Times(Times(Times(capital, pct), b.drawdownFactor), b.macroFactor)
  {
  }

  // A dynamic equity with a default of 500 on a capital of 100000 at one percent.

  const EQUITIES := Config(false, 0.01, 0.0, 500.0, 0, 1, 2000, 1.0, 1000000.0, 1000000.0)
  const HUNDRED_THOUSAND := Budget(100000.0, 1.0, 1.0, 5000.0)
  const DOLLAR_STOP := Request(Shares, 100.0, 1.0, 2.0, 1.0, None, 0.0, None)

  /** The smaller budget decides: 500 shares by default out of 2000. */
  lemma SmallerBudgetDecides()
    ensures DefaultQty(EQUITIES, HUNDRED_THOUSAND, DOLLAR_STOP) == 500.0
    ensures LargestQty(EQUITIES, HUNDRED_THOUSAND, DOLLAR_STOP) == 2000.0
  {
    var cfg, b, r := EQUITIES, HUNDRED_THOUSAND, DOLLAR_STOP;
    assert PerUnitRisk(r) == 1.0 && UnitNotional(r) == 100.0;
    assert MaxQty(cfg, b, r) == 2000.0;
    assert BaseBudget(cfg, b.capital, r) == 500.0;
    assert RawBase(500.0, Extend(1.0, 1.0), 1.0) == 500.0;
  }
}
