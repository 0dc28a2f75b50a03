/**
 How sizing responds to its inputs: tightening any of them never enlarges the default or the max tier.
 */
module SizingLaws {
  import opened Common
  import opened Rounding
  import opened Sizing

  /** A deeper drawdown never raises the drawdown factor. */
  lemma DrawdownFactorFalls(p: DrawdownPolicy, d: real, e: real)
    requires p.threshold < p.halt && 0.0 <= p.floor <= 1.0 && 0.0 <= d <= e
    ensures 0.0 <= DrawdownFactor(e, p) <= DrawdownFactor(d, p) <= 1.0
  {
    if p.enabled && p.threshold < d && e < p.halt {
      QuotientFalls(d - p.threshold, e - p.threshold, p.halt - p.threshold);
    }
    if p.enabled && p.threshold < e < p.halt {
      QuotientFalls(0.0, e - p.threshold, p.halt - p.threshold);
    }
    if p.enabled && p.threshold < d < p.halt {
      QuotientFalls(0.0, d - p.threshold, p.halt - p.threshold);
    }
  }

  lemma QuotientFalls(x: real, y: real, span: real)
    requires 0.0 <= x <= y && span > 0.0
    ensures 0.0 <= x / span <= y / span
  {
    SmallerQuotient(x, y, span, span);
    SmallerQuotient(0.0, x, span, span);
  }

  /** A smaller nonnegative amount over a larger unit is a smaller quotient. */
  lemma SmallerQuotient(x: real, y: real, p: real, q: real)
    requires 0.0 <= x <= y && 0.0 < q <= p
    ensures 0.0 <= x / p <= y / q
  {
    var s, t := x / p, y / q;
    assert s * p == x && t * q == y;
    if s > t {
      assert false;
    }
  }

  lemma WholeUnitsFall(count: real, risk: real, risk': real, unit: real, unit': real, notional: real, notional': real,
                       each: real)
    requires 0.0 <= risk' <= risk && 0.0 < unit <= unit' && 0.0 <= notional' <= notional && each > 0.0
    ensures WholeUnits(count, risk', unit', notional', each) <= WholeUnits(count, risk, unit, notional, each)
  {
    SmallerQuotient(risk', risk, unit', unit);
    SmallerQuotient(notional', notional, each, each);
    TruncMonotone(Min(count, Min(risk' / unit', notional' / each)), Min(count, Min(risk / unit, notional / each)));
  }

  lemma ClampFalls(cfg: Config, assetClass: AssetClass, raw: real, raw': real, maxQty: real, maxQty': real)
    requires (raw' <= raw || (raw' <= 0.0 && raw <= 0.0)) && maxQty' <= maxQty && cfg.minShares >= 0.0
    ensures ClampBase(cfg, assetClass, raw', maxQty') <= ClampBase(cfg, assetClass, raw, maxQty)
  {
    TruncMonotone(maxQty', maxQty);
    if raw' <= raw {
      TruncMonotone(raw', raw);
      RoundIntMonotone(raw', raw);
    }
  }

  lemma RawBaseFalls(budget: real, adjustment: real, adjustment': real, unit: real, unit': real)
    requires 0.0 <= adjustment' <= adjustment && 0.0 < unit <= unit'
    ensures RawBase(budget, adjustment', unit') <= RawBase(budget, adjustment, unit)
            || (RawBase(budget, adjustment', unit') <= 0.0 && RawBase(budget, adjustment, unit) <= 0.0)
  {
    ExtendSigns(budget, adjustment', adjustment);
    if budget >= 0.0 {
      SmallerQuotient(Extend(budget, adjustment'), Extend(budget, adjustment), unit', unit);
    } else {
      NonpositiveQuotient(Extend(budget, adjustment'), unit');
      NonpositiveQuotient(Extend(budget, adjustment), unit);
    }
  }

  lemma ExtendSigns(x: real, y: real, z: real)
    requires 0.0 <= y <= z
    ensures x >= 0.0 ==> 0.0 <= Extend(x, y) <= Extend(x, z)
    ensures x < 0.0 ==> Extend(x, y) <= 0.0 && Extend(x, z) <= 0.0
  {
    assert x >= 0.0 ==> x * (z - y) >= 0.0;
  }

  lemma NonpositiveQuotient(x: real, p: real)
    requires x <= 0.0 && p > 0.0
    ensures x / p <= 0.0
  {
    var s := x / p;
    assert s * p == x;
  }

  /** The inputs of one sizing. */
  datatype Inputs = Inputs(budget: Budget, request: Request)

  /** `q` asks for `r`'s trade with a wider stop, more open notional or a lower cap. */
  ghost predicate Harder(r: Request, q: Request) {
    && q.assetClass == r.assetClass && q.entry == r.entry && q.multiplier == r.multiplier
       && q.targetRisk == r.targetRisk
    && r.multiplier >= 0.0 && q.stopDistance >= r.stopDistance && q.openNotional >= r.openNotional
    && (r.cap.Some? ==> q.cap.Some? && q.cap.value <= r.cap.value) && (q.cap.Some? ==> q.cap.value > 0.0)
  }

  /** `q` asks for `r`'s trade at no less risk per unit, with no less open notional and no higher cap. */
  ghost predicate NoEasier(r: Request, q: Request) {
    && q.assetClass == r.assetClass && q.entry == r.entry && q.multiplier == r.multiplier
       && q.targetRisk == r.targetRisk
    && PerUnitRisk(r) <= PerUnitRisk(q) && q.openNotional >= r.openNotional
    && (r.cap.Some? ==> q.cap.Some? && q.cap.value <= r.cap.value) && (q.cap.Some? ==> q.cap.value > 0.0)
  }

  lemma HarderIsNoEasier(r: Request, q: Request)
    requires Harder(r, q)
    ensures NoEasier(r, q)
  {
    assert (q.stopDistance - r.stopDistance) * r.multiplier >= 0.0;
  }

  /** `tight` differs from `loose` only by a request that is no easier or a smaller budget. */
  ghost predicate Tighter(loose: Inputs, tight: Inputs) {
    var b, c := loose.budget, tight.budget;
    && NoEasier(loose.request, tight.request)
    && c.capital == b.capital && 0.0 <= c.drawdownFactor <= b.drawdownFactor && 0.0 <= c.macroFactor <= b.macroFactor
    && 0.0 <= c.dollars <= b.dollars
  }

  /** Smaller factors give a smaller shared budget. */
  lemma BudgetFalls(capital: real, pct: real, d: real, d': real, m: real, m': real)
    requires capital >= 0.0 && pct >= 0.0 && 0.0 <= d' <= d && 0.0 <= m' <= m
    ensures 0.0 <= BudgetOf(capital, pct, d', m').dollars <= BudgetOf(capital, pct, d, m).dollars
  {
    var base := capital * pct;
    assert base >= 0.0;
    assert 0.0 <= base * d' <= base * d;
    assert 0.0 <= base * d' * m' <= base * d' * m;
    assert base * d' * m <= base * d * m;
  }

  lemma UnitsFall(cfg: Config, loose: Inputs, tight: Inputs)
    requires Tighter(loose, tight) && cfg.maxTradeNotional >= 0.0
    ensures 0.0 <= RiskCeiling(tight.budget, tight.request) <= RiskCeiling(loose.budget, loose.request)
    ensures 0.0 < PerUnitRisk(loose.request) <= PerUnitRisk(tight.request)
    ensures 0.0 <= NotionalCeiling(cfg, tight.request) <= NotionalCeiling(cfg, loose.request)
    ensures UnitNotional(tight.request) == UnitNotional(loose.request)
  {
  }

  /** Tightening never raises the largest quantity. */
  lemma MaxQtyFalls(cfg: Config, loose: Inputs, tight: Inputs)
    requires Tighter(loose, tight) && cfg.maxTradeNotional >= 0.0
    ensures MaxQty(cfg, tight.budget, tight.request) <= MaxQty(cfg, loose.budget, loose.request)
  {
    UnitsFall(cfg, loose, tight);
    WholeUnitsFall(CountCap(cfg, loose.request), RiskCeiling(loose.budget, loose.request),
                   RiskCeiling(tight.budget, tight.request),
                   PerUnitRisk(loose.request), PerUnitRisk(tight.request),
                   NotionalCeiling(cfg, loose.request), NotionalCeiling(cfg, tight.request),
                     UnitNotional(loose.request));
  }

  lemma BaseQtyFalls(cfg: Config, loose: Inputs, tight: Inputs)
    requires Tighter(loose, tight) && cfg.maxTradeNotional >= 0.0 && cfg.minShares >= 0.0
    ensures BaseQty(cfg, tight.budget, tight.request) <= BaseQty(cfg, loose.budget, loose.request)
  {
    var b, r, c, q := loose.budget, loose.request, tight.budget, tight.request;
    MaxQtyFalls(cfg, loose, tight);
    UnitsFall(cfg, loose, tight);
    AdjustmentFalls(b, c);
    var budget := BaseBudget(cfg, b.capital, r);
    RawBaseFalls(budget, Extend(b.drawdownFactor, b.macroFactor), Extend(c.drawdownFactor, c.macroFactor),
                 PerUnitRisk(r), PerUnitRisk(q));
    ClampFalls(cfg, r.assetClass, RawBase(budget, Extend(b.drawdownFactor, b.macroFactor), PerUnitRisk(r)),
               RawBase(budget, Extend(c.drawdownFactor, c.macroFactor), PerUnitRisk(q)), MaxQty(cfg, b, r),
                 MaxQty(cfg, c, q));
  }

  lemma AdjustmentFalls(b: Budget, c: Budget)
    requires 0.0 <= c.drawdownFactor <= b.drawdownFactor && 0.0 <= c.macroFactor <= b.macroFactor
    ensures 0.0 <= Extend(c.drawdownFactor, c.macroFactor) <= Extend(b.drawdownFactor, b.macroFactor)
  {
    assert c.drawdownFactor * c.macroFactor <= c.drawdownFactor * b.macroFactor <= b.drawdownFactor * b.macroFactor;
  }

  /**
   Raising the risk per unit or open notional, or lowering a factor or the cap, never raises the default or the max
   tier's quantity, blocked cards counting as zero.
   */
  lemma TighterNeverSizesUp(cfg: Config, loose: Inputs, tight: Inputs)
    requires Tighter(loose, tight) && cfg.maxTradeNotional >= 0.0 && PositiveMinimums(cfg)
    ensures DefaultQty(cfg, tight.budget, tight.request) <= DefaultQty(cfg, loose.budget, loose.request)
    ensures LargestQty(cfg, tight.budget, tight.request) <= LargestQty(cfg, loose.budget, loose.request)
    ensures Blocked(cfg, loose.budget, loose.request) ==> Blocked(cfg, tight.budget, tight.request)
  {
    MaxQtyFalls(cfg, loose, tight);
    BaseQtyFalls(cfg, loose, tight);
    MaxQtyLaws(cfg, loose.budget, loose.request);
    if !Blocked(cfg, loose.budget, loose.request) {
      ClampLaws(cfg, loose.request.assetClass, RawBase(BaseBudget(cfg, loose.budget.capital, loose.request),
                Extend(loose.budget.drawdownFactor, loose.budget.macroFactor), PerUnitRisk(loose.request)),
                  MaxQty(cfg, loose.budget, loose.request));
    }
  }

  /**
   From the observed figures to the quantities: a deeper drawdown, a lower regime multiplier, a wider stop, more
   open notional or a lower cap, alone or together, never sizes a trade up.
   */
  lemma WorseConditionsNeverSizeUp(cfg: Config, p: DrawdownPolicy, capital: real, pct: real, d: real, e: real, m: real,
                                   n: real,
                                   r: Request, q: Request)
    requires p.threshold < p.halt && 0.0 <= p.floor <= 1.0 && 0.0 <= d <= e && n <= m && capital > 0.0 && pct >= 0.0
    requires Harder(r, q) && cfg.maxTradeNotional >= 0.0 && PositiveMinimums(cfg)
    ensures var calm, stressed := SharedBudget(capital, pct, d, p, m), SharedBudget(capital, pct, e, p, n);
            && stressed.dollars <= calm.dollars <= capital * pct
            && DefaultQty(cfg, stressed, q) <= DefaultQty(cfg, calm, r)
            && LargestQty(cfg, stressed, q) <= LargestQty(cfg, calm, r)
            && (Blocked(cfg, calm, r) ==> Blocked(cfg, stressed, q))
  {
    var calm, stressed := SharedBudget(capital, pct, d, p, m), SharedBudget(capital, pct, e, p, n);
    DrawdownFactorFalls(p, d, e);
    BudgetFalls(capital, pct, DrawdownFactor(d, p), DrawdownFactor(e, p), MacroFactor(m), MacroFactor(n));
    BudgetFalls(capital, pct, 1.0, DrawdownFactor(d, p), 1.0, MacroFactor(m));
    HarderIsNoEasier(r, q);
    TighterNeverSizesUp(cfg, Inputs(calm, r), Inputs(stressed, q));
  }
}
