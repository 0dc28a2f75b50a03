/**
 Position sizing (`agent/position_sizing.py`) under the shared per-trade budget (`risk/capital.py`): whole-unit
 quantities, tiers and their bounds.
 */
module Sizing {
  import opened Common
  import opened Rounding

  datatype DrawdownPolicy = DrawdownPolicy(enabled: bool, threshold: real, halt: real, floor: real)

  /** `drawdown_risk_factor` for a nonnegative drawdown. */
  function DrawdownFactor(drawdown: real, p: DrawdownPolicy): real {
    if !p.enabled then 1.0
    else if drawdown >= p.halt then 0.0
    else if drawdown <= p.threshold then 1.0
    else Max(p.floor, 1.0 - (drawdown - p.threshold) / (p.halt - p.threshold))
  }

  /** `macro_risk_factor`: scales risk down, never up. */
  function MacroFactor(multiplier: real): real {
    Max(0.1, Min(1.0, multiplier))
  }

  datatype Budget = Budget(capital: real, drawdownFactor: real, macroFactor: real, dollars: real)

  /** `per_trade_risk_budget` on validated capital. */
  function BudgetOf(capital: real, riskPctCap: real, drawdownFactor: real, macroFactor: real): Budget {
    Budget(capital, drawdownFactor, macroFactor, capital * riskPctCap * drawdownFactor * macroFactor)
  }

  /** The shared budget from the observed drawdown and the regime's multiplier. */
  function SharedBudget(capital: real, riskPctCap: real, drawdown: real, p: DrawdownPolicy, multiplier: real): Budget {
    BudgetOf(capital, riskPctCap, DrawdownFactor(drawdown, p), MacroFactor(multiplier))
  }

  datatype Config = Config(
    staticMode: bool,
    targetRiskPct: real,
    targetFuturesRisk: real,
    defaultEquityRisk: real,
    maxContracts: nat,
    minContracts: int,
    maxShares: nat,
    minShares: real,
    maxTradeNotional: real,
    maxPortfolioNotional: real)

  datatype Request = Request(
    assetClass: AssetClass,
    entry: real,
    stopDistance: real,
    targetDistance: real,
    multiplier: real,
    targetRisk: Option<real>,
    openNotional: real,
    cap: Option<real>)

  /** A per-unit figure extended over a quantity. */
  function Extend(unit: real, quantity: real): real {
    unit * quantity
  }

  function PerUnitRisk(r: Request): (u: real)
    ensures u >= 0.01 && u >= Extend(r.multiplier, r.stopDistance)
  {
    Max(Extend(r.multiplier, r.stopDistance), 0.01)
  }

  function UnitNotional(r: Request): (u: real)
    ensures u >= 0.01
  {
    Max(Extend(r.multiplier, r.entry), 0.01)
  }

  /** The risk ceiling in dollars: the shared budget, lowered by a card's own cap. */
  function RiskCeiling(b: Budget, r: Request): (d: real)
    ensures d <= b.dollars && (r.cap.Some? ==> d <= r.cap.value)
  {
    if r.cap.Some? && r.cap.value < b.dollars then r.cap.value else b.dollars
  }

  function RemainingNotional(cfg: Config, r: Request): real {
    Max(0.0, cfg.maxPortfolioNotional - r.openNotional)
  }

  function NotionalCeiling(cfg: Config, r: Request): real {
    Min(cfg.maxTradeNotional, RemainingNotional(cfg, r))
  }

  function CountCap(cfg: Config, r: Request): real {
    (if r.assetClass.Shares? then cfg.maxShares else cfg.maxContracts) as real
  }

  function Minimum(cfg: Config, r: Request): real {
    if r.assetClass.Shares? then cfg.minShares else cfg.minContracts as real
  }

  /** The whole units three limits allow. */
  function WholeUnits(count: real, risk: real, perUnit: real, notional: real, unitNotional: real): (q: real)
    requires perUnit > 0.0 && unitNotional > 0.0
  {
    Max(0.0, Trunc(Min(count, Min(risk / perUnit, notional / unitNotional))) as real)
  }

  function MaxQty(cfg: Config, b: Budget, r: Request): real {
    WholeUnits(CountCap(cfg, r), RiskCeiling(b, r), PerUnitRisk(r), NotionalCeiling(cfg, r), UnitNotional(r))
  }

  predicate Blocked(cfg: Config, b: Budget, r: Request) {
    b.drawdownFactor == 0.0 || MaxQty(cfg, b, r) < Minimum(cfg, r)
  }

  predicate Truthy(x: real) {
    x != 0.0
  }

  /** The target budget of the base tier, before the drawdown and macro factors. */
  function BaseBudget(cfg: Config, capital: real, r: Request): real {
    if r.targetRisk.Some? && Truthy(r.targetRisk.value) then r.targetRisk.value
    else if r.assetClass.Shares? then
      if cfg.staticMode then if Truthy(cfg.defaultEquityRisk) then cfg.defaultEquityRisk else 500.0
      else if Truthy(cfg.defaultEquityRisk) then
        var budget := Min(cfg.defaultEquityRisk, capital * cfg.targetRiskPct);
        if budget <= 0.0 then cfg.defaultEquityRisk else budget
      else capital * cfg.targetRiskPct
    else if Truthy(cfg.targetFuturesRisk) then cfg.targetFuturesRisk
    else capital * cfg.targetRiskPct
  }

  function IntMax(x: int, y: int): int {
    if x >= y then x else y
  }

  function IntMin(x: int, y: int): int {
    if x <= y then x else y
  }

  /** The standard quantity for a raw one, clamped between the minimum and the maximum. */
  function ClampBase(cfg: Config, assetClass: AssetClass, raw: real, maxQty: real): real {
    if assetClass.Shares? then Max(1.0, Max(cfg.minShares, Min(maxQty, Trunc(raw) as real)))
    else if cfg.staticMode then 1.0
    else IntMax(cfg.minContracts, IntMin(Trunc(maxQty), IntMax(1, RoundInt(raw)))) as real
  }

  function RawBase(budget: real, adjustment: real, perUnit: real): real
    requires perUnit > 0.0
  {
    Extend(budget, adjustment) / perUnit
  }

  function BaseQty(cfg: Config, b: Budget, r: Request): real {
    ClampBase(cfg, r.assetClass,
              RawBase(BaseBudget(cfg, b.capital, r), Extend(b.drawdownFactor, b.macroFactor), PerUnitRisk(r)),
                MaxQty(cfg, b, r))
  }

  datatype Plan = Plan(id: string, quantity: real, isDefault: bool)

  /** Which tiers a card offers, in order. */
  function Plans(assetClass: AssetClass, maxQty: real, baseQty: real): seq<Plan> {
    if assetClass.Shares? then
      var half := Max(1.0, Trunc(baseQty * 0.5) as real);
      if maxQty > baseQty > half then
        [Plan("half", half, false), Plan("base", baseQty, true), Plan("max", maxQty, false)]
      else if maxQty > baseQty then [Plan("base", baseQty, true), Plan("max", maxQty, false)]
      else if baseQty > half then [Plan("half", half, false), Plan("base", baseQty, true)]
      else [Plan("base", baseQty, true)]
    else
      var m, n := Trunc(maxQty), Trunc(baseQty);
      if m >= 3 && n >= 2 then [Plan("half", 1.0, false), Plan("base", n as real, true), Plan("max", m as real, false)]
      else if m >= 3 && n == 1 then [Plan("base", 1.0, true), Plan("med", 2.0, false), Plan("max", m as real, false)]
      else if m == 2 then [Plan("half", 1.0, n == 1), Plan("base", 2.0, n == 2)]
      else [Plan("base", 1.0, true)]
  }

  datatype Tier = Tier(id: string, quantity: real, risk: real, reward: real, notional: real, isDefault: bool)

  /** What one unit risks, earns and costs. */
  datatype Unit = Unit(risk: real, reward: real, notional: real)

  function UnitOf(r: Request): Unit {
    Unit(PerUnitRisk(r), Extend(r.multiplier, r.targetDistance), UnitNotional(r))
  }

  /** The tier builder's row for a quantity. */
  function TierFor(u: Unit, p: Plan): Tier {
    Tier(p.id, p.quantity, Round2(Extend(u.risk, p.quantity)), Round2(Extend(u.reward, p.quantity)),
         Round2(Extend(u.notional, p.quantity)), p.isDefault)
  }

  const BLOCKED_TIER := Tier("blocked", 0.0, 0.0, 0.0, 0.0, true)

  datatype SizingResult = SizingResult(defaultTier: Tier, maxTier: Tier, tiers: seq<Tier>)

  /** One default at the base quantity, nondecreasing positive quantities, the last one the largest allowed. */
  ghost predicate SoundPlans(plans: seq<Plan>, maxQty: real, baseQty: real) {
    && plans != []
    && (forall i, j :: 0 <= i < j < |plans| ==> plans[i].quantity <= plans[j].quantity)
    && plans[0].quantity > 0.0 && plans[|plans| - 1].quantity == maxQty
    && (forall i :: 0 <= i < |plans| && plans[i].id == "max" ==> i == |plans| - 1)
    && (exists d :: DefaultAt(plans, d, baseQty))
  }

  ghost predicate DefaultAt(plans: seq<Plan>, d: int, baseQty: real) {
    0 <= d < |plans| && plans[d].quantity == baseQty && forall i :: 0 <= i < |plans| ==> (plans[i].isDefault <==>
      i == d)
  }

  ghost predicate StrictlyIncreasing(plans: seq<Plan>) {
    forall i, j :: 0 <= i < j < |plans| ==> plans[i].quantity < plans[j].quantity
  }

  predicate Whole(x: real) {
    x.Floor as real == x
  }

  lemma PlansAreSound(assetClass: AssetClass, maxQty: real, baseQty: real)
    requires 1.0 <= baseQty <= maxQty && Whole(maxQty) && (assetClass.Contracts? ==> Whole(baseQty))
    ensures SoundPlans(Plans(assetClass, maxQty, baseQty), maxQty, baseQty)
    ensures StrictlyIncreasing(Plans(assetClass, maxQty, baseQty)) <==>
              !(assetClass.Contracts? && baseQty == maxQty >= 3.0)
  {
    var plans := Plans(assetClass, maxQty, baseQty);
    if assetClass.Shares? {
      var half := Max(1.0, Trunc(baseQty * 0.5) as real);
      assert DefaultAt(plans, if baseQty > half then 1 else 0, baseQty);
    } else {
      var m, n := Trunc(maxQty), Trunc(baseQty);
      assert DefaultAt(plans, if m >= 3 && n == 1 then 0 else if m >= 3 then 1 else if m == 2 && n == 2 then 1
             else 0, baseQty);
      if m >= 3 && n == m {
        assert plans[1].quantity == plans[2].quantity;
      }
    }
  }

  lemma WholeUnitsLaws(count: real, risk: real, perUnit: real, notional: real, unitNotional: real)
    requires perUnit > 0.0 && unitNotional > 0.0 && Whole(count) && count >= 0.0
    ensures var q := WholeUnits(count, risk, perUnit, notional, unitNotional);
            && q >= 0.0 && Whole(q) && q <= count
            && (q > 0.0 ==> Extend(perUnit, q) <= risk && Extend(unitNotional, q) <= notional)
  {
    var q := WholeUnits(count, risk, perUnit, notional, unitNotional);
    if q > 0.0 {
      AtMostQuotient(q, risk, perUnit);
      AtMostQuotient(q, notional, unitNotional);
    }
  }

  lemma AtMostQuotient(q: real, total: real, unit: real)
    requires unit > 0.0 && q <= total / unit
    ensures Extend(unit, q) <= total
  {
    var x := total / unit;
    assert x * unit == total;
    assert (x - q) * unit >= 0.0;
  }

  /** What `sizing_cfg` must satisfy for the tiers to make sense: a positive minimum on either side. */
  predicate PositiveMinimums(cfg: Config) {
    cfg.minShares > 0.0 && cfg.minContracts >= 1
  }

  lemma MaxQtyLaws(cfg: Config, b: Budget, r: Request)
    ensures var q := MaxQty(cfg, b, r);
            && q >= 0.0 && Whole(q)
            && (q > 0.0 ==>
                 Extend(PerUnitRisk(r), q) <= RiskCeiling(b, r)
                   && Extend(UnitNotional(r), q) <= NotionalCeiling(cfg, r))
  {
    WholeUnitsLaws(CountCap(cfg, r), RiskCeiling(b, r), PerUnitRisk(r), NotionalCeiling(cfg, r), UnitNotional(r));
  }

  lemma ClampLaws(cfg: Config, assetClass: AssetClass, raw: real, maxQty: real)
    requires PositiveMinimums(cfg) && Whole(maxQty)
    requires maxQty >= if assetClass.Shares? then cfg.minShares else cfg.minContracts as real
    ensures var base := ClampBase(cfg, assetClass, raw, maxQty);
            1.0 <= base <= maxQty && (assetClass.Contracts? ==> Whole(base))
  {
    assert maxQty >= 1.0;
  }

  /** An unblocked card's plans are sound: base and max are what the formulas say, and nothing exceeds max. */
  lemma UnblockedPlans(cfg: Config, b: Budget, r: Request)
    requires PositiveMinimums(cfg) && !Blocked(cfg, b, r)
    ensures SoundPlans(Plans(r.assetClass, MaxQty(cfg, b, r), BaseQty(cfg, b, r)), MaxQty(cfg, b, r),
                       BaseQty(cfg, b, r))
    ensures StrictlyIncreasing(Plans(r.assetClass, MaxQty(cfg, b, r), BaseQty(cfg, b, r))) <==>
            !(r.assetClass.Contracts? && BaseQty(cfg, b, r) == MaxQty(cfg, b, r) >= 3.0)
    ensures MaxQty(cfg, b, r) >= 1.0
  {
    MaxQtyLaws(cfg, b, r);
    ClampLaws(cfg, r.assetClass,
              RawBase(BaseBudget(cfg, b.capital, r), Extend(b.drawdownFactor, b.macroFactor), PerUnitRisk(r)),
                MaxQty(cfg, b, r));
    PlansAreSound(r.assetClass, MaxQty(cfg, b, r), BaseQty(cfg, b, r));
  }

  /**
   The tier-building loop: rows in plan order, the default the marked one, the max the last row labelled so or
   at least as large as any before it.
   */
  method BuildTiers(plans: seq<Plan>, u: Unit, ghost maxQty: real, ghost baseQty: real) returns (s: SizingResult)
    requires SoundPlans(plans, maxQty, baseQty)
    ensures |s.tiers| == |plans| && forall i :: 0 <= i < |plans| ==> s.tiers[i] == TierFor(u, plans[i])
    ensures s.defaultTier in s.tiers && s.defaultTier.isDefault && s.defaultTier.quantity == baseQty
    ensures s.maxTier == s.tiers[|s.tiers| - 1] && s.maxTier.quantity == maxQty
  {
    var tiers: seq<Tier> := [];
    var defaultTier: Option<Tier>, maxTier: Option<Tier> := None, None;
    for i := 0 to |plans|
      invariant |tiers| == i && forall k :: 0 <= k < i ==> tiers[k] == TierFor(u, plans[k])
      invariant if i == 0 then maxTier.None? else defaultTier.Some? && maxTier == Some(tiers[i - 1])
      invariant forall k :: 0 <= k < i && plans[k].isDefault ==> defaultTier == Some(tiers[k])
    {
      var tier := TierFor(u, plans[i]);
      assert i > 0 ==> maxTier.value.quantity == plans[i - 1].quantity <= plans[i].quantity;
      tiers := tiers + [tier];
      if plans[i].isDefault || defaultTier.None? {
        defaultTier := Some(tier);
      }
      if plans[i].id == "max" || maxTier.None? || plans[i].quantity >= maxTier.value.quantity {
        maxTier := Some(tier);
      }
    }
    ghost var d :| DefaultAt(plans, d, baseQty);
    assert defaultTier == Some(tiers[d]);
    s := SizingResult(defaultTier.value, maxTier.value, tiers);
  }

  /** `calculate_dynamic_sizing`; nothing where a card's cap is not positive, which raises. */
  method CalculateSizing(cfg: Config, b: Budget, r: Request) returns (result: Option<SizingResult>)
    requires PositiveMinimums(cfg)
    ensures result.None? <==> r.cap.Some? && r.cap.value <= 0.0
    ensures result.Some? ==>
              var s := result.value;
              && s.tiers == TiersOf(cfg, b, r) && s.defaultTier in s.tiers && s.maxTier in s.tiers
              && s.defaultTier.quantity == DefaultQty(cfg, b, r) && s.maxTier.quantity == LargestQty(cfg, b, r)
              && (r.cap.Some? ==> Extend(PerUnitRisk(r), s.maxTier.quantity) <= r.cap.value)
  {
    if r.cap.Some? && !(r.cap.value > 0.0) {
      return None;
    }
    if Blocked(cfg, b, r) {
      return Some(SizingResult(BLOCKED_TIER, BLOCKED_TIER, [BLOCKED_TIER]));
    }
    UnblockedPlans(cfg, b, r);
    MaxQtyLaws(cfg, b, r);
    var s := BuildTiers(Plans(r.assetClass, MaxQty(cfg, b, r), BaseQty(cfg, b, r)), UnitOf(r), MaxQty(cfg, b, r),
                        BaseQty(cfg, b, r));
    result := Some(s);
  }

  /** The default quantity of the result: the base quantity, or nothing when blocked. */
  function DefaultQty(cfg: Config, b: Budget, r: Request): real {
    if Blocked(cfg, b, r) then 0.0 else BaseQty(cfg, b, r)
  }

  function LargestQty(cfg: Config, b: Budget, r: Request): real {
    if Blocked(cfg, b, r) then 0.0 else MaxQty(cfg, b, r)
  }

  function TiersOf(cfg: Config, b: Budget, r: Request): seq<Tier> {
    if Blocked(cfg, b, r) then [BLOCKED_TIER]
    else Rows(UnitOf(r), Plans(r.assetClass, MaxQty(cfg, b, r), BaseQty(cfg, b, r)))
  }

  function Rows(u: Unit, plans: seq<Plan>): seq<Tier> {
    seq(|plans|, i requires 0 <= i < |plans| => TierFor(u, plans[i]))
  }

  lemma RowsWithinMax(u: Unit, plans: seq<Plan>, maxQty: real, baseQty: real, t: Tier)
    requires SoundPlans(plans, maxQty, baseQty) && t in Rows(u, plans)
    ensures 0.0 < t.quantity <= maxQty
    ensures t.notional == Round2(Extend(u.notional, t.quantity)) && t.risk == Round2(Extend(u.risk, t.quantity))
  {
    var i :| 0 <= i < |plans| && t == TierFor(u, plans[i]);
    assert i < |plans| - 1 ==> plans[i].quantity <= plans[|plans| - 1].quantity;
    assert i > 0 ==> plans[0].quantity <= plans[i].quantity;
  }

  ghost predicate IncreasingTiers(tiers: seq<Tier>) {
    forall i, j :: 0 <= i < j < |tiers| ==> tiers[i].quantity < tiers[j].quantity
  }

  /** A card's tiers strictly increase, save exactly when futures base and max quantities coincide at three or more. */
  lemma TiersIncreaseIff(cfg: Config, b: Budget, r: Request)
    requires PositiveMinimums(cfg)
    ensures IncreasingTiers(TiersOf(cfg, b, r)) <==>
            !(!Blocked(cfg, b, r) && r.assetClass.Contracts? && BaseQty(cfg, b, r) == MaxQty(cfg, b, r) >= 3.0)
  {
    if !Blocked(cfg, b, r) {
      UnblockedPlans(cfg, b, r);
      var plans := Plans(r.assetClass, MaxQty(cfg, b, r), BaseQty(cfg, b, r));
      var tiers := TiersOf(cfg, b, r);
      assert |tiers| == |plans| && forall i :: 0 <= i < |plans| ==> tiers[i].quantity == plans[i].quantity;
      assert IncreasingTiers(tiers) <==> StrictlyIncreasing(plans);
    }
  }

  /** Three contracts at most, with a target and a budget of three contracts' risk. */
  const THREE_CONTRACTS := Config(false, 0.0, 300.0, 0.0, 3, 1, 0, 1.0, 1000.0, 1000.0)
  const THREE_BUDGET := Budget(1000.0, 1.0, 1.0, 300.0)
  const FUTURES_REQUEST := Request(Contracts, 100.0, 100.0, 100.0, 1.0, None, 0.0, None)

  /** Its tiers are one, three and three contracts. */
  lemma FuturesTiersRepeat()
    ensures PositiveMinimums(THREE_CONTRACTS) && !Blocked(THREE_CONTRACTS, THREE_BUDGET, FUTURES_REQUEST)
    ensures var tiers := TiersOf(THREE_CONTRACTS, THREE_BUDGET, FUTURES_REQUEST);
            |tiers| == 3 && tiers[0].quantity == 1.0 && tiers[1].quantity == 3.0 && tiers[2].quantity == 3.0
  {
    var cfg, b, r := THREE_CONTRACTS, THREE_BUDGET, FUTURES_REQUEST;
    assert PerUnitRisk(r) == 100.0 && UnitNotional(r) == 100.0;
    assert MaxQty(cfg, b, r) == 3.0;
    assert RawBase(300.0, Extend(1.0, 1.0), 100.0) == 3.0;
    assert BaseQty(cfg, b, r) == 3.0;
  }

  /** No tier offered exceeds the largest quantity. */
  lemma TiersAtMostLargest(cfg: Config, b: Budget, r: Request, t: Tier)
    requires PositiveMinimums(cfg) && t in TiersOf(cfg, b, r)
    ensures 0.0 <= t.quantity <= LargestQty(cfg, b, r)
    ensures t.quantity > 0.0 <==> !Blocked(cfg, b, r)
    ensures !Blocked(cfg, b, r) ==>
              t.notional == Round2(Extend(UnitNotional(r), t.quantity))
                && t.risk == Round2(Extend(PerUnitRisk(r), t.quantity))
  {
    if !Blocked(cfg, b, r) {
      UnblockedPlans(cfg, b, r);
      RowsWithinMax(UnitOf(r), Plans(r.assetClass, MaxQty(cfg, b, r), BaseQty(cfg, b, r)), MaxQty(cfg, b, r),
                    BaseQty(cfg, b, r), t);
    }
  }

  /** Every tier fits the per-trade budget and the card's cap, unrounded, and the remaining notional. */
  lemma TiersFitTheirCeilings(cfg: Config, b: Budget, r: Request, t: Tier)
    requires PositiveMinimums(cfg) && t in TiersOf(cfg, b, r) && t.quantity > 0.0
    ensures Extend(PerUnitRisk(r), t.quantity) <= b.dollars
    ensures r.cap.Some? ==> Extend(PerUnitRisk(r), t.quantity) <= r.cap.value
    ensures Extend(UnitNotional(r), t.quantity) <= NotionalCeiling(cfg, r)
  {
    TiersAtMostLargest(cfg, b, r, t);
    MaxQtyLaws(cfg, b, r);
    var q := MaxQty(cfg, b, r);
    SmallerProduct(t.quantity, q, PerUnitRisk(r));
    SmallerProduct(t.quantity, q, UnitNotional(r));
  }

  lemma SmallerProduct(x: real, y: real, unit: real)
    requires x <= y && unit >= 0.0
    ensures Extend(unit, x) <= Extend(unit, y)
  {
    assert (y - x) * unit >= 0.0;
  }
}
