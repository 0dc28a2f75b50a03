/**
 The native card end to end, from the screened candidate through its levels and sizing to whatever an LLM reply leaves
 on it. On a cent entry no reply breaks the budget or enlarges a size; a sub-penny entry is sized on its stop distance
 rounded to cents, which breaks the one when it rounds down and the other when it rounds up.
 */
module CardLaws {
  import opened Common
  import opened Rounding
  import opened Brackets
  import opened Sizing
  import opened SizingLaws
  import opened Evaluation
  import LlmGate

  /** How levels are computed. */
  datatype LevelPolicy = LevelPolicy(tick: real, minAtrMultiple: real, ratio: real)

  /** Everything else a card depends on. */
  datatype Terms = Terms(
    cfg: Config,
    funds: Funds,
    assetClass: AssetClass,
    multiplier: real,
    targetRisk: Option<real>,
    openNotional: real,
    cap: Option<real>,
    plannedRisk: real,
    stopRiskPct: real)

  /** What the shared per-trade budget is computed from. */
  datatype Funds = Funds(capital: real, riskPctCap: real, drawdown: real, policy: DrawdownPolicy, macroMultiplier: real)
  {
    function Shared(): Budget {
      SharedBudget(capital, riskPctCap, drawdown, policy, macroMultiplier)
    }
  }

  /** What the configuration and the limits taken from it accept; a cap that is not positive raises. */
  predicate Configured(t: Terms) {
    && PositiveMinimums(t.cfg) && t.cfg.maxTradeNotional >= 0.0 && t.cfg.maxPortfolioNotional >= 0.0
    && t.funds.capital > 0.0 && t.funds.riskPctCap >= 0.0 && t.funds.drawdown >= 0.0
    && 0.0 <= t.funds.policy.threshold < t.funds.policy.halt <= 1.0 && 0.0 < t.funds.policy.floor <= 1.0
    && 0.0 < t.stopRiskPct <= 1.0 && (t.cap.Some? ==> t.cap.value > 0.0)
    && t.openNotional >= 0.0 && t.plannedRisk >= 0.0
  }

  function LevelsUnder(p: LevelPolicy, c: Candidate): Levels
    requires p.tick > 0.0
  {
    LevelsOf(c, p.tick, p.minAtrMultiple, p.ratio)
  }

  /** The ATR minimum of a stop's distance. */
  function MinStop(p: LevelPolicy, c: Candidate): real {
    p.minAtrMultiple * c.atr
  }

  /** The deterministic card on given levels. */
  function CardOn(t: Terms, p: LevelPolicy, c: Candidate, l: Levels): Setup {
    var request := Request(t.assetClass, c.entry, l.stopDistance, l.targetDistance, t.multiplier, t.targetRisk,
                           t.openNotional, t.cap);
    Setup(t.cfg, t.funds.Shared(), request, c.direction, l.stopLoss, l.takeProfit, MinStop(p, c), p.ratio, false,
          t.plannedRisk, t.stopRiskPct)
  }

  /** The deterministic card of a candidate. */
  function CardOf(t: Terms, p: LevelPolicy, c: Candidate): Setup
    requires p.tick > 0.0
  {
    CardOn(t, p, c, LevelsUnder(p, c))
  }

  /**
   The gates a card passes before the LLM that read its bracket: a valid intent, reward/risk and planned stop risk.
   */
  predicate Passed(s: Setup) {
    var risk := RiskDistance(s.direction, s.Entry(), s.stopLoss);
    && ValidIntent(s, Bracket(s.stopLoss, s.takeProfit))
    && MeetsRewardRisk(RewardDistance(s.direction, s.Entry(), s.takeProfit), risk, s.requiredRatio)
    && s.plannedRisk + Extend(Extend(s.request.multiplier, risk), DefaultQty(s.cfg, s.budget, s.request))
       <= s.budget.capital * s.stopRiskPct * s.budget.drawdownFactor
  }

  /** The part of those gates that the levels alone decide. */
  predicate SoundLevels(c: Candidate, l: Levels, ratio: real) {
    && c.entry > 0.0 && l.stopLoss > 0.0 && l.takeProfit > 0.0
    && MeetsRewardRisk(RewardDistance(c.direction, c.entry, l.takeProfit),
                       RiskDistance(c.direction, c.entry, l.stopLoss), ratio)
  }

  /** The tier keeps the budget, and the card's own cap, at the card's final stop. */
  predicate TierKeepsBudget(s: Setup, f: LlmGate.Fields, tier: Tier) {
    tier in Tiers(s, FinalCard(s, f)) && tier.quantity > 0.0 ==>
      var risk := StopRisk(s, FinalCard(s, f).bracket.stop, tier.quantity);
      risk <= s.budget.dollars && (s.request.cap.Some? ==> risk <= s.request.cap.value)
  }

  lemma CentCard(t: Terms, p: LevelPolicy, c: Candidate)
    requires CentTick(p.tick) && OnCents(c.entry)
    ensures var s := CardOf(t, p, c); Passed(s) ==> SizedOnActualStop(s) && NotOversized(s)
  {
    CentEntryDistanceIsExact(c, p.tick, p.minAtrMultiple, p.ratio);
    if Passed(CardOf(t, p, c)) {
      ExactDistance(CardOf(t, p, c));
    }
  }

  lemma ExactDistance(s: Setup)
    requires 0.0 < RiskDistance(s.direction, s.Entry(), s.stopLoss) == s.request.stopDistance
    ensures SizedOnActualStop(s) && NotOversized(s)
  {
  }

  lemma ConfiguredIsProper(t: Terms, p: LevelPolicy, c: Candidate, l: Levels)
    requires Configured(t) && t.multiplier > 0.0
    ensures Proper(CardOn(t, p, c, l))
  {
    var d := DrawdownFactor(t.funds.drawdown, t.funds.policy);
    DrawdownFactorFalls(t.funds.policy, t.funds.drawdown, t.funds.drawdown);
    BudgetFalls(t.funds.capital, t.funds.riskPctCap, d, d, MacroFactor(t.funds.macroMultiplier),
                MacroFactor(t.funds.macroMultiplier));
  }

  /**
   End to end on cents: for every candidate with a cent entry, every configuration, budget and open book, and every LLM
   reply, each tier of the final card keeps the per-trade budget and the card's cap at its final stop, and neither the
   default nor the max size is larger than without the reply.
   */
  lemma CentEntriesAreSafe(t: Terms, p: LevelPolicy, c: Candidate, f: LlmGate.Fields, tier: Tier)
    requires CentTick(p.tick) && OnCents(c.entry)
    ensures var s := CardOf(t, p, c);
            Configured(t) && Passed(s) ==> TierKeepsBudget(s, f, tier) && NoLarger(s, FinalCard(s, f))
  {
    if Configured(t) && Passed(CardOf(t, p, c)) {
      CentCard(t, p, c);
      ConfiguredIsProper(t, p, c, LevelsUnder(p, c));
      EveryTierWithinBudget(CardOf(t, p, c), f, tier);
      FinalNeverLarger(CardOf(t, p, c), f);
    }
  }

  // Plain terms: `n` shares at most, ample notional, no drawdown and a budget to choose.

  function PlainConfig(n: nat, notional: real): Config {
    Config(true, 0.0, 0.0, 1.0, n, 1, n, 1.0, notional, notional)
  }

  /** Haircut from 3%, halt at 6%, no less than a tenth. */
  const PLAIN_POLICY := DrawdownPolicy(true, 0.03, 0.06, 0.1)

  /** A per-trade budget of `dollars` out of capital a hundred times `scale`. */
  function PlainFunds(dollars: real, scale: real): Funds
    requires scale != 0.0
  {
    Funds(Extend(scale, 100.0), dollars / Extend(scale, 100.0), 0.0, PLAIN_POLICY, 1.0)
  }

  /** At most `n` shares at `entry`, and planned stop risk up to two per cent of capital. */
  function PlainTerms(n: nat, entry: real, multiplier: real, dollars: real, scale: real): Terms
    requires scale != 0.0
  {
    Terms(PlainConfig(n, Extend(Max(Extend(multiplier, entry), 0.01), n as real)), PlainFunds(dollars, scale), Shares,
          multiplier, None, 0.0, None, 0.0, 0.02)
  }

  lemma PlainFundsShare(dollars: real, scale: real)
    requires 0.0 < dollars && scale > 0.0
    ensures PlainFunds(dollars, scale).Shared() == Budget(Extend(scale, 100.0), 1.0, 1.0, dollars)
    ensures dollars / Extend(scale, 100.0) >= 0.0
  {
    var capital := Extend(scale, 100.0);
    var pct := dollars / capital;
    assert capital * pct == dollars;
    NonnegativeProduct(pct, capital);
  }

  lemma PlainIsConfigured(n: nat, entry: real, multiplier: real, dollars: real, scale: real)
    requires dollars > 0.0 && scale > 0.0
    ensures Configured(PlainTerms(n, entry, multiplier, dollars, scale))
  {
    PlainFundsShare(dollars, scale);
    assert Max(Extend(multiplier, entry), 0.01) * n as real >= 0.0;
  }

  predicate PlainRequest(r: Request) {
    r.assetClass.Shares? && r.targetRisk.None? && r.openNotional == 0.0 && r.cap.None?
  }

  /** A budget of `k` units, or of more than all `n`, sizes the plain card at `k`. */
  lemma PlainSizes(n: nat, k: nat, r: Request, b: Budget)
    requires PlainRequest(r) && 1 <= k <= n && b.drawdownFactor == 1.0 && b.macroFactor == 1.0
    requires Extend(PerUnitRisk(r), k as real) <= b.dollars
    requires k < n ==> b.dollars < Extend(PerUnitRisk(r), k as real + 1.0)
    ensures var cfg := PlainConfig(n, Extend(UnitNotional(r), n as real));
            && PositiveMinimums(cfg) && !Blocked(cfg, b, r) && LargestQty(cfg, b, r) == k as real
            && 1.0 <= DefaultQty(cfg, b, r) <= k as real
  {
    var cfg := PlainConfig(n, Extend(UnitNotional(r), n as real));
    UnitsBetween(PerUnitRisk(r), b.dollars, k, n);
    UnitsExactly(UnitNotional(r), n);
    assert UnitNotional(r) * n as real >= 0.0;
    assert NotionalCeiling(cfg, r) == Extend(UnitNotional(r), n as real);
    assert MaxQty(cfg, b, r) == k as real;
    ClampLaws(cfg, Shares, RawBase(BaseBudget(cfg, b.capital, r), Extend(1.0, 1.0), PerUnitRisk(r)), k as real);
  }

  lemma UnitsBetween(unit: real, dollars: real, k: nat, n: nat)
    requires unit > 0.0 && k <= n && Extend(unit, k as real) <= dollars
    requires k < n ==> dollars < Extend(unit, k as real + 1.0)
    ensures Trunc(Min(n as real, dollars / unit)) == k
  {
    var q := dollars / unit;
    assert Extend(unit, q) == dollars;
    QuotientAtLeast(q, k as real, unit);
    if k < n {
      QuotientBelow(q, k as real + 1.0, unit);
    }
  }

  lemma QuotientAtLeast(q: real, k: real, unit: real)
    requires unit > 0.0 && Extend(unit, k) <= Extend(unit, q)
    ensures k <= q
  {
    NonnegativeProduct(q - k, unit);
    assert (q - k) * unit == Extend(unit, q) - Extend(unit, k);
  }

  lemma QuotientBelow(q: real, k: real, unit: real)
    requires unit > 0.0 && Extend(unit, q) < Extend(unit, k)
    ensures q < k
  {
    NonnegativeProduct(q - k, unit);
    assert (q - k) * unit == Extend(unit, q) - Extend(unit, k);
  }

  lemma UnitsExactly(unit: real, n: nat)
    requires unit > 0.0
    ensures Extend(unit, n as real) / unit == n as real
  {
  }

  /** The largest tier of an unblocked card. */
  lemma LargestTier(cfg: Config, b: Budget, r: Request) returns (tier: Tier)
    requires PositiveMinimums(cfg) && !Blocked(cfg, b, r)
    ensures tier in TiersOf(cfg, b, r) && tier.quantity == LargestQty(cfg, b, r) > 0.0
  {
    UnblockedPlans(cfg, b, r);
    var plans := Plans(r.assetClass, MaxQty(cfg, b, r), BaseQty(cfg, b, r));
    tier := TierFor(UnitOf(r), plans[|plans| - 1]);
    assert Rows(UnitOf(r), plans)[|plans| - 1] == tier;
  }

  // The budget and the recorded distance.

  /** Every card of the candidate at this multiplier keeps its budget, whatever the terms and the reply. */
  ghost predicate KeepsBudget(p: LevelPolicy, c: Candidate, l: Levels, multiplier: real) {
    forall t: Terms, f: LlmGate.Fields, tier: Tier ::
      t.multiplier == multiplier && Configured(t) && Passed(CardOn(t, p, c, l)) ==>
        TierKeepsBudget(CardOn(t, p, c, l), f, tier)
  }

  /** The recorded distance covers the actual one, or both are under the one-cent floor of a unit's risk. */
  predicate Covers(multiplier: real, actual: real, recorded: real) {
    Extend(multiplier, actual) <= Max(Extend(multiplier, recorded), 0.01)
  }

  lemma CoverageSuffices(p: LevelPolicy, c: Candidate, l: Levels, multiplier: real)
    requires multiplier > 0.0 && Covers(multiplier, RiskDistance(c.direction, c.entry, l.stopLoss), l.stopDistance)
    ensures KeepsBudget(p, c, l, multiplier)
  {
    forall t: Terms, f: LlmGate.Fields, tier: Tier
      | t.multiplier == multiplier && Configured(t) && Passed(CardOn(t, p, c, l))
      ensures TierKeepsBudget(CardOn(t, p, c, l), f, tier)
    {
      EveryTierWithinBudget(CardOn(t, p, c, l), f, tier);
    }
  }

  const NO_EDIT := LlmGate.Fields("", LlmGate.Omitted, LlmGate.Omitted)

  /** One share whose budget is exactly its sized risk passes its gates and loses more than that. */
  lemma OneShareLoses(p: LevelPolicy, c: Candidate, l: Levels, multiplier: real)
    requires multiplier > 0.0 && SoundLevels(c, l, p.ratio)
    requires !Covers(multiplier, RiskDistance(c.direction, c.entry, l.stopLoss), l.stopDistance)
    ensures !KeepsBudget(p, c, l, multiplier)
  {
    var loss := Extend(multiplier, RiskDistance(c.direction, c.entry, l.stopLoss));
    var unit := Max(Extend(multiplier, l.stopDistance), 0.01);
    var t := PlainTerms(1, c.entry, multiplier, unit, loss);
    var s := CardOn(t, p, c, l);
    PlainFundsShare(unit, loss);
    PlainIsConfigured(1, c.entry, multiplier, unit, loss);
    UnitProduct(unit);
    PlainSizes(1, 1, s.request, s.budget);
    UnitProduct(loss);
    assert Extend(loss, 100.0) * 0.02 * 1.0 == 2.0 * loss;
    assert Passed(s);
    var tier := LargestTier(s.cfg, s.budget, s.request);
    NoEditKeepsCard(s);
    assert StopRisk(s, s.stopLoss, tier.quantity) == loss;
    assert !TierKeepsBudget(s, NO_EDIT, tier);
  }

  lemma UnitProduct(x: real)
    ensures Extend(x, 1.0) == x
  {
  }

  lemma NoEditKeepsCard(s: Setup)
    ensures FinalCard(s, NO_EDIT) == Deterministic(s)
  {
  }

  /**
   A candidate's cards all keep their budgets, under any terms and any reply, exactly when its levels pass no gate at
   all or the recorded stop distance covers the actual one.
   */
  lemma KeepsBudgetIff(p: LevelPolicy, c: Candidate, multiplier: real)
    requires p.tick > 0.0 && multiplier > 0.0
    ensures var l := LevelsUnder(p, c);
            KeepsBudget(p, c, l, multiplier) <==>
              (SoundLevels(c, l, p.ratio) ==>
                Covers(multiplier, RiskDistance(c.direction, c.entry, l.stopLoss), l.stopDistance))
  {
    var l := LevelsUnder(p, c);
    if Covers(multiplier, RiskDistance(c.direction, c.entry, l.stopLoss), l.stopDistance) {
      CoverageSuffices(p, c, l, multiplier);
    } else if SoundLevels(c, l, p.ratio) {
      OneShareLoses(p, c, l, multiplier);
    } else {
      NothingPasses(p, c, l, multiplier);
    }
  }

  lemma NothingPasses(p: LevelPolicy, c: Candidate, l: Levels, multiplier: real)
    requires !SoundLevels(c, l, p.ratio)
    ensures KeepsBudget(p, c, l, multiplier)
  {
    forall t: Terms ensures !Passed(CardOn(t, p, c, l)) {
    }
  }

  // The condition on the entry itself.

  predicate HalfCent(x: real) {
    x * 100.0 - (x * 100.0).Floor as real == 0.5
  }

  lemma RoundIntShifts(x: real, k: int)
    requires x - x.Floor as real != 0.5
    ensures RoundInt(x - k as real) == RoundInt(x) - k && RoundInt(k as real - x) == k - RoundInt(x)
  {
    assert (x - k as real).Floor == x.Floor - k;
    if x == x.Floor as real {
      assert (k as real - x).Floor == k - x.Floor;
    } else {
      assert (k as real - x).Floor == k - x.Floor - 1;
    }
  }

  lemma Round2Shifts(x: real, y: real)
    requires OnCents(y) && !HalfCent(x)
    ensures Round2(x - y) == Round2(x) - y && Round2(y - x) == y - Round2(x)
  {
    var k := (y * 100.0).Floor;
    RoundIntShifts(x * 100.0, k);
    assert (x - y) * 100.0 == x * 100.0 - k as real;
    assert (y - x) * 100.0 == k as real - x * 100.0;
  }

  /** The stop is a cent price and the recorded distance is the actual one rounded to cents, whatever the tick. */
  lemma LevelsOnCents(p: LevelPolicy, c: Candidate)
    requires p.tick > 0.0
    ensures var l := LevelsUnder(p, c);
            OnCents(l.stopLoss) && l.stopDistance == Round2(RiskDistance(c.direction, c.entry, l.stopLoss))
  {
  }

  /** How far the recorded distance is off is how far the entry is off its nearest cent. */
  lemma RecordedFollowsEntry(p: LevelPolicy, c: Candidate)
    requires p.tick > 0.0 && !HalfCent(c.entry)
    ensures var l := LevelsUnder(p, c);
            l.stopDistance - RiskDistance(c.direction, c.entry, l.stopLoss) ==
              if c.direction.Long? then Round2(c.entry) - c.entry else c.entry - Round2(c.entry)
  {
    LevelsOnCents(p, c);
    Round2Shifts(c.entry, LevelsUnder(p, c).stopLoss);
  }

  /** A long entry not above its nearest cent, or a short one not below it. */
  predicate EntryRoundsOut(direction: Direction, entry: real) {
    if direction.Long? then entry <= Round2(entry) else Round2(entry) <= entry
  }

  /**
   The budget is kept exactly when the entry rounds away from the stop, save for levels that pass no
   gate and units that risk at most a cent; an exact half cent rounds by the parity of the stop.
   */
  lemma KeepsBudgetIffEntryRoundsOut(p: LevelPolicy, c: Candidate, multiplier: real)
    requires p.tick > 0.0 && multiplier > 0.0 && !HalfCent(c.entry)
    ensures var l := LevelsUnder(p, c);
            KeepsBudget(p, c, l, multiplier) <==>
              || !SoundLevels(c, l, p.ratio) || EntryRoundsOut(c.direction, c.entry)
              || Extend(multiplier, RiskDistance(c.direction, c.entry, l.stopLoss)) <= 0.01
  {
    var l := LevelsUnder(p, c);
    KeepsBudgetIff(p, c, multiplier);
    RecordedFollowsEntry(p, c);
    CoversIff(multiplier, RiskDistance(c.direction, c.entry, l.stopLoss), l.stopDistance);
  }

  lemma CoversIff(multiplier: real, actual: real, recorded: real)
    requires multiplier > 0.0
    ensures Covers(multiplier, actual, recorded) <==> actual <= recorded || Extend(multiplier, actual) <= 0.01
  {
    if actual <= recorded {
      WiderIsMore(multiplier, actual, recorded);
    } else {
      assert multiplier * (actual - recorded) > 0.0;
      assert Extend(multiplier, recorded) < Extend(multiplier, actual);
    }
  }

  // Sub-penny candidates.

  const CENT_LEVELS := LevelPolicy(0.01, 1.5, 2.0)

  /** A long at `entry` whose swing low puts the stop at 99.00. */
  function LongAt(entry: real): Candidate {
    Candidate(Long, entry, 0.0, 99.02, 0.0)
  }

  lemma StopAt99(entry: real)
    requires 100.0 < entry < 101.0
    ensures LevelsUnder(CENT_LEVELS, LongAt(entry)).stopLoss == 99.0
    ensures LevelsUnder(CENT_LEVELS, LongAt(entry)).stopDistance == Round2(entry - 99.0)
  {
    assert RequiredDistance(LongAt(entry), 0.01, 1.5) == entry - 99.0;
    assert RoundInt(99.0 / 0.01) == 9900;
    assert Ticks(9900, 0.01) == 99.0;
    WholeCents(99.0, 9900);
    Round2OnCents(99.0);
  }

  lemma SoundAt(entry: real)
    requires 100.0 < entry < 101.0
    ensures SoundLevels(LongAt(entry), LevelsUnder(CENT_LEVELS, LongAt(entry)), 2.0)
  {
    StopAt99(entry);
    WholeCents(0.01, 1);
    WholeCents(2.0, 200);
    NativeBracketMeetsRatio(LongAt(entry), 0.01, 1.5, 2.0);
    LevelsMeetTheirDistances(LongAt(entry), 0.01, 1.5, 2.0);
  }

  /** An entry of 100.004 is sized on 1.00 but loses 1.004: a card that passes every gate breaks its budget. */
  lemma SubPennyEntryOversizes(multiplier: real)
    requires multiplier >= 0.01
    ensures !KeepsBudget(CENT_LEVELS, LongAt(100.004), LevelsUnder(CENT_LEVELS, LongAt(100.004)), multiplier)
  {
    StopAt99(100.004);
    SoundAt(100.004);
    assert RoundInt(1.004 * 100.0) == 100;
    CoversIff(multiplier, 1.004, 1.0);
    WiderIsMore(1.004, 0.01, multiplier);
    KeepsBudgetIff(CENT_LEVELS, LongAt(100.004), multiplier);
  }
}
