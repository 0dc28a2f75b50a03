/**
 The evaluator's gate stage (`evaluate_candidate`, `_final_bracket`): what an LLM reply may do to a sized card.
 */
module Evaluation {
  import opened Common
  import opened Rounding
  import opened Brackets
  import opened Sizing
  import opened SizingLaws
  import LlmGate

  /** A deterministic card that passed its gates, and what the final-bracket check reads. */
  datatype Setup = Setup(
    cfg: Config,
    budget: Budget,
    request: Request,
    direction: Direction,
    stopLoss: real,
    takeProfit: real,
    minStopDistance: real,
    requiredRatio: real,
    policyLocked: bool,
    plannedRisk: real,
    stopRiskPct: real)
  {
    function Entry(): real {
      request.entry
    }

    /** The request resized at another bracket. */
    function Resized(stop: real, target: real): Request {
      request.(stopDistance := RiskDistance(direction, Entry(), stop),
               targetDistance := RewardDistance(direction, Entry(), target))
    }
  }

  datatype Bracket = Bracket(stop: real, target: real)

  /** The bracket on the final card and the request its tiers were built from. */
  datatype Final = Final(bracket: Bracket, sizedFrom: Request)

  function Deterministic(s: Setup): Final {
    Final(Bracket(s.stopLoss, s.takeProfit), s.request)
  }

  function Distance(s: Setup, price: real): real {
    Abs(s.Entry() - price)
  }

  function Ratio(reward: real, risk: real): real {
    if risk > 0.0 then Round2(reward / risk) else 2.0
  }

  /** The stop and the distance it counts with: a proposal nearer than the ATR minimum falls back. */
  function ProposedStop(s: Setup, level: LlmGate.Level): (real, real)
    requires !level.NonFinite?
  {
    var stop := if level.Finite? then level.price else s.stopLoss;
    if Distance(s, stop) < s.minStopDistance then (s.stopLoss, s.request.stopDistance) else (stop, Distance(s, stop))
  }

  /** The reply's bracket after the ATR and reward/risk fallbacks. */
  function ProposedBracket(s: Setup, f: LlmGate.Fields): Bracket
    requires !f.stop.NonFinite? && !f.target.NonFinite?
  {
    var (stop, distance) := ProposedStop(s, f.stop);
    var target := if f.target.Finite? then f.target.price else s.takeProfit;
    Bracket(stop, if Ratio(Distance(s, target), distance) < s.requiredRatio then s.takeProfit else target)
  }

  predicate ValidIntent(s: Setup, b: Bracket) {
    DefaultQty(s.cfg, s.budget, s.request) > 0.0 && s.Entry() > 0.0 && b.stop > 0.0 && b.target > 0.0
      && s.request.multiplier > 0.0
  }

  /** The resized max tier against the per-trade budget, the card's cap and the book's planned stop risk. */
  predicate LargestFits(s: Setup, r: Request) {
    var risk := Extend(Extend(r.multiplier, Max(r.stopDistance, 0.0)), LargestQty(s.cfg, s.budget, r));
    && risk <= s.budget.dollars && (r.cap.Some? ==> risk <= r.cap.value)
    && s.plannedRisk + risk <= s.budget.capital * s.stopRiskPct * s.budget.drawdownFactor
  }

  /** `_final_bracket`: restored, kept on the deterministic tiers, or kept on resized ones. */
  function FinalBracket(s: Setup, b: Bracket): Final {
    var risk, reward := RiskDistance(s.direction, s.Entry(), b.stop), RewardDistance(s.direction, s.Entry(), b.target);
    if !ValidIntent(s, b) || !MeetsRewardRisk(reward, risk, s.requiredRatio) then Deterministic(s)
    else if Distance(s, b.stop) <= Distance(s, s.stopLoss) then Final(b, s.request)
    else
      var resized := s.Resized(b.stop, b.target);
      if DefaultQty(s.cfg, s.budget, resized) <= 0.0 || !LargestFits(s, resized) then Deterministic(s)
      else Final(b, resized)
  }

  /** What the reply's levels leave on the card; a non-finite level never forms a valid bracket. */
  function FinalCard(s: Setup, f: LlmGate.Fields): Final {
    if s.policyLocked || f.stop.NonFinite? || f.target.NonFinite? then Deterministic(s)
    else
      var b := ProposedBracket(s, f);
      if b == Bracket(s.stopLoss, s.takeProfit) then Deterministic(s) else FinalBracket(s, b)
  }

  function Tiers(s: Setup, f: Final): seq<Tier> {
    TiersOf(s.cfg, s.budget, f.sizedFrom)
  }

  /** The dollars a quantity loses at the card's stop. */
  function StopRisk(s: Setup, stop: real, quantity: real): real {
    Extend(Extend(s.request.multiplier, Distance(s, stop)), quantity)
  }

  /** The deterministic tiers were sized on at least the actual stop distance. */
  predicate SizedOnActualStop(s: Setup) {
    Extend(s.request.multiplier, Distance(s, s.stopLoss)) <= PerUnitRisk(s.request)
  }

  lemma WiderIsMore(m: real, d: real, e: real)
    requires m >= 0.0 && d <= e
    ensures Extend(m, d) <= Extend(m, e)
  {
    assert m * (e - d) >= 0.0;
  }

  /** The card keeps the deterministic tiers on a stop no wider, or is resized at a strictly wider one. */
  lemma FinalIsDeterministicOrWider(s: Setup, f: LlmGate.Fields)
    ensures var c := FinalCard(s, f);
            || (c.sizedFrom == s.request && Distance(s, c.bracket.stop) <= Distance(s, s.stopLoss))
            || (c.sizedFrom == s.Resized(c.bracket.stop, c.bracket.target)
                && c.sizedFrom.stopDistance == Distance(s, c.bracket.stop) > Distance(s, s.stopLoss))
  {
  }

  /** The card's tiers are sized on at least the stop it finally carries. */
  lemma FinalSizedOnItsStop(s: Setup, f: LlmGate.Fields)
    requires SizedOnActualStop(s) && s.request.multiplier > 0.0
    ensures var c := FinalCard(s, f);
            && Extend(s.request.multiplier, Distance(s, c.bracket.stop)) <= PerUnitRisk(c.sizedFrom)
            && c.sizedFrom.cap == s.request.cap
  {
    FinalIsDeterministicOrWider(s, f);
    var c := FinalCard(s, f);
    SizedOnItsStop(s, c.bracket, c.sizedFrom);
  }

  lemma SizedOnItsStop(s: Setup, b: Bracket, r: Request)
    requires SizedOnActualStop(s) && s.request.multiplier > 0.0
    requires (r == s.request && Distance(s, b.stop) <= Distance(s, s.stopLoss))
             || (r == s.Resized(b.stop, b.target) && r.stopDistance == Distance(s, b.stop))
    ensures Extend(s.request.multiplier, Distance(s, b.stop)) <= PerUnitRisk(r) && r.cap == s.request.cap
  {
    if r == s.request && Distance(s, b.stop) <= Distance(s, s.stopLoss) {
      WiderIsMore(s.request.multiplier, Distance(s, b.stop), Distance(s, s.stopLoss));
    }
  }

  lemma QuantityRisk(unit: real, sized: real, quantity: real, ceiling: real)
    requires unit <= sized && quantity >= 0.0 && Extend(sized, quantity) <= ceiling
    ensures Extend(unit, quantity) <= ceiling
  {
    assert (sized - unit) * quantity >= 0.0;
  }

  /**
   No reply can enlarge risk: on whatever bracket the card ends up, every tier it offers loses at most the
   per-trade budget, and at most the card's own cap, at its final stop.
   */
  lemma EveryTierWithinBudget(s: Setup, f: LlmGate.Fields, t: Tier)
    requires PositiveMinimums(s.cfg) && SizedOnActualStop(s) && s.request.multiplier > 0.0
    ensures t in Tiers(s, FinalCard(s, f)) && t.quantity > 0.0 ==>
              var stop := FinalCard(s, f).bracket.stop;
              && StopRisk(s, stop, t.quantity) <= s.budget.dollars
              && (s.request.cap.Some? ==> StopRisk(s, stop, t.quantity) <= s.request.cap.value)
  {
    var c := FinalCard(s, f);
    FinalSizedOnItsStop(s, f);
    if t in Tiers(s, c) && t.quantity > 0.0 {
      TiersFitTheirCeilings(s.cfg, s.budget, c.sizedFrom, t);
      var unit := Extend(s.request.multiplier, Distance(s, c.bracket.stop));
      QuantityRisk(unit, PerUnitRisk(c.sizedFrom), t.quantity, s.budget.dollars);
      if s.request.cap.Some? {
        QuantityRisk(unit, PerUnitRisk(c.sizedFrom), t.quantity, s.request.cap.value);
      }
    }
  }

  /** What `per_trade_risk_budget` and the sizing configuration guarantee. */
  predicate Proper(s: Setup) {
    && PositiveMinimums(s.cfg) && s.cfg.maxTradeNotional >= 0.0 && s.request.multiplier > 0.0
    && 0.0 <= s.budget.dollars && 0.0 <= s.budget.drawdownFactor && 0.0 <= s.budget.macroFactor
    && (s.request.cap.Some? ==> s.request.cap.value > 0.0)
  }

  /** The deterministic tiers were not sized on more than the actual stop distance. */
  predicate NotOversized(s: Setup) {
    PerUnitRisk(s.request) <= Max(Extend(s.request.multiplier, Distance(s, s.stopLoss)), 0.01)
  }

  /** The final card's default and max quantities are at most the deterministic ones. */
  predicate NoLarger(s: Setup, c: Final) {
    && DefaultQty(s.cfg, s.budget, c.sizedFrom) <= DefaultQty(s.cfg, s.budget, s.request)
    && LargestQty(s.cfg, s.budget, c.sizedFrom) <= LargestQty(s.cfg, s.budget, s.request)
  }

  /** Where the recorded stop distance is not above the actual one, no reply can enlarge a size. */
  lemma FinalNeverLarger(s: Setup, f: LlmGate.Fields)
    requires Proper(s) && NotOversized(s)
    ensures NoLarger(s, FinalCard(s, f))
  {
    FinalIsDeterministicOrWider(s, f);
    var c := FinalCard(s, f);
    if c.sizedFrom != s.request {
      WiderIsMore(s.request.multiplier, Distance(s, s.stopLoss), c.sizedFrom.stopDistance);
      assert Tighter(Inputs(s.budget, s.request), Inputs(s.budget, c.sizedFrom));
      TighterNeverSizesUp(s.cfg, Inputs(s.budget, s.request), Inputs(s.budget, c.sizedFrom));
    }
  }

  /**
   Every tier's notional fits what is left under the portfolio ceiling, to half a cent; exactly, when what
   is left is a whole number of cents.
   */
  lemma CardNotionalFits(s: Setup, f: LlmGate.Fields, t: Tier)
    requires PositiveMinimums(s.cfg)
    ensures t in Tiers(s, FinalCard(s, f)) && t.quantity > 0.0 ==>
              var left := RemainingNotional(s.cfg, s.request);
              && OnCents(t.notional) && 0.0 <= t.notional <= left + 0.005 && (OnCents(left) ==> t.notional <= left)
  {
    FinalIsDeterministicOrWider(s, f);
    var c := FinalCard(s, f);
    if t in Tiers(s, c) && t.quantity > 0.0 {
      TiersFitTheirCeilings(s.cfg, s.budget, c.sizedFrom, t);
      TiersAtMostLargest(s.cfg, s.budget, c.sizedFrom, t);
      assert RemainingNotional(s.cfg, c.sizedFrom) == RemainingNotional(s.cfg, s.request);
      PositiveExtend(UnitNotional(c.sizedFrom), t.quantity);
      RoundedFits(Extend(UnitNotional(c.sizedFrom), t.quantity), RemainingNotional(s.cfg, s.request));
    }
  }

  lemma PositiveExtend(unit: real, quantity: real)
    requires unit > 0.0 && quantity > 0.0
    ensures Extend(unit, quantity) > 0.0
  {
  }

  lemma RoundedFits(x: real, left: real)
    requires 0.0 <= x <= left
    ensures 0.0 <= Round2(x) <= left + 0.005 && (OnCents(left) ==> Round2(x) <= left)
  {
    assert OnCents(0.0);
    Round2AtLeast(x, 0.0);
    if OnCents(left) {
      Round2AtMost(x, left);
    }
  }
}
