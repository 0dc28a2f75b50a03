/**
 When a reply's bracket stands on the final card, and on which sizes, on the raw levels of the reply and the card.
 */
module CardDecisions {
  import opened Common
  import opened Rounding
  import opened Sizing
  import Brackets
  import opened Evaluation
  import LlmGate

  function Gap(x: real, y: real): real {
    if x > y then x - y else y - x
  }

  /** A stop lies at the ATR minimum or beyond. */
  predicate FarEnough(s: Setup, stop: real) {
    Gap(s.request.entry, stop) >= s.minStopDistance
  }

  /** The ratio counts to two decimals, and as two without a distance. */
  predicate RatioKept(s: Setup, target: real, distance: real) {
    s.requiredRatio <= if distance > 0.0 then Round2(Gap(s.request.entry, target) / distance) else 2.0
  }

  /**
   The bracket a reply proposes: its stop where it gives one far enough, and then its target where the ratio to the
   stop's distance is kept; otherwise the card's own. A stop that falls back counts with the recorded distance.
   */
  predicate Proposes(s: Setup, f: LlmGate.Fields, b: Bracket) {
    var stop := if f.stop.Finite? then f.stop.price else s.stopLoss;
    var target := if f.target.Finite? then f.target.price else s.takeProfit;
    && b.stop == (if FarEnough(s, stop) then stop else s.stopLoss)
    && b.target == (if RatioKept(s, target, if FarEnough(s, stop) then Gap(s.request.entry, stop)
                                            else s.request.stopDistance) then target else s.takeProfit)
  }

  /** Risk and reward on the position's own sides. */
  function LossAt(s: Setup, stop: real): real {
    if s.direction.Long? then s.request.entry - stop else stop - s.request.entry
  }

  function GainAt(s: Setup, target: real): real {
    if s.direction.Long? then target - s.request.entry else s.request.entry - target
  }

  /** A sized position with positive prices, a stop on the losing side and the two-decimal ratio met. */
  predicate Tradable(s: Setup, b: Bracket) {
    && DefaultQty(s.cfg, s.budget, s.request) > 0.0 && s.request.entry > 0.0 && b.stop > 0.0 && b.target > 0.0
    && s.request.multiplier > 0.0
    && LossAt(s, b.stop) > 0.0 && Round2(GainAt(s, b.target) / LossAt(s, b.stop)) >= s.requiredRatio
  }

  /** The request at the bracket's own distances. */
  function AtBracket(s: Setup, b: Bracket): Request {
    s.request.(stopDistance := LossAt(s, b.stop), targetDistance := GainAt(s, b.target))
  }

  function Loss(multiplier: real, distance: real, quantity: real): real {
    multiplier * distance * quantity
  }

  function StopBudget(b: Budget, pct: real): real {
    b.capital * pct * b.drawdownFactor
  }

  /** The resized position has a quantity, and its largest fits the trade, the card's cap and the book's stop risk. */
  predicate ResizesWithin(s: Setup, r: Request) {
    var loss := Loss(r.multiplier, r.stopDistance, LargestQty(s.cfg, s.budget, r));
    && DefaultQty(s.cfg, s.budget, r) > 0.0
    && loss <= s.budget.dollars && (r.cap.Some? ==> loss <= r.cap.value)
    && s.plannedRisk + loss <= StopBudget(s.budget, s.stopRiskPct)
  }

  predicate NoWider(s: Setup, stop: real) {
    Gap(s.request.entry, stop) <= Gap(s.request.entry, s.stopLoss)
  }

  /** What becomes of a bracket: kept on the card's sizes, kept on smaller ones, or replaced by the card's own. */
  predicate Decides(s: Setup, b: Bracket, c: Final) {
    c == if Tradable(s, b) && NoWider(s, b.stop) then Final(b, s.request)
         else if Tradable(s, b) && ResizesWithin(s, AtBracket(s, b)) then Final(b, AtBracket(s, b))
         else Final(Bracket(s.stopLoss, s.takeProfit), s.request)
  }

  lemma GapIsDistance(s: Setup, x: real)
    ensures Distance(s, x) == Gap(s.request.entry, x)
  {
  }

  lemma ResizesIff(s: Setup, b: Bracket)
    requires LossAt(s, b.stop) > 0.0
    ensures var r := AtBracket(s, b);
            r == s.Resized(b.stop, b.target)
            && (ResizesWithin(s, r) <==> DefaultQty(s.cfg, s.budget, r) > 0.0 && LargestFits(s, r))
  {
    var r := AtBracket(s, b);
    assert Max(r.stopDistance, 0.0) == r.stopDistance;
    LossIs(r.multiplier, r.stopDistance, LargestQty(s.cfg, s.budget, r));
  }

  lemma LossIs(multiplier: real, distance: real, quantity: real)
    ensures Extend(Extend(multiplier, distance), quantity) == Loss(multiplier, distance, quantity)
  {
  }

  lemma TradableIff(s: Setup, b: Bracket)
    ensures Tradable(s, b) <==>
              ValidIntent(s, b) && Brackets.MeetsRewardRisk(
                Brackets.RewardDistance(s.direction, s.Entry(), b.target),
                Brackets.RiskDistance(s.direction, s.Entry(), b.stop), s.requiredRatio)
  {
  }

  lemma BracketDecided(s: Setup, b: Bracket)
    ensures Decides(s, b, FinalBracket(s, b))
  {
    TradableIff(s, b);
    GapIsDistance(s, b.stop);
    GapIsDistance(s, s.stopLoss);
    if LossAt(s, b.stop) > 0.0 {
      ResizesIff(s, b);
    }
  }

  lemma BracketProposed(s: Setup, f: LlmGate.Fields)
    requires !f.stop.NonFinite? && !f.target.NonFinite?
    ensures Proposes(s, f, ProposedBracket(s, f))
  {
    GapIsDistance(s, if f.stop.Finite? then f.stop.price else s.stopLoss);
    GapIsDistance(s, if f.target.Finite? then f.target.price else s.takeProfit);
  }

  /**
   Whatever the reply, the card carries what its proposal is decided to be; locked or non-finite replies change nothing.
   */
  lemma CardDecided(s: Setup, f: LlmGate.Fields)
    ensures if s.policyLocked || f.stop.NonFinite? || f.target.NonFinite?
            then FinalCard(s, f) == Final(Bracket(s.stopLoss, s.takeProfit), s.request)
            else exists b :: Proposes(s, f, b) && if b == Bracket(s.stopLoss, s.takeProfit)
                   then FinalCard(s, f) == Final(b, s.request) else Decides(s, b, FinalCard(s, f))
  {
    if !(s.policyLocked || f.stop.NonFinite? || f.target.NonFinite?) {
      BracketProposed(s, f);
      BracketDecided(s, ProposedBracket(s, f));
    }
  }

  /** A reply's own levels stand on the card exactly when they are far enough, keep the ratio, trade and fit. */
  lemma LevelsStandIff(s: Setup, f: LlmGate.Fields)
    requires f.stop.Finite? && f.target.Finite?
    ensures var own, b := Bracket(s.stopLoss, s.takeProfit), Bracket(f.stop.price, f.target.price);
            b.stop != own.stop && b.target != own.target ==>
              (FinalCard(s, f).bracket == b <==>
                && !s.policyLocked && FarEnough(s, b.stop) && RatioKept(s, b.target, Gap(s.request.entry, b.stop))
                && Tradable(s, b) && (NoWider(s, b.stop) || ResizesWithin(s, AtBracket(s, b))))
  {
    if !s.policyLocked {
      BracketProposed(s, f);
      BracketDecided(s, ProposedBracket(s, f));
    }
  }
}
