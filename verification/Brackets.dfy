/**
 Deterministic stops and targets on the tick grid (`calculate_levels_deterministic`).
 */
module Brackets {
  import opened Common
  import opened Rounding

  /** Slack in ticks that keeps a target already on a tick where it is. */
  const TICK_EPSILON: real := 0.000001

  datatype Candidate = Candidate(direction: Direction, entry: real, atr: real, swingLow: real, swingHigh: real)

  datatype Levels = Levels(stopLoss: real, takeProfit: real, stopDistance: real, targetDistance: real)

  /** Prices and ticks are whole cents, so the two-decimal rounding of a tick multiple changes nothing. */
  predicate CentTick(tick: real) {
    tick > 0.0 && OnCents(tick)
  }

  /** `k` ticks in price. */
  function Ticks(k: int, tick: real): real {
    k as real * tick
  }

  function NearestTick(x: real, tick: real): real
    requires tick > 0.0
  {
    Round2(Ticks(RoundInt(x / tick), tick))
  }

  function TickAbove(x: real, tick: real): real
    requires tick > 0.0
  {
    Round2(Ticks(Ceil(x / tick - TICK_EPSILON), tick))
  }

  function TickBelow(x: real, tick: real): real
    requires tick > 0.0
  {
    Round2(Ticks((x / tick + TICK_EPSILON).Floor, tick))
  }

  /** How far the stop must be: behind the swing by two ticks, and at least the ATR minimum. */
  function RequiredDistance(c: Candidate, tick: real, minAtrMultiple: real): real {
    var structural := if c.direction.Long? then c.entry - (c.swingLow - 2.0 * tick)
      else (c.swingHigh + 2.0 * tick) - c.entry;
    Max(structural, minAtrMultiple * c.atr)
  }

  /** The distance of a price from the entry on the losing side, and of another on the winning side. */
  function RiskDistance(direction: Direction, entry: real, stop: real): real {
    if direction.Long? then entry - stop else stop - entry
  }

  function RewardDistance(direction: Direction, entry: real, target: real): real {
    if direction.Long? then target - entry else entry - target
  }

  /** A tick grid by its three roundings. */
  datatype Grid = Grid(nearest: real -> real, above: real -> real, below: real -> real)

  function TickGrid(tick: real): Grid
    requires tick > 0.0
  {
    Grid(x => NearestTick(x, tick), x => TickAbove(x, tick), x => TickBelow(x, tick))
  }

  function StopAt(g: Grid, direction: Direction, entry: real, distance: real): real {
    g.nearest(if direction.Long? then entry - distance else entry + distance)
  }

  /** A target at least `wanted` away from the entry, rounded away from it to the next tick. */
  function TargetAt(g: Grid, direction: Direction, entry: real, wanted: real): real {
    if direction.Long? then g.above(entry + wanted) else g.below(entry - wanted)
  }

  /** The bracket a required stop distance gives on a grid. */
  function BracketOn(g: Grid, direction: Direction, entry: real, distance: real, ratio: real): (real, real) {
    var stop := StopAt(g, direction, entry, distance);
    (stop, TargetAt(g, direction, entry, RiskDistance(direction, entry, stop) * ratio))
  }

  function LevelsOf(c: Candidate, tick: real, minAtrMultiple: real, ratio: real): Levels
    requires tick > 0.0
  {
    var (stop, target) := BracketOn(TickGrid(tick), c.direction, c.entry, RequiredDistance(c, tick, minAtrMultiple),
                                    ratio);
    Levels(stop, target, Round2(RiskDistance(c.direction, c.entry, stop)),
           Round2(RewardDistance(c.direction, c.entry, target)))
  }

  lemma TickMultipleOnCents(k: int, tick: real)
    requires CentTick(tick)
    ensures OnCents(Ticks(k, tick)) && Round2(Ticks(k, tick)) == Ticks(k, tick)
  {
    var n := (tick * 100.0).Floor;
    assert k as real * tick * 100.0 == k as real * n as real == (k * n) as real;
    WholeCents(k as real * tick, k * n);
    Round2OnCents(k as real * tick);
  }

  lemma Ordered(k: real, q: real, b: real, tick: real)
    requires tick > 0.0
    ensures k >= q - b ==> k * tick >= q * tick - b * tick
    ensures k > q - b ==> k * tick > q * tick - b * tick
  {
    var e := k - q + b;
    assert e * tick == k * tick - q * tick + b * tick;
    NonnegativeProduct(e, tick);
  }

  lemma NonnegativeProduct(e: real, tick: real)
    requires tick > 0.0
    ensures (e >= 0.0 ==> e * tick >= 0.0) && (e > 0.0 ==> e * tick > 0.0)
    ensures (e < 0.0 ==> e * tick < 0.0)
  {
  }

  /** A bound in ticks below is a bound in price. */
  lemma BelowInPrice(x: real, tick: real, k: real, b: real)
    requires tick > 0.0
    ensures k >= x / tick - b ==> k * tick >= x - b * tick
    ensures k > x / tick - b ==> k * tick > x - b * tick
  {
    var q := x / tick;
    assert q * tick == x;
    Ordered(k, q, b, tick);
  }

  lemma AboveInPrice(x: real, tick: real, k: real, b: real)
    requires tick > 0.0
    ensures k <= x / tick + b ==> k * tick <= x + b * tick
    ensures k < x / tick + b ==> k * tick < x + b * tick
  {
    var q := x / tick;
    assert q * tick == x;
    Ordered(q, k, b, tick);
  }

  lemma NearestInPrice(x: real, tick: real)
    requires tick > 0.0
    ensures Near(Ticks(RoundInt(x / tick), tick), x, tick)
  {
    var k := RoundInt(x / tick) as real;
    BelowInPrice(x, tick, k, 0.5);
    AboveInPrice(x, tick, k, 0.5);
  }

  lemma CeilInPrice(x: real, tick: real)
    requires tick > 0.0
    ensures Reaches(Ticks(Ceil(x / tick - TICK_EPSILON), tick), x, tick)
  {
    var k := Ceil(x / tick - TICK_EPSILON) as real;
    BelowInPrice(x, tick, k, TICK_EPSILON);
    AboveInPrice(x, tick, k, 1.0);
  }

  lemma FloorInPrice(x: real, tick: real)
    requires tick > 0.0
    ensures x - tick < Ticks((x / tick + TICK_EPSILON).Floor, tick) <= x + TICK_EPSILON * tick
  {
    var k := (x / tick + TICK_EPSILON).Floor as real;
    assert x / tick - 1.0 < k <= x / tick + TICK_EPSILON;
    BelowInPrice(x, tick, k, 1.0);
    AboveInPrice(x, tick, k, TICK_EPSILON);
  }

  lemma NearestTickIsNear(x: real, tick: real)
    requires CentTick(tick)
    ensures Near(NearestTick(x, tick), x, tick) && OnCents(NearestTick(x, tick))
  {
    TickMultipleOnCents(RoundInt(x / tick), tick);
    NearestInPrice(x, tick);
  }

  lemma TickAboveIsAbove(x: real, tick: real)
    requires CentTick(tick)
    ensures Reaches(TickAbove(x, tick), x, tick)
  {
    TickMultipleOnCents(Ceil(x / tick - TICK_EPSILON), tick);
    CeilInPrice(x, tick);
  }

  lemma TickBelowIsBelow(x: real, tick: real)
    requires CentTick(tick)
    ensures x - tick < TickBelow(x, tick) <= x + TICK_EPSILON * tick
  {
    TickMultipleOnCents((x / tick + TICK_EPSILON).Floor, tick);
    FloorInPrice(x, tick);
  }

  /** What the three roundings of a grid promise. */
  ghost predicate GridLaws(g: Grid, tick: real) {
    && (forall x :: Near(g.nearest(x), x, tick) && OnCents(g.nearest(x)))
    && (forall x :: Reaches(g.above(x), x, tick))
    && (forall x :: x - tick < g.below(x) <= x + TICK_EPSILON * tick)
  }

  lemma TickGridLaws(tick: real)
    requires CentTick(tick)
    ensures GridLaws(TickGrid(tick), tick)
  {
    forall x ensures Near(NearestTick(x, tick), x, tick) && OnCents(NearestTick(x, tick)) {
      NearestTickIsNear(x, tick);
    }
    forall x ensures Reaches(TickAbove(x, tick), x, tick) {
      TickAboveIsAbove(x, tick);
    }
    forall x ensures x - tick < TickBelow(x, tick) <= x + TICK_EPSILON * tick {
      TickBelowIsBelow(x, tick);
    }
  }

  /** A stop within half a tick of the required distance and a target that reaches the ratio of the actual one. */
  ghost predicate SoundBracket(direction: Direction, entry: real, bracket: (real, real), distance: real, ratio: real,
                               tick: real) {
    var risk, reward := RiskDistance(direction, entry, bracket.0), RewardDistance(direction, entry, bracket.1);
    OnCents(bracket.0) && Near(risk, distance, tick) && Reaches(reward, risk * ratio, tick)
  }

  lemma BracketOnGrid(g: Grid, direction: Direction, entry: real, distance: real, ratio: real, tick: real)
    requires GridLaws(g, tick)
    ensures SoundBracket(direction, entry, BracketOn(g, direction, entry, distance, ratio), distance, ratio, tick)
  {
    var stop := StopAt(g, direction, entry, distance);
    var wanted := RiskDistance(direction, entry, stop) * ratio;
    TargetLaw(g, direction, entry, wanted, tick);
  }

  lemma TargetLaw(g: Grid, direction: Direction, entry: real, wanted: real, tick: real)
    requires GridLaws(g, tick)
    ensures Reaches(RewardDistance(direction, entry, TargetAt(g, direction, entry, wanted)), wanted, tick)
  {
  }

  /**
   For every candidate, tick and ratio, in both directions: the stop is no nearer than the required distance
   less half a tick, and the target is at least `ratio` times the actual stop distance, to within a millionth
   of a tick, and less than one tick beyond that.
   */
  lemma LevelsMeetTheirDistances(c: Candidate, tick: real, minAtrMultiple: real, ratio: real)
    requires CentTick(tick)
    ensures var l := LevelsOf(c, tick, minAtrMultiple, ratio);
            SoundBracket(c.direction, c.entry, (l.stopLoss, l.takeProfit), RequiredDistance(c, tick, minAtrMultiple),
                         ratio, tick)
  {
    TickGridLaws(tick);
    BracketOnGrid(TickGrid(tick), c.direction, c.entry, RequiredDistance(c, tick, minAtrMultiple), ratio, tick);
  }

  /** The distance two ticks behind the swing. */
  function SwingDistance(c: Candidate, tick: real): real {
    if c.direction.Long? then c.entry - c.swingLow + 2.0 * tick else c.swingHigh + 2.0 * tick - c.entry
  }

  function AtrDistance(c: Candidate, minAtrMultiple: real): real {
    minAtrMultiple * c.atr
  }

  /** A risk of the larger of two distances to half a tick, and a reward that reaches the ratio of it. */
  predicate Measures(risk: real, reward: real, swing: real, least: real, ratio: real, tick: real) {
    && risk >= swing - tick / 2.0 && risk >= least - tick / 2.0
    && (risk <= swing + tick / 2.0 || risk <= least + tick / 2.0)
    && risk * ratio - 0.000001 * tick <= reward < risk * ratio + tick
  }

  lemma SoundMeasures(risk: real, reward: real, swing: real, least: real, ratio: real, tick: real)
    requires Near(risk, Max(swing, least), tick) && Reaches(reward, risk * ratio, tick)
    ensures Measures(risk, reward, swing, least, ratio, tick)
  {
  }

  lemma RequiredIs(c: Candidate, tick: real, minAtrMultiple: real)
    ensures RequiredDistance(c, tick, minAtrMultiple) == Max(SwingDistance(c, tick), AtrDistance(c, minAtrMultiple))
  {
  }

  /** How far a price lies below a long's entry or above a short's, and the other way. */
  function Against(direction: Direction, entry: real, price: real): real {
    if direction.Long? then entry - price else price - entry
  }

  function For(direction: Direction, entry: real, price: real): real {
    if direction.Long? then price - entry else entry - price
  }

  lemma SidesAre(direction: Direction, entry: real, stop: real, target: real)
    ensures Against(direction, entry, stop) == RiskDistance(direction, entry, stop)
    ensures For(direction, entry, target) == RewardDistance(direction, entry, target)
  {
  }

  /** The levels measure up on the direction's own sides, and both distances are recorded to the cent. */
  predicate LevelsShow(direction: Direction, entry: real, l: Levels, swing: real, least: real, ratio: real,
                       tick: real) {
    var risk, reward := Against(direction, entry, l.stopLoss), For(direction, entry, l.takeProfit);
    && Measures(risk, reward, swing, least, ratio, tick)
    && l.stopDistance == Round2(risk) && l.targetDistance == Round2(reward)
  }

  lemma SoundShows(direction: Direction, entry: real, l: Levels, swing: real, least: real, ratio: real, tick: real)
    requires SoundBracket(direction, entry, (l.stopLoss, l.takeProfit), Max(swing, least), ratio, tick)
    requires Recorded(direction, entry, l)
    ensures LevelsShow(direction, entry, l, swing, least, ratio, tick)
  {
    SidesAre(direction, entry, l.stopLoss, l.takeProfit);
    var risk, reward := RiskDistance(direction, entry, l.stopLoss), RewardDistance(direction, entry, l.takeProfit);
    SoundMeasures(risk, reward, swing, least, ratio, tick);
  }

  predicate Recorded(direction: Direction, entry: real, l: Levels) {
    && l.stopDistance == Round2(RiskDistance(direction, entry, l.stopLoss))
    && l.targetDistance == Round2(RewardDistance(direction, entry, l.takeProfit))
  }

  lemma LevelsRecorded(c: Candidate, tick: real, minAtrMultiple: real, ratio: real)
    requires tick > 0.0
    ensures Recorded(c.direction, c.entry, LevelsOf(c, tick, minAtrMultiple, ratio))
  {
  }

  /**
   The levels in prices: the stop's distance, on its losing side, is that of the swing or the ATR minimum, whichever is
   more, to half a tick; the target's, on the winning side, reaches the ratio; both are recorded to the cent.
   */
  lemma LevelsAre(c: Candidate, tick: real, minAtrMultiple: real, ratio: real)
    requires CentTick(tick)
    ensures LevelsShow(c.direction, c.entry, LevelsOf(c, tick, minAtrMultiple, ratio), SwingDistance(c, tick),
                       AtrDistance(c, minAtrMultiple), ratio, tick)
  {
    LevelsMeetTheirDistances(c, tick, minAtrMultiple, ratio);
    RequiredIs(c, tick, minAtrMultiple);
    LevelsRecorded(c, tick, minAtrMultiple, ratio);
    SoundShows(c.direction, c.entry, LevelsOf(c, tick, minAtrMultiple, ratio), SwingDistance(c, tick),
               AtrDistance(c, minAtrMultiple), ratio, tick);
  }

  /** Within half a tick. */
  predicate Near(x: real, wanted: real, tick: real) {
    wanted - tick / 2.0 <= x <= wanted + tick / 2.0
  }

  /** At least `wanted` to within a millionth of a tick, and less than a tick beyond it. */
  predicate Reaches(x: real, wanted: real, tick: real) {
    wanted - TICK_EPSILON * tick <= x < wanted + tick
  }

  /** `meets_min_reward_risk`. */
  predicate MeetsRewardRisk(reward: real, risk: real, minimum: real) {
    risk > 0.0 && Round2(reward / risk) >= minimum
  }

  lemma RatioSurvivesRounding(reward: real, risk: real, ratio: real, tick: real)
    requires tick > 0.0 && risk >= tick && OnCents(ratio)
    requires Reaches(reward, risk * ratio, tick)
    ensures MeetsRewardRisk(reward, risk, ratio)
  {
    var q := reward / risk;
    assert q * risk == reward;
    var d := q - ratio + TICK_EPSILON;
    assert d * risk == reward - risk * ratio + TICK_EPSILON * risk;
    if d < 0.0 {
      NonnegativeProduct(d, risk);
      assert false;
    }
    CloseBelowRoundsUp(q, ratio);
  }

  lemma CloseBelowRoundsUp(q: real, floor: real)
    requires OnCents(floor) && q >= floor - TICK_EPSILON
    ensures Round2(q) >= floor
  {
    Round2Monotone(floor - TICK_EPSILON, q);
    var n := (floor * 100.0).Floor;
    assert RoundInt((floor - TICK_EPSILON) * 100.0) == n;
  }

  lemma SoundBracketMeetsRatio(direction: Direction, entry: real, bracket: (real, real), distance: real, ratio: real,
                               tick: real)
    requires SoundBracket(direction, entry, bracket, distance, ratio, tick) && tick > 0.0 && OnCents(ratio)
    requires RiskDistance(direction, entry, bracket.0) >= tick
    ensures MeetsRewardRisk(RewardDistance(direction, entry, bracket.1), RiskDistance(direction, entry, bracket.0),
                            ratio)
  {
    RatioSurvivesRounding(RewardDistance(direction, entry, bracket.1), RiskDistance(direction, entry, bracket.0), ratio,
                          tick);
  }

  /** A native bracket whose stop is at least a tick away always clears its own two-decimal reward/risk ratio. */
  lemma NativeBracketMeetsRatio(c: Candidate, tick: real, minAtrMultiple: real, ratio: real)
    requires CentTick(tick) && OnCents(ratio)
    ensures var l := LevelsOf(c, tick, minAtrMultiple, ratio);
            RiskDistance(c.direction, c.entry, l.stopLoss) >= tick ==>
              MeetsRewardRisk(RewardDistance(c.direction, c.entry, l.takeProfit),
                              RiskDistance(c.direction, c.entry, l.stopLoss), ratio)
  {
    LevelsMeetTheirDistances(c, tick, minAtrMultiple, ratio);
    var l := LevelsOf(c, tick, minAtrMultiple, ratio);
    if RiskDistance(c.direction, c.entry, l.stopLoss) >= tick {
      SoundBracketMeetsRatio(c.direction, c.entry, (l.stopLoss, l.takeProfit),
                             RequiredDistance(c, tick, minAtrMultiple), ratio, tick);
    }
  }

  /** On a cent entry the recorded stop distance is the actual one. */
  lemma CentEntryDistanceIsExact(c: Candidate, tick: real, minAtrMultiple: real, ratio: real)
    requires CentTick(tick) && OnCents(c.entry)
    ensures var l := LevelsOf(c, tick, minAtrMultiple, ratio);
            l.stopDistance == RiskDistance(c.direction, c.entry, l.stopLoss)
  {
    LevelsMeetTheirDistances(c, tick, minAtrMultiple, ratio);
    CentDistance(c.direction, c.entry, LevelsOf(c, tick, minAtrMultiple, ratio).stopLoss);
  }

  lemma CentDistance(direction: Direction, entry: real, stop: real)
    requires OnCents(entry) && OnCents(stop)
    ensures Round2(RiskDistance(direction, entry, stop)) == RiskDistance(direction, entry, stop)
  {
    CentsClosed(entry, stop);
    CentsClosed(stop, entry);
    Round2OnCents(RiskDistance(direction, entry, stop));
  }
}
