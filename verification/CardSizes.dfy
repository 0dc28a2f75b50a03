/**
 When an LLM reply can make a card larger. A wider stop resizes every tier at its own distance, while the deterministic
 tiers were sized on a distance rounded to cents: a reply whose stop lies between the actual and the recorded distance
 sizes the card up, if the ATR minimum leaves room for such a stop and the required ratio for its target.
 */
module CardSizes {
  import opened Common
  import opened Rounding
  import opened Brackets
  import opened Sizing
  import opened SizingLaws
  import opened Evaluation
  import opened CardLaws
  import LlmGate

  /** No reply enlarges any card of the candidate at this multiplier, whatever the terms. */
  ghost predicate NeverEnlarges(p: LevelPolicy, c: Candidate, l: Levels, multiplier: real) {
    forall t: Terms, f: LlmGate.Fields ::
      t.multiplier == multiplier && Configured(t) && Passed(CardOn(t, p, c, l)) ==>
        NoLarger(CardOn(t, p, c, l), FinalCard(CardOn(t, p, c, l), f))
  }

  /** The reward per unit of risk from which two-decimal rounding reaches `ratio`. */
  function RatioFloor(ratio: real): real {
    Cents(Ceil(ratio * 100.0)) - 0.005
  }

  lemma RatioReached(q: real, ratio: real)
    ensures Round2(q) >= ratio ==> q >= RatioFloor(ratio)
    ensures q > RatioFloor(ratio) ==> Round2(q) >= ratio
  {
    var n, k := Ceil(ratio * 100.0), RoundInt(q * 100.0);
    assert Round2(q) * 100.0 == k as real && Cents(n) * 100.0 == n as real;
    if Round2(q) >= ratio {
      assert k >= n;
    }
    if q > RatioFloor(ratio) {
      assert k > n - 1;
    }
  }

  /** The smallest stop distance a reply keeps, as a limit: past the actual one and at least the ATR minimum. */
  function Nearest(p: LevelPolicy, c: Candidate, l: Levels): real {
    Max(RiskDistance(c.direction, c.entry, l.stopLoss), MinStop(p, c))
  }

  /** A short's target must lie above zero at the required ratio. */
  predicate TargetRoom(direction: Direction, entry: real, ratio: real, distance: real) {
    direction.Short? ==> Extend(RatioFloor(ratio), distance) < entry
  }

  /** A reply's stop fits between the distance it must reach and the recorded one, with a target for it. */
  predicate Widenable(p: LevelPolicy, c: Candidate, l: Levels) {
    Nearest(p, c, l) < l.stopDistance && TargetRoom(c.direction, c.entry, p.ratio, Nearest(p, c, l))
  }

  // A reply that enlarges a card shows that the card was widenable.

  /** The bracket a resized card carries. */
  ghost predicate KeptBracket(s: Setup, b: Bracket) {
    var distance := RiskDistance(s.direction, s.Entry(), b.stop);
    && b.target > 0.0 && distance == Distance(s, b.stop) > Distance(s, s.stopLoss) && distance >= s.minStopDistance
    && MeetsRewardRisk(RewardDistance(s.direction, s.Entry(), b.target), distance, s.requiredRatio)
  }

  lemma ResizedKeepsBracket(s: Setup, f: LlmGate.Fields)
    ensures var final := FinalCard(s, f);
            final.sizedFrom != s.request ==>
              KeptBracket(s, final.bracket) && final.sizedFrom == s.Resized(final.bracket.stop, final.bracket.target)
  {
  }

  lemma TargetLeavesRoom(direction: Direction, entry: real, target: real, distance: real, nearest: real, ratio: real)
    requires entry > 0.0 && target > 0.0 && 0.0 < nearest <= distance
    requires MeetsRewardRisk(RewardDistance(direction, entry, target), distance, ratio)
    ensures TargetRoom(direction, entry, ratio, nearest)
  {
    if direction.Short? {
      var reward, floor := entry - target, RatioFloor(ratio);
      var q := reward / distance;
      assert q * distance == reward;
      RatioReached(q, ratio);
      NonnegativeProduct(q - floor, distance);
      assert (q - floor) * distance == reward - floor * distance;
      FloorShrinks(floor, nearest, distance, entry);
    }
  }

  lemma FloorShrinks(floor: real, nearest: real, distance: real, entry: real)
    requires 0.0 < nearest <= distance && floor * distance < entry && entry > 0.0
    ensures Extend(floor, nearest) < entry
  {
    if floor >= 0.0 {
      assert floor * (distance - nearest) >= 0.0;
    } else {
      NonnegativeProduct(floor, nearest);
    }
  }

  /** A reply that makes a card larger does so with a kept bracket at a distance short of the recorded one. */
  lemma LargerMeansCheaper(s: Setup, f: LlmGate.Fields)
    requires Proper(s)
    ensures var b := FinalCard(s, f).bracket;
            !NoLarger(s, FinalCard(s, f)) ==>
              && KeptBracket(s, b) && RiskDistance(s.direction, s.Entry(), b.stop) < s.request.stopDistance
              && Extend(s.request.multiplier, s.request.stopDistance) > 0.01
  {
    var final := FinalCard(s, f);
    if !NoLarger(s, final) {
      ResizedKeepsBracket(s, f);
      assert final.sizedFrom != s.request;
      UnitShrinks(s, final);
      CheaperUnit(s.request.multiplier, final.sizedFrom.stopDistance, s.request.stopDistance);
    }
  }

  lemma KeptMeansWidenable(p: LevelPolicy, c: Candidate, l: Levels, s: Setup, b: Bracket)
    requires s.direction == c.direction && s.Entry() == c.entry > 0.0 && s.stopLoss == l.stopLoss
    requires s.request.stopDistance == l.stopDistance && s.minStopDistance == MinStop(p, c)
             && s.requiredRatio == p.ratio
    requires RiskDistance(c.direction, c.entry, l.stopLoss) > 0.0
    requires KeptBracket(s, b) && RiskDistance(s.direction, s.Entry(), b.stop) < s.request.stopDistance
    ensures Widenable(p, c, l)
  {
    TargetLeavesRoom(c.direction, c.entry, b.target, RiskDistance(c.direction, c.entry, b.stop), Nearest(p, c, l),
                     p.ratio);
  }

  /** Whenever a reply makes a card larger, the card was widenable and a unit risks more than a cent. */
  lemma LargerMeansWidenable(t: Terms, p: LevelPolicy, c: Candidate, l: Levels, f: LlmGate.Fields)
    ensures var s := CardOn(t, p, c, l);
            Configured(t) && Passed(s) && !NoLarger(s, FinalCard(s, f)) ==>
              Widenable(p, c, l) && Extend(t.multiplier, l.stopDistance) > 0.01
  {
    var s := CardOn(t, p, c, l);
    if Configured(t) && Passed(s) && !NoLarger(s, FinalCard(s, f)) {
      ConfiguredIsProper(t, p, c, l);
      LargerMeansCheaper(s, f);
      KeptMeansWidenable(p, c, l, s, FinalCard(s, f).bracket);
    }
  }

  /** A card that grows was resized at less risk per unit. */
  lemma UnitShrinks(s: Setup, final: Final)
    requires Proper(s) && !NoLarger(s, final) && final.sizedFrom == s.Resized(final.bracket.stop, final.bracket.target)
    ensures PerUnitRisk(final.sizedFrom) < PerUnitRisk(s.request)
  {
    if PerUnitRisk(s.request) <= PerUnitRisk(final.sizedFrom) {
      assert Tighter(Inputs(s.budget, s.request), Inputs(s.budget, final.sizedFrom));
      TighterNeverSizesUp(s.cfg, Inputs(s.budget, s.request), Inputs(s.budget, final.sizedFrom));
    }
  }

  lemma CheaperUnit(multiplier: real, distance: real, recorded: real)
    requires multiplier > 0.0 && Max(Extend(multiplier, distance), 0.01) < Max(Extend(multiplier, recorded), 0.01)
    ensures distance < recorded && Extend(multiplier, recorded) > 0.01
  {
    assert Extend(multiplier, distance) < Extend(multiplier, recorded);
    QuotientBelow(distance, recorded, multiplier);
  }

  // On a widenable card some terms and some reply make it larger.

  /** A distance past the nearest one and short of the recorded one that leaves room for a target. */
  lemma PickDistance(nearest: real, recorded: real, direction: Direction, entry: real,
                     ratio: real) returns (wider: real)
    requires 0.0 < nearest < recorded && entry > 0.0 && TargetRoom(direction, entry, ratio, nearest)
    ensures nearest < wider < recorded && TargetRoom(direction, entry, ratio, wider)
  {
    if direction.Long? {
      wider := (nearest + recorded) / 2.0;
    } else {
      wider := PickBelow(nearest, recorded, RatioFloor(ratio), entry);
    }
  }

  lemma PickBelow(nearest: real, recorded: real, floor: real, entry: real) returns (wider: real)
    requires 0.0 < nearest < recorded && entry > 0.0 && Extend(floor, nearest) < entry
    ensures nearest < wider < recorded && Extend(floor, wider) < entry
  {
    if floor <= 0.0 {
      wider := (nearest + recorded) / 2.0;
      NonnegativeProduct(-floor, wider);
      assert -floor * wider == -Extend(floor, wider);
    } else {
      var bound := entry / floor;
      assert Extend(floor, bound) == entry;
      QuotientBelow(nearest, bound, floor);
      wider := (nearest + Min(recorded, bound)) / 2.0;
      StrictlyMore(floor, wider, bound);
    }
  }

  lemma StrictlyMore(m: real, d: real, e: real)
    requires m > 0.0 && d < e
    ensures Extend(m, d) < Extend(m, e)
  {
    NonnegativeProduct(e - d, m);
    assert (e - d) * m == Extend(m, e) - Extend(m, d);
  }

  /** A reward that reaches the ratio over `wider` with a target above zero. */
  lemma PickReward(wider: real, direction: Direction, entry: real, ratio: real) returns (reward: real)
    requires wider > 0.0 && entry > 0.0 && TargetRoom(direction, entry, ratio, wider)
    ensures Extend(RatioFloor(ratio), wider) < reward
    ensures (if direction.Long? then entry + reward else entry - reward) > 0.0
  {
    var least := Extend(RatioFloor(ratio), wider);
    reward := if direction.Long? then Max(least, 0.0) + 1.0 else (least + entry) / 2.0;
  }

  lemma RewardReaches(reward: real, wider: real, ratio: real)
    requires wider > 0.0 && Extend(RatioFloor(ratio), wider) < reward
    ensures Round2(reward / wider) >= ratio
  {
    var floor, q := RatioFloor(ratio), reward / wider;
    assert q * wider == reward;
    NonnegativeProduct(floor - q, wider);
    assert (floor - q) * wider == Extend(floor, wider) - reward;
    RatioReached(q, ratio);
  }

  /** The prices a distance and a reward stand for. */
  function BracketAt(direction: Direction, entry: real, wider: real, reward: real): Bracket {
    if direction.Long? then Bracket(entry - wider, entry + reward) else Bracket(entry + wider, entry - reward)
  }

  function ReplyWith(b: Bracket): LlmGate.Fields {
    LlmGate.Fields("", LlmGate.Finite(b.stop), LlmGate.Finite(b.target))
  }

  /** A wider bracket that meets every check is taken, and the card resized at it. */
  lemma ReplyTaken(s: Setup, wider: real, reward: real)
    requires !s.policyLocked && wider >= s.minStopDistance && wider > 0.0
    requires RiskDistance(s.direction, s.Entry(), s.stopLoss) > 0.0
    requires wider > RiskDistance(s.direction, s.Entry(), s.stopLoss)
    requires Extend(RatioFloor(s.requiredRatio), wider) < reward
    requires ValidIntent(s, BracketAt(s.direction, s.Entry(), wider, reward))
    requires var b := BracketAt(s.direction, s.Entry(), wider, reward);
             var r := s.Resized(b.stop, b.target);
             DefaultQty(s.cfg, s.budget, r) > 0.0 && LargestFits(s, r)
    ensures var b := BracketAt(s.direction, s.Entry(), wider, reward);
            FinalCard(s, ReplyWith(b)) == Final(b, s.Resized(b.stop, b.target))
  {
    var b := BracketAt(s.direction, s.Entry(), wider, reward);
    RewardReaches(reward, wider, s.requiredRatio);
    RewardReaches(Abs(reward), wider, s.requiredRatio);
    assert Distance(s, b.stop) == wider && Distance(s, b.target) == Abs(reward);
    assert ProposedBracket(s, ReplyWith(b)) == b;
  }

  /** At most two shares, and a budget of exactly two at the distance `wider`. */
  function TwoShares(c: Candidate, multiplier: real, wider: real): Terms {
    var dollars := Extend(Max(Extend(multiplier, wider), 0.01), 2.0);
    PlainTerms(2, c.entry, multiplier, dollars, dollars)
  }

  lemma TwoUnits(multiplier: real, actual: real, wider: real, recorded: real)
    requires multiplier > 0.0 && 0.0 < actual < wider < recorded <= wider + wider && Extend(multiplier, recorded) > 0.01
    ensures var unit := Max(Extend(multiplier, wider), 0.01);
            && Extend(Extend(multiplier, recorded), 1.0) <= Extend(unit, 2.0) < Extend(Extend(multiplier, recorded),
                2.0)
            && 0.0 < Extend(multiplier, actual) <= Extend(unit, 2.0)
               && Extend(Extend(multiplier, wider), 2.0) <= Extend(unit, 2.0)
  {
    NonnegativeProduct(actual, multiplier);
    WiderIsMore(multiplier, actual, wider);
    NonnegativeProduct(recorded - wider, multiplier);
    assert (recorded - wider) * multiplier == Extend(multiplier, recorded) - Extend(multiplier, wider);
    WiderIsMore(multiplier, recorded, wider + wider);
    assert multiplier * (wider + wider) == multiplier * wider + multiplier * wider;
  }

  /** The terms' card passes its gates at one share, and would have two at the wider distance. */
  lemma TwoSharesPass(p: LevelPolicy, c: Candidate, l: Levels, multiplier: real, wider: real, target: real)
    requires multiplier > 0.0 && SoundLevels(c, l, p.ratio) && Extend(multiplier, l.stopDistance) > 0.01
    requires RiskDistance(c.direction, c.entry, l.stopLoss) < wider < l.stopDistance <= wider + wider
    ensures var t := TwoShares(c, multiplier, wider);
            var s := CardOn(t, p, c, l);
            var r := s.request.(stopDistance := wider, targetDistance := target);
            && Configured(t) && Passed(s) && LargestQty(s.cfg, s.budget, s.request) == 1.0
            && DefaultQty(s.cfg, s.budget, r) > 0.0 && LargestQty(s.cfg, s.budget, r) == 2.0 && LargestFits(s, r)
  {
    var t := TwoShares(c, multiplier, wider);
    var s, actual := CardOn(t, p, c, l), RiskDistance(c.direction, c.entry, l.stopLoss);
    var dollars := Extend(Max(Extend(multiplier, wider), 0.01), 2.0);
    TwoUnits(multiplier, actual, wider, l.stopDistance);
    PlainFundsShare(dollars, dollars);
    PlainIsConfigured(2, c.entry, multiplier, dollars, dollars);
    StopRiskAllowance(dollars);
    PassesAtOne(s, actual, dollars);
    FitsAtTwo(s, s.request.(stopDistance := wider, targetDistance := target), dollars);
  }

  lemma StopRiskAllowance(dollars: real)
    ensures Extend(dollars, 100.0) * 0.02 * 1.0 == 2.0 * dollars
  {
  }

  /** A setup on plain terms for two shares with this budget. */
  ghost predicate OnTwoShares(s: Setup, dollars: real) {
    && PlainRequest(s.request) && s.cfg == PlainConfig(2, Extend(UnitNotional(s.request), 2.0))
    && s.budget.drawdownFactor == 1.0 && s.budget.macroFactor == 1.0 && s.budget.dollars == dollars > 0.0
    && s.plannedRisk == 0.0 && s.budget.capital * s.stopRiskPct * s.budget.drawdownFactor == 2.0 * dollars
  }

  lemma PassesAtOne(s: Setup, actual: real, dollars: real)
    requires OnTwoShares(s, dollars) && s.request.multiplier > 0.0
    requires actual == RiskDistance(s.direction, s.Entry(), s.stopLoss)
             && Extend(s.request.multiplier, actual) <= dollars
    requires s.Entry() > 0.0 && s.stopLoss > 0.0 && s.takeProfit > 0.0
    requires MeetsRewardRisk(RewardDistance(s.direction, s.Entry(), s.takeProfit), actual, s.requiredRatio)
    requires Extend(PerUnitRisk(s.request), 1.0) <= dollars < Extend(PerUnitRisk(s.request), 2.0)
    ensures Passed(s) && LargestQty(s.cfg, s.budget, s.request) == 1.0
  {
    PlainSizes(2, 1, s.request, s.budget);
    assert DefaultQty(s.cfg, s.budget, s.request) == 1.0;
    UnitProduct(Extend(s.request.multiplier, actual));
  }

  lemma FitsAtTwo(s: Setup, r: Request, dollars: real)
    requires OnTwoShares(s, dollars) && PlainRequest(r) && UnitNotional(r) == UnitNotional(s.request)
    requires r.stopDistance > 0.0 && Extend(PerUnitRisk(r), 2.0) <= dollars
    requires Extend(Extend(r.multiplier, r.stopDistance), 2.0) <= dollars
    ensures DefaultQty(s.cfg, s.budget, r) > 0.0 && LargestQty(s.cfg, s.budget, r) == 2.0 && LargestFits(s, r)
  {
    PlainSizes(2, 2, r, s.budget);
  }

  lemma WidenableEnlarges(p: LevelPolicy, c: Candidate, l: Levels, multiplier: real)
    requires multiplier > 0.0 && SoundLevels(c, l, p.ratio) && Widenable(p, c, l) && OnCents(l.stopLoss)
    requires l.stopDistance == Round2(RiskDistance(c.direction, c.entry, l.stopLoss))
    requires Extend(multiplier, l.stopDistance) > 0.01
    ensures !NeverEnlarges(p, c, l, multiplier)
  {
    var wider := PickDistance(Nearest(p, c, l), l.stopDistance, c.direction, c.entry, p.ratio);
    var reward := PickReward(wider, c.direction, c.entry, p.ratio);
    CentRoom(c.direction, c.entry, l.stopLoss, wider);
    var b := BracketAt(c.direction, c.entry, wider, reward);
    var t := TwoShares(c, multiplier, wider);
    var s := CardOn(t, p, c, l);
    TwoSharesPass(p, c, l, multiplier, wider, reward);
    assert s.Resized(b.stop, b.target) == s.request.(stopDistance := wider, targetDistance := reward);
    ReplyTaken(s, wider, reward);
    assert !NoLarger(s, FinalCard(s, ReplyWith(b)));
  }

  /** Half a cent past a cent stop is still above zero, and no recorded distance is more than twice the actual one. */
  lemma CentRoom(direction: Direction, entry: real, stop: real, wider: real)
    requires stop > 0.0 && OnCents(stop) && entry > 0.0
    requires 0.0 < RiskDistance(direction, entry, stop) < wider < Round2(RiskDistance(direction, entry, stop))
    ensures Round2(RiskDistance(direction, entry, stop)) <= wider + wider
    ensures (if direction.Long? then entry - wider else entry + wider) > 0.0
  {
    WholeCents(0.0, 0);
    assert stop >= 0.01;
    assert Round2(RiskDistance(direction, entry, stop)) >= 0.01;
  }

  /**
   No reply ever enlarges a candidate's card, under any terms, exactly when its levels pass no gate, a unit risks at
   most a cent, the recorded stop distance does not exceed the actual one, the ATR minimum lets no stop in between, or
   a short's target has no room above zero for one.
   */
  lemma NeverEnlargesIff(p: LevelPolicy, c: Candidate, multiplier: real)
    requires p.tick > 0.0 && multiplier > 0.0
    ensures var l := LevelsUnder(p, c);
            NeverEnlarges(p, c, l, multiplier) <==>
              || !SoundLevels(c, l, p.ratio) || Extend(multiplier, l.stopDistance) <= 0.01
              || l.stopDistance <= RiskDistance(c.direction, c.entry, l.stopLoss) || l.stopDistance <= MinStop(p, c)
              || !TargetRoom(c.direction, c.entry, p.ratio, Nearest(p, c, l))
  {
    var l := LevelsUnder(p, c);
    LevelsOnCents(p, c);
    if SoundLevels(c, l, p.ratio) && Extend(multiplier, l.stopDistance) > 0.01 && Widenable(p, c, l) {
      WidenableEnlarges(p, c, l, multiplier);
    } else {
      NothingEnlarges(p, c, l, multiplier);
    }
  }

  lemma NothingEnlarges(p: LevelPolicy, c: Candidate, l: Levels, multiplier: real)
    requires !(SoundLevels(c, l, p.ratio) && Extend(multiplier, l.stopDistance) > 0.01 && Widenable(p, c, l))
    ensures NeverEnlarges(p, c, l, multiplier)
  {
    forall t: Terms, f: LlmGate.Fields
      | t.multiplier == multiplier && Configured(t) && Passed(CardOn(t, p, c, l))
      ensures NoLarger(CardOn(t, p, c, l), FinalCard(CardOn(t, p, c, l), f))
    {
      LargerMeansWidenable(t, p, c, l, f);
    }
  }

  /** A long entry not below its nearest cent, or a short one not above it. */
  predicate EntryRoundsIn(direction: Direction, entry: real) {
    if direction.Long? then Round2(entry) <= entry else entry <= Round2(entry)
  }

  /** The same in terms of the entry: the recorded distance exceeds the actual one when the entry rounds away. */
  lemma NeverEnlargesIffEntryRoundsIn(p: LevelPolicy, c: Candidate, multiplier: real)
    requires p.tick > 0.0 && multiplier > 0.0 && !HalfCent(c.entry)
    ensures var l := LevelsUnder(p, c);
            NeverEnlarges(p, c, l, multiplier) <==>
              || !SoundLevels(c, l, p.ratio) || Extend(multiplier, l.stopDistance) <= 0.01
              || EntryRoundsIn(c.direction, c.entry) || l.stopDistance <= MinStop(p, c)
              || !TargetRoom(c.direction, c.entry, p.ratio, Nearest(p, c, l))
  {
    NeverEnlargesIff(p, c, multiplier);
    RecordedFollowsEntry(p, c);
  }

  // Candidates on either side of the boundary.

  /** A card that passes its gates under configured terms grows its max size when it takes the reply. */
  predicate Enlarges(t: Terms, s: Setup, f: LlmGate.Fields) {
    && Configured(t) && Passed(s)
    && LargestQty(s.cfg, s.budget, s.request) < LargestQty(s.cfg, s.budget, FinalCard(s, f).sizedFrom)
  }

  lemma RecordedUp()
    ensures Round2(100.006 - 99.0) == 1.01
  {
    assert RoundInt(100.6) == 101;
  }

  /** Capital of 201.60, one per cent of it per trade and two per cent of planned stop risk, for two shares at most. */
  const TWO_SHARES := TwoShares(LongAt(100.006), 1.0, 1.008)

  lemma TwoShareFunds()
    ensures TWO_SHARES.funds.capital == 201.6 && TWO_SHARES.funds.riskPctCap == 0.01 && TWO_SHARES.stopRiskPct == 0.02
  {
  }

  /** The reply that moves the stop from 99.00 to 98.998, with a distant target. */
  const WIDER_STOP := ReplyWith(Bracket(98.998, 103.0))

  /** A long at 100.006 with its stop at 99.00 is sized on 1.01: the reply turns its one share into two. */
  lemma WiderStopEnlarges()
    ensures Enlarges(TWO_SHARES, CardOf(TWO_SHARES, CENT_LEVELS, LongAt(100.006)), WIDER_STOP)
  {
    SoundAt(100.006);
    StopAt99(100.006);
    RecordedUp();
    LongEnlarges(LevelsUnder(CENT_LEVELS, LongAt(100.006)));
  }

  lemma LongEnlarges(l: Levels)
    requires l.stopLoss == 99.0 && l.stopDistance == 1.01 && SoundLevels(LongAt(100.006), l, 2.0)
    ensures Enlarges(TWO_SHARES, CardOn(TWO_SHARES, CENT_LEVELS, LongAt(100.006), l), WIDER_STOP)
  {
    var c := LongAt(100.006);
    var s := CardOn(TWO_SHARES, CENT_LEVELS, c, l);
    TwoSharesPass(CENT_LEVELS, c, l, 1.0, 1.008, 2.994);
    assert s.Resized(98.998, 103.0) == s.request.(stopDistance := 1.008, targetDistance := 2.994);
    assert Ceil(200.0) == 200 && RatioFloor(2.0) == 1.995;
    ReplyTaken(s, 1.008, 2.994);
  }

  /** The same entry and stop under an ATR minimum of 1.0105: the distance is recorded as 1.01 again. */
  const SHIELDED := Candidate(Long, 100.006, 1.0105 / 1.5, 99.5, 0.0)

  /** The ATR minimum shields that candidate: no terms and no reply enlarge its card. */
  lemma AtrMinimumShields(multiplier: real)
    requires multiplier > 0.0
    ensures var l := LevelsUnder(CENT_LEVELS, SHIELDED);
            && l.stopLoss == 99.0 && l.stopDistance == 1.01 && !EntryRoundsIn(Long, 100.006)
            && NeverEnlarges(CENT_LEVELS, SHIELDED, l, multiplier)
  {
    ShieldedLevels();
    assert RoundInt(10000.6) == 10001;
    NeverEnlargesIff(CENT_LEVELS, SHIELDED, multiplier);
  }

  lemma ShieldedLevels()
    ensures var l := LevelsUnder(CENT_LEVELS, SHIELDED); l.stopLoss == 99.0 && l.stopDistance == 1.01
    ensures MinStop(CENT_LEVELS, SHIELDED) == 1.0105
  {
    assert RequiredDistance(SHIELDED, 0.01, 1.5) == 1.0105;
    assert RoundInt(98.9955 / 0.01) == 9900;
    assert Ticks(9900, 0.01) == 99.0;
    WholeCents(99.0, 9900);
    Round2OnCents(99.0);
    RecordedUp();
  }
}
