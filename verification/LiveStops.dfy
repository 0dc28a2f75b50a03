/**
 The live native ratchet (`manage_trailing_stops`): which stop the desk asks the broker for at a price.
 */
module LiveStops {
  import opened Common
  import opened Rounding

  datatype Policy = Policy(
    triggerR: real,
    trailMultiple: real,
    breakevenR: Option<real>,
    breakevenBuffer: real,
    stepTicks: int)

  datatype Position = Position(long: bool, entry: real, quantity: real, riskDollars: real, multiplier: real,
                               tickSize: real)
  {
    function Sign(): real {
      if long then 1.0 else -1.0
    }
  }

  /** The price's gain in multiples of the risk. */
  function Multiple(p: Position, risk: real, price: real): real
    requires risk > 0.0
  {
    p.Sign() * (price - p.entry) / risk
  }

  function Breakeven(policy: Policy, p: Position): real
    requires p.multiplier != 0.0
  {
    p.entry + p.Sign() * policy.breakevenBuffer / p.multiplier
  }

  function Trailed(policy: Policy, p: Position, risk: real, price: real): real {
    price - p.Sign() * Max(risk, risk * policy.trailMultiple)
  }

  /** `candidate` is more protective than `stop` by more than `step`. */
  predicate Improves(p: Position, candidate: real, stop: real, step: real) {
    p.Sign() * (candidate - stop) > step
  }

  function MinStep(policy: Policy, p: Position): real {
    p.tickSize * policy.stepTicks as real
  }

  /** The stop the two rules leave at a positive risk. */
  function Target(policy: Policy, p: Position, stop: real, risk: real, price: real): real
    requires p.multiplier != 0.0 && risk > 0.0
  {
    var multiple := Multiple(p, risk, price);
    var first := if policy.breakevenR.Some? && multiple >= policy.breakevenR.value
                    && Improves(p, Breakeven(policy, p), stop, 0.0) then Breakeven(policy, p) else stop;
    if multiple >= policy.triggerR && Improves(p, Trailed(policy, p, risk, price), first, MinStep(policy, p))
    then Trailed(policy, p, risk, price) else first
  }

  /** The requested stop, or none when the price is unusable, the risk is not positive or nothing improves. */
  function Request(policy: Policy, p: Position, stop: real, price: real): Option<real>
    requires p.multiplier * p.quantity != 0.0 && p.multiplier != 0.0
  {
    var risk := p.riskDollars / (p.multiplier * p.quantity);
    if price <= 0.0 || risk <= 0.0 then None
    else
      var target := Target(policy, p, stop, risk, price);
      if target == stop then None else Some(target)
  }

  /** The broker's answer to a request: a failure, or success with the stop it reports, if any. */
  datatype Answer = Failed | Replaced(stop: Option<real>)

  /** One cycle: the price it sees and the answer a request would get. */
  datatype Cycle = Cycle(price: real, answer: Answer)

  /** The stop stored after a request; an authoritative broker must report the stop itself. */
  function Confirmed(before: real, requested: real, answer: Answer, authoritative: bool): real {
    match answer
    case Failed => before
    case Replaced(None) => if authoritative then before else requested
    case Replaced(Some(stop)) => stop
  }

  function StopAfterCycle(policy: Policy, p: Position, stop: real, c: Cycle, authoritative: bool): real
    requires p.multiplier * p.quantity != 0.0 && p.multiplier != 0.0
  {
    var r := Request(policy, p, stop, c.price);
    if r.Some? then Confirmed(stop, r.value, c.answer, authoritative) else stop
  }

  /** One cycle as a function of the stop it finds. */
  function Stepper(policy: Policy, p: Position, authoritative: bool): (real, Cycle) -> real
    requires p.multiplier * p.quantity != 0.0 && p.multiplier != 0.0
  {
    (stop: real, c: Cycle) => StopAfterCycle(policy, p, stop, c, authoritative)
  }

  function StopAfter(step: (real, Cycle) -> real, stop: real, cycles: seq<Cycle>): real {
    if cycles == [] then stop else step(StopAfter(step, stop, cycles[..|cycles| - 1]), cycles[|cycles| - 1])
  }

  /** Every request is strictly in the position's favour. */
  lemma RequestsImprove(policy: Policy, p: Position, stop: real, price: real)
    requires p.multiplier * p.quantity != 0.0 && p.multiplier != 0.0
    requires p.tickSize >= 0.0 && policy.stepTicks >= 0
    ensures var r := Request(policy, p, stop, price);
            r.Some? ==> p.Sign() * (r.value - stop) > 0.0
  {
    assert MinStep(policy, p) >= 0.0;
  }

  /** `to` is at least as protective as `from`. */
  predicate Protects(long: bool, from: real, to: real) {
    if long then from <= to else to <= from
  }

  /** The broker reports a stop worse than the one a request was to replace. */
  predicate Loosens(policy: Policy, p: Position, stop: real, c: Cycle)
    requires p.multiplier * p.quantity != 0.0 && p.multiplier != 0.0
  {
    && Request(policy, p, stop, c.price).Some? && c.answer.Replaced? && c.answer.stop.Some?
    && !Protects(p.long, stop, c.answer.stop.value)
  }

  /** A cycle moves the stop against the position exactly when the broker reports a worse one. */
  lemma CycleRatchetsIff(policy: Policy, p: Position, stop: real, c: Cycle, authoritative: bool)
    requires p.multiplier * p.quantity != 0.0 && p.multiplier != 0.0
    requires p.tickSize >= 0.0 && policy.stepTicks >= 0
    ensures Protects(p.long, stop, StopAfterCycle(policy, p, stop, c, authoritative)) <==> !Loosens(policy, p, stop, c)
  {
    RequestsImprove(policy, p, stop, c.price);
  }

  /** No cycle of the path moves the stop against the position. */
  ghost predicate EachProtects(long: bool, step: (real, Cycle) -> real, stop: real, cycles: seq<Cycle>) {
    forall i :: 0 <= i < |cycles| ==>
      var before := StopAfter(step, stop, cycles[..i]); Protects(long, before, step(before, cycles[i]))
  }

  lemma {:induction false} PathProtects(long: bool, step: (real, Cycle) -> real, stop: real, cycles: seq<Cycle>, k: nat)
    requires k <= |cycles| && EachProtects(long, step, stop, cycles)
    ensures Protects(long, StopAfter(step, stop, cycles[..k]), StopAfter(step, stop, cycles))
  {
    if k == |cycles| {
      assert cycles[..k] == cycles;
    } else {
      var init := cycles[..|cycles| - 1];
      assert forall i :: 0 <= i < |init| ==> init[..i] == cycles[..i] && init[i] == cycles[i];
      assert init[..k] == cycles[..k];
      PathProtects(long, step, stop, init, k);
    }
  }

  /**
   Over every path of prices and answers, failures included, the stored stop never moves against the position between
   any two cycles, provided the broker never reports a stop worse than the one it replaces.
   */
  lemma LiveStopsOnlyRatchet(policy: Policy, p: Position, stop: real, cycles: seq<Cycle>, k: nat, authoritative: bool)
    requires p.multiplier * p.quantity != 0.0 && p.multiplier != 0.0
    requires p.tickSize >= 0.0 && policy.stepTicks >= 0 && k <= |cycles|
    requires var step := Stepper(policy, p, authoritative);
             forall i :: 0 <= i < |cycles| ==> !Loosens(policy, p, StopAfter(step, stop, cycles[..i]), cycles[i])
    ensures var step := Stepper(policy, p, authoritative);
            Protects(p.long, StopAfter(step, stop, cycles[..k]), StopAfter(step, stop, cycles))
  {
    var step := Stepper(policy, p, authoritative);
    forall i | 0 <= i < |cycles|
      ensures var before := StopAfter(step, stop, cycles[..i]); Protects(p.long, before, step(before, cycles[i]))
    {
      CycleRatchetsIff(policy, p, StopAfter(step, stop, cycles[..i]), cycles[i], authoritative);
    }
    PathProtects(p.long, step, stop, cycles, k);
  }

  // When a stop is requested, and at which price.

  /** The planned risk in points. */
  function RiskPoints(p: Position): real
    requires p.multiplier * p.quantity != 0.0
  {
    p.riskDollars / (p.multiplier * p.quantity)
  }

  function Ahead(p: Position, price: real): real {
    if p.long then price - p.entry else p.entry - price
  }

  /** The price is ahead of the entry by the multiple of the risk. */
  predicate Reached(ahead: real, risk: real, multiple: real) {
    ahead >= multiple * risk
  }

  predicate Better(long: bool, candidate: real, stop: real, step: real) {
    if long then candidate > stop + step else candidate < stop - step
  }

  /** The entry with the buffer's points in the position's favour. */
  function EvenPrice(policy: Policy, p: Position): real
    requires p.multiplier != 0.0
  {
    if p.long then p.entry + policy.breakevenBuffer / p.multiplier else p.entry - policy.breakevenBuffer / p.multiplier
  }

  /** The price less the trail: the risk, or a multiple of it above one. */
  function TrailPrice(policy: Policy, long: bool, risk: real, price: real): real {
    var trail := if risk * policy.trailMultiple > risk then risk * policy.trailMultiple else risk;
    if long then price - trail else price + trail
  }

  function LeastStep(policy: Policy, p: Position): real {
    p.tickSize * policy.stepTicks as real
  }

  predicate EvenDue(policy: Policy, p: Position, stop: real, price: real)
    requires p.multiplier * p.quantity != 0.0 && p.multiplier != 0.0
  {
    && policy.breakevenR.Some? && Reached(Ahead(p, price), RiskPoints(p), policy.breakevenR.value)
    && Better(p.long, EvenPrice(policy, p), stop, 0.0)
  }

  predicate TrailDue(policy: Policy, p: Position, stop: real, price: real)
    requires p.multiplier * p.quantity != 0.0
  {
    && Reached(Ahead(p, price), RiskPoints(p), policy.triggerR)
    && Better(p.long, TrailPrice(policy, p.long, RiskPoints(p), price), stop, LeastStep(policy, p))
  }

  /** The stop the two rules ask for. */
  function Wanted(policy: Policy, p: Position, stop: real, price: real): real
    requires p.multiplier * p.quantity != 0.0 && p.multiplier != 0.0
  {
    var first := if EvenDue(policy, p, stop, price) then EvenPrice(policy, p) else stop;
    if TrailDue(policy, p, first, price) then TrailPrice(policy, p.long, RiskPoints(p), price) else first
  }

  lemma MultipleReaches(p: Position, price: real, risk: real, multiple: real)
    requires risk > 0.0
    ensures Multiple(p, risk, price) >= multiple <==> Reached(Ahead(p, price), risk, multiple)
  {
    var ahead := Ahead(p, price);
    assert p.Sign() * (price - p.entry) == ahead;
    QuotientReaches(ahead, risk, multiple);
  }

  lemma QuotientReaches(ahead: real, risk: real, multiple: real)
    requires risk > 0.0
    ensures ahead / risk >= multiple <==> Reached(ahead, risk, multiple)
  {
    var x := ahead / risk;
    assert x * risk == ahead;
    var d := x - multiple;
    assert d * risk == ahead - multiple * risk;
    assert d >= 0.0 ==> d * risk >= 0.0;
    assert d < 0.0 ==> d * risk < 0.0;
  }

  lemma PricesAre(policy: Policy, p: Position, risk: real, price: real)
    requires p.multiplier != 0.0
    ensures Breakeven(policy, p) == EvenPrice(policy, p)
    ensures Trailed(policy, p, risk, price) == TrailPrice(policy, p.long, risk, price)
    ensures MinStep(policy, p) == LeastStep(policy, p)
  {
  }

  lemma BetterIs(p: Position, candidate: real, stop: real, step: real)
    ensures Improves(p, candidate, stop, step) <==> Better(p.long, candidate, stop, step)
  {
  }

  lemma TargetIs(policy: Policy, p: Position, stop: real, price: real)
    requires p.multiplier * p.quantity != 0.0 && p.multiplier != 0.0 && RiskPoints(p) > 0.0
    ensures Target(policy, p, stop, RiskPoints(p), price) == Wanted(policy, p, stop, price)
  {
    var risk := RiskPoints(p);
    PricesAre(policy, p, risk, price);
    if policy.breakevenR.Some? {
      MultipleReaches(p, price, risk, policy.breakevenR.value);
    }
    MultipleReaches(p, price, risk, policy.triggerR);
    BetterIs(p, EvenPrice(policy, p), stop, 0.0);
    var first := if EvenDue(policy, p, stop, price) then EvenPrice(policy, p) else stop;
    BetterIs(p, TrailPrice(policy, p.long, risk, price), first, LeastStep(policy, p));
  }

  /**
   A usable price and a positive risk request what the rules ask for, when that is another stop; nothing else does.
   */
  lemma RequestIs(policy: Policy, p: Position, stop: real, price: real)
    requires p.multiplier * p.quantity != 0.0 && p.multiplier != 0.0
    ensures var wanted := Wanted(policy, p, stop, price);
            Request(policy, p, stop, price) ==
              if price > 0.0 && RiskPoints(p) > 0.0 && wanted != stop then Some(wanted) else None
  {
    if price > 0.0 && RiskPoints(p) > 0.0 {
      TargetIs(policy, p, stop, price);
    }
  }

  /** A request is made exactly when the price and the risk are positive and one of the rules is due. */
  lemma RequestedIff(policy: Policy, p: Position, stop: real, price: real)
    requires p.multiplier * p.quantity != 0.0 && p.multiplier != 0.0
    requires p.tickSize >= 0.0 && policy.stepTicks >= 0
    ensures Request(policy, p, stop, price).Some? <==>
              && price > 0.0 && RiskPoints(p) > 0.0
              && (EvenDue(policy, p, stop, price) || TrailDue(policy, p, stop, price))
  {
    RequestIs(policy, p, stop, price);
    assert LeastStep(policy, p) >= 0.0;
  }

  /**
   The stop after a cycle: a request the broker replaces leaves the stop it reports, or the requested one where it
   reports none and need not; everything else leaves the stop found.
   */
  lemma CycleStores(policy: Policy, p: Position, stop: real, c: Cycle, authoritative: bool)
    requires p.multiplier * p.quantity != 0.0 && p.multiplier != 0.0
    ensures var wanted := Wanted(policy, p, stop, c.price);
            StopAfterCycle(policy, p, stop, c, authoritative) ==
              if c.price <= 0.0 || RiskPoints(p) <= 0.0 || wanted == stop || c.answer == Failed then stop
              else if c.answer.stop.Some? then c.answer.stop.value
              else if authoritative then stop else wanted
  {
    RequestIs(policy, p, stop, c.price);
  }
}
