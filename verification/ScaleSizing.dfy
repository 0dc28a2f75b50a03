/**
 Scaling a sized card down (`scale_sizing`): every tier floors to whole units, equal ones collapse with the
 default surviving, and a card whose default is gone is dropped.
 */
module ScaleSizing {
  import opened Common
  import opened Rounding
  import opened Sizing

  /** A card's headline size and tiers; `tiers` is empty when the card has none. */
  datatype Card = Card(equity: bool, quantity: real, risk: real, reward: real, notional: real, tiers: seq<Tier>)

  /** A raised error, a card that cannot be sized, or the scaled card. */
  datatype Outcome = Refused | Dropped | Scaled(card: Card)

  function Floored(quantity: real, factor: real): real {
    Extend(quantity, factor).Floor as real
  }

  function Rescaled(dollars: real, quantity: real, held: real): real
    requires held != 0.0
  {
    Round2(Extend(dollars, quantity / held))
  }

  /** Whether a quantity survives scaling. */
  predicate Survives(quantity: real, factor: real, minUnits: real) {
    quantity > 0.0 && Floored(quantity, factor) >= minUnits
  }

  function ScaledTier(t: Tier, factor: real): Tier
    requires t.quantity > 0.0
  {
    var q := Floored(t.quantity, factor);
    t.(quantity := q, risk := Rescaled(t.risk, q, t.quantity), reward := Rescaled(t.reward, q, t.quantity),
       notional := Rescaled(t.notional, q, t.quantity))
  }

  /** What scaling does to one tier: a scaled tier, or nothing. */
  function Scaler(factor: real, minUnits: real): Tier -> Option<Tier> {
    (t: Tier) => if Survives(t.quantity, factor, minUnits) then Some(ScaledTier(t, factor)) else None
  }

  /** `s` stands for `wanted`: the same quantity, and default if that was. */
  predicate Covers(s: Tier, wanted: Tier) {
    s.quantity == wanted.quantity && (wanted.isDefault ==> s.isDefault)
  }

  /** `s` is what one of `tiers` scales to. */
  ghost predicate Comes(f: Tier -> Option<Tier>, tiers: seq<Tier>, s: Tier) {
    exists t :: t in tiers && f(t) == Some(s)
  }

  ghost predicate Covered(out: seq<Tier>, wanted: Tier) {
    exists s :: s in out && Covers(s, wanted)
  }

  /** The survivors without repeated quantities: nothing new, nothing lost, no default lost. */
  ghost predicate Collapses(f: Tier -> Option<Tier>, tiers: seq<Tier>, out: seq<Tier>) {
    && (forall s :: s in out ==> Comes(f, tiers, s))
    && (forall t :: t in tiers && f(t).Some? ==> Covered(out, f(t).value))
  }

  /** The dictionary by quantity after the first `i` tiers. */
  ghost predicate Filled(f: Tier -> Option<Tier>, m: map<real, Tier>, tiers: seq<Tier>, i: nat)
    requires i <= |tiers|
  {
    && (forall q :: q in m ==> m[q].quantity == q && Comes(f, tiers, m[q]))
    && (forall k :: 0 <= k < i && f(tiers[k]).Some? ==>
           f(tiers[k]).value.quantity in m && Covers(m[f(tiers[k]).value.quantity], f(tiers[k]).value))
  }

  /** The keys of a dictionary in insertion order. */
  ghost predicate KeysOf(m: map<real, Tier>, keys: seq<real>) {
    (forall i, j :: 0 <= i < j < |keys| ==> keys[i] != keys[j]) && forall q :: q in keys <==> q in m
  }

  method FillByQuantity(f: Tier -> Option<Tier>, tiers: seq<Tier>) returns (m: map<real, Tier>, keys: seq<real>)
    ensures Filled(f, m, tiers, |tiers|) && KeysOf(m, keys)
  {
    m, keys := map[], [];
    for i := 0 to |tiers|
      invariant Filled(f, m, tiers, i) && KeysOf(m, keys)
    {
      var scaled := f(tiers[i]);
      if scaled.Some? {
        var q := scaled.value.quantity;
        assert Comes(f, tiers, scaled.value);
        if q !in m {
          keys, m := keys + [q], m[q := scaled.value];
        } else if scaled.value.isDefault && !m[q].isDefault {
          m := m[q := scaled.value];
        }
      }
    }
  }

  function InsertKey(s: seq<real>, q: real): seq<real> {
    if s == [] || q < s[0] then [q] + s else [s[0]] + InsertKey(s[1..], q)
  }

  ghost predicate Ascending(s: seq<real>) {
    forall i, j :: 0 <= i < j < |s| ==> s[i] < s[j]
  }

  lemma {:induction false} InsertKeyLaws(s: seq<real>, q: real)
    requires Ascending(s) && q !in s
    ensures Ascending(InsertKey(s, q)) && forall x :: x in InsertKey(s, q) <==> x in s || x == q
  {
    if s == [] || q < s[0] {
    } else {
      InsertKeyLaws(s[1..], q);
      var rest := InsertKey(s[1..], q);
      forall j | 0 <= j < |rest| ensures s[0] < rest[j] {
        assert rest[j] in s[1..] || rest[j] == q;
      }
      assert s == [s[0]] + s[1..];
    }
  }

  /** `[by_quantity[q] for q in sorted(by_quantity)]`. */
  method InOrder(m: map<real, Tier>, inserted: seq<real>) returns (out: seq<Tier>)
    requires KeysOf(m, inserted) && forall q :: q in m ==> m[q].quantity == q
    ensures IncreasingTiers(out) && forall s :: s in out <==> s.quantity in m && s == m[s.quantity]
  {
    var keys: seq<real> := [];
    for i := 0 to |inserted|
      invariant Ascending(keys) && forall q :: q in keys <==> q in inserted[..i]
    {
      InsertKeyLaws(keys, inserted[i]);
      keys := InsertKey(keys, inserted[i]);
    }
    assert inserted[..|inserted|] == inserted;
    out := [];
    for i := 0 to |keys|
      invariant |out| == i && forall k :: 0 <= k < i ==> keys[k] in m && out[k] == m[keys[k]]
    {
      assert keys[i] in keys;
      out := out + [m[keys[i]]];
    }
    forall s ensures s in out <==> s.quantity in m && s == m[s.quantity] {
      if s.quantity in m && s == m[s.quantity] {
        assert s.quantity in keys;
        var k :| 0 <= k < |keys| && keys[k] == s.quantity;
        assert out[k] == s;
      }
    }
  }

  method ScaleTiers(f: Tier -> Option<Tier>, tiers: seq<Tier>) returns (out: seq<Tier>)
    ensures IncreasingTiers(out) && Collapses(f, tiers, out)
  {
    var m, keys := FillByQuantity(f, tiers);
    out := InOrder(m, keys);
    forall t | t in tiers && f(t).Some? ensures Covered(out, f(t).value) {
      var k :| 0 <= k < |tiers| && tiers[k] == t;
      assert m[f(t).value.quantity] in out && Covers(m[f(t).value.quantity], f(t).value);
    }
  }

  /** The first default of an ordered tier list. */
  method FirstDefault(tiers: seq<Tier>) returns (r: Option<Tier>)
    ensures r.Some? ==> r.value in tiers && r.value.isDefault
    ensures r.None? <==> forall t :: t in tiers ==> !t.isDefault
  {
    for i := 0 to |tiers|
      invariant forall k :: 0 <= k < i ==> !tiers[k].isDefault
    {
      if tiers[i].isDefault {
        return Some(tiers[i]);
      }
    }
    return None;
  }

  /** The headline figures are those of `d`. */
  predicate Headlines(card: Card, d: Tier) {
    card.quantity == d.quantity && card.risk == d.risk && card.reward == d.reward && card.notional == d.notional
  }

  /** The headline of a card with tiers comes from a surviving default. */
  ghost predicate HeadlineIsDefault(f: Tier -> Option<Tier>, tiers: seq<Tier>, scaled: Card) {
    exists t, d :: t in tiers && t.isDefault && f(t) == Some(d) && d in scaled.tiers && Headlines(scaled, d)
  }

  /** Scaling a headline without tiers. */
  function ScaledHeadline(card: Card, factor: real): Card
    requires card.quantity > 0.0
  {
    var q := Floored(card.quantity, factor);
    card.(quantity := q, risk := Rescaled(card.risk, q, card.quantity),
          reward := Rescaled(card.reward, q, card.quantity),
          notional := Rescaled(card.notional, q, card.quantity))
  }

  /** The tiers' part of `scale_sizing`, for any scaling that keeps the default mark. */
  method ScaleCardTiers(f: Tier -> Option<Tier>, card: Card) returns (r: Outcome)
    requires card.tiers != [] && KeepsDefault(f)
    ensures !r.Refused? && TiersScaled(card, f, r)
  {
    var tiers := ScaleTiers(f, card.tiers);
    var default := FirstDefault(tiers);
    DefaultSurvives(f, card.tiers, tiers);
    if default.None? {
      return Dropped;
    }
    var d := default.value;
    assert Comes(f, card.tiers, d);
    ghost var t :| t in card.tiers && f(t) == Some(d);
    r := Scaled(card.(quantity := d.quantity, risk := d.risk, reward := d.reward, notional := d.notional,
                      tiers := tiers));
    assert Headlines(r.card, d);
  }

  ghost predicate KeepsDefault(f: Tier -> Option<Tier>) {
    forall t :: f(t).Some? ==> f(t).value.isDefault == t.isDefault
  }

  /** The survivors of a card's tiers in increasing order under a surviving default, or nothing without one. */
  ghost predicate TiersScaled(card: Card, f: Tier -> Option<Tier>, r: Outcome) {
    && (r.Dropped? <==> forall t :: t in card.tiers && t.isDefault ==> f(t).None?)
    && (r.Scaled? ==>
          && IncreasingTiers(r.card.tiers) && Collapses(f, card.tiers, r.card.tiers)
          && HeadlineIsDefault(f, card.tiers, r.card) && r.card.equity == card.equity)
  }

  /**
   An equity card and a factor in [0, 1] are required; factor one changes nothing; otherwise the card is dropped
   exactly when no default tier survives (the headline, for a card without tiers).
   */
  ghost predicate ScalesTo(card: Card, factor: real, minUnits: real, r: Outcome) {
    if !card.equity || !(0.0 <= factor <= 1.0) then r.Refused?
    else if factor == 1.0 then r == Scaled(card)
    else if card.tiers == [] then
      r == if Survives(card.quantity, factor, minUnits) then Scaled(ScaledHeadline(card, factor)) else Dropped
    else !r.Refused? && TiersScaled(card, Scaler(factor, minUnits), r)
  }

  /** `scale_sizing`. */
  method Scale(card: Card, factor: real, minUnits: real) returns (r: Outcome)
    ensures ScalesTo(card, factor, minUnits, r)
  {
    if !card.equity || !(0.0 <= factor <= 1.0) {
      r := Refused;
    } else if factor == 1.0 {
      r := Scaled(card);
    } else if card.tiers != [] {
      r := ScaleCardTiers(Scaler(factor, minUnits), card);
    } else if Survives(card.quantity, factor, minUnits) {
      r := Scaled(ScaledHeadline(card, factor));
    } else {
      r := Dropped;
    }
  }

  /** A collapsed list holds a default exactly when a default survives. */
  lemma DefaultSurvives(f: Tier -> Option<Tier>, tiers: seq<Tier>, out: seq<Tier>)
    requires Collapses(f, tiers, out) && KeepsDefault(f)
    ensures (exists s :: s in out && s.isDefault) <==> exists t :: t in tiers && t.isDefault && f(t).Some?
  {
    if s :| s in out && s.isDefault {
      assert Comes(f, tiers, s);
      var t :| t in tiers && f(t) == Some(s);
      assert t.isDefault;
    }
    if t :| t in tiers && t.isDefault && f(t).Some? {
      assert Covered(out, f(t).value);
      var s :| s in out && Covers(s, f(t).value);
      assert s.isDefault;
    }
  }

  /** A survivor has whole units, no more than it had and no more than the factor allows. */
  lemma SurvivorsShrink(t: Tier, factor: real, minUnits: real)
    requires Survives(t.quantity, factor, minUnits) && 0.0 <= factor <= 1.0
    ensures var s := ScaledTier(t, factor);
            && Whole(s.quantity) && minUnits <= s.quantity && 0.0 <= s.quantity <= t.quantity
            && s.quantity <= Extend(t.quantity, factor) < s.quantity + 1.0
            && s.id == t.id && s.isDefault == t.isDefault
  {
    assert 0.0 <= t.quantity * factor <= t.quantity;
  }

  lemma UnitRatio(q: real, held: real)
    requires 0.0 <= q <= held && held > 0.0
    ensures 0.0 <= q / held <= 1.0 && Extend(held, q / held) == q
  {
    assert q / held * held == q;
  }

  lemma Shrinks(e: real, ratio: real, bound: real)
    requires 0.0 <= ratio <= 1.0 && Abs(e) <= bound
    ensures Abs(Extend(e, ratio)) <= bound
  {
    assert Extend(e, ratio) + Extend(e, 1.0 - ratio) == e;
    Signs(e, ratio);
    Signs(e, 1.0 - ratio);
  }

  lemma Signs(e: real, ratio: real)
    requires ratio >= 0.0
    ensures e >= 0.0 ==> Extend(e, ratio) >= 0.0
    ensures e <= 0.0 ==> Extend(e, ratio) <= 0.0
  {
  }

  lemma RatioKeepsError(dollars: real, unit: real, q: real, held: real)
    requires 0.0 <= q <= held && held > 0.0 && Abs(dollars - Extend(unit, held)) <= 0.005
    ensures Abs(Extend(dollars, q / held) - Extend(unit, q)) <= 0.005
  {
    UnitRatio(q, held);
    var ratio := q / held;
    Shrinks(dollars - Extend(unit, held), ratio, 0.005);
    Distributes(dollars, unit, held, ratio, q);
  }

  lemma Distributes(dollars: real, unit: real, held: real, ratio: real, q: real)
    requires held * ratio == q
    ensures Extend(dollars - Extend(unit, held), ratio) == Extend(dollars, ratio) - Extend(unit, q)
  {
    assert unit * held * ratio == unit * (held * ratio);
  }

  /**
   A rescaled dollar figure is within one cent of what the tier builder gives for the new quantity, whichever
   per-unit figure it came from.
   */
  lemma DollarsWithinOneCent(unit: real, q: real, held: real)
    requires 0.0 <= q <= held && held > 0.0
    ensures Abs(Rescaled(Round2(Extend(unit, held)), q, held) - Round2(Extend(unit, q))) <= 0.01
  {
    var dollars := Round2(Extend(unit, held));
    RatioKeepsError(dollars, unit, q, held);
    CentsApart(Extend(dollars, q / held), Extend(unit, q));
  }

  lemma CentsApart(x: real, y: real)
    requires Abs(x - y) <= 0.005
    ensures Abs(Round2(x) - Round2(y)) <= 0.01
  {
    var a, b := RoundInt(x * 100.0), RoundInt(y * 100.0);
    assert -2 < a - b < 2;
  }

  /** A scaled tier's notional never exceeds the original's, so book sizing only frees notional. */
  lemma ScaledNotionalShrinks(t: Tier, factor: real, minUnits: real)
    requires Survives(t.quantity, factor, minUnits) && 0.0 <= factor <= 1.0 && t.notional >= 0.0 && OnCents(t.notional)
    ensures 0.0 <= ScaledTier(t, factor).notional <= t.notional && OnCents(ScaledTier(t, factor).notional)
  {
    SurvivorsShrink(t, factor, minUnits);
    RescaledShrinks(t.notional, Floored(t.quantity, factor), t.quantity);
  }

  lemma RescaledShrinks(dollars: real, q: real, held: real)
    requires 0.0 <= q <= held && held > 0.0 && dollars >= 0.0 && OnCents(dollars)
    ensures 0.0 <= Rescaled(dollars, q, held) <= dollars
  {
    UnitRatio(q, held);
    Shrinks(dollars, q / held, dollars);
    assert Extend(dollars, q / held) >= 0.0;
    ShrinksToCents(dollars, Extend(dollars, q / held));
  }

  lemma ShrinksToCents(x: real, y: real)
    requires OnCents(x) && 0.0 <= y <= x
    ensures 0.0 <= Round2(y) <= x
  {
    assert OnCents(0.0);
    Round2AtMost(y, x);
    Round2AtLeast(y, 0.0);
  }

  // What scaling does to the figures, on the raw ones.

  /** `q` is the whole part of the quantity's share. */
  predicate WholeShare(held: real, factor: real, q: real) {
    Whole(q) && q <= Extend(held, factor) < q + 1.0
  }

  /** A dollar figure in proportion to the quantity, to the cent. */
  predicate Prorates(dollars: real, held: real, q: real, scaled: real) {
    OnCents(scaled) && Abs(Extend(scaled, held) - Extend(dollars, q)) <= Extend(0.005, held)
  }

  lemma RescaledProrates(dollars: real, held: real, q: real)
    requires held > 0.0
    ensures Prorates(dollars, held, q, Rescaled(dollars, q, held))
  {
    var exact, scaled := Extend(dollars, q / held), Rescaled(dollars, q, held);
    ExactShare(dollars, held, q);
    var e := scaled - exact;
    assert Extend(scaled, held) - Extend(exact, held) == Extend(e, held);
    Signs(0.005 - e, held);
    Signs(0.005 + e, held);
    assert Extend(0.005 - e, held) == Extend(0.005, held) - Extend(e, held);
    assert Extend(0.005 + e, held) == Extend(0.005, held) + Extend(e, held);
  }

  lemma ExactShare(dollars: real, held: real, q: real)
    requires held > 0.0
    ensures Extend(Extend(dollars, q / held), held) == Extend(dollars, q)
  {
    assert q / held * held == q;
    Associates(dollars, q / held, held);
  }

  lemma Associates(x: real, y: real, z: real)
    ensures Extend(Extend(x, y), z) == Extend(x, y * z)
  {
  }

  /** A scaled tier, in its own figures. */
  lemma TierScales(t: Tier, factor: real)
    requires t.quantity > 0.0
    ensures var s := ScaledTier(t, factor);
            && s.id == t.id && s.isDefault == t.isDefault && WholeShare(t.quantity, factor, s.quantity)
            && Prorates(t.risk, t.quantity, s.quantity, s.risk)
            && Prorates(t.reward, t.quantity, s.quantity, s.reward)
            && Prorates(t.notional, t.quantity, s.quantity, s.notional)
  {
    var q := Floored(t.quantity, factor);
    RescaledProrates(t.risk, t.quantity, q);
    RescaledProrates(t.reward, t.quantity, q);
    RescaledProrates(t.notional, t.quantity, q);
  }

  /** The figures of `s` are those of `card` in proportion to the whole part of its share. */
  predicate InProportion(card: Card, factor: real, s: Card) {
    && s.equity == card.equity && s.tiers == card.tiers && WholeShare(card.quantity, factor, s.quantity)
    && Prorates(card.risk, card.quantity, s.quantity, s.risk)
    && Prorates(card.reward, card.quantity, s.quantity, s.reward)
    && Prorates(card.notional, card.quantity, s.quantity, s.notional)
  }

  lemma HeadlineScales(card: Card, factor: real)
    requires card.quantity > 0.0
    ensures InProportion(card, factor, ScaledHeadline(card, factor))
  {
    var q := Floored(card.quantity, factor);
    RescaledProrates(card.risk, card.quantity, q);
    RescaledProrates(card.reward, card.quantity, q);
    RescaledProrates(card.notional, card.quantity, q);
  }

  /** Some whole part of the share reaches the minimum. */
  ghost predicate ReachesMinimum(held: real, factor: real, minUnits: real) {
    held > 0.0 && exists q :: WholeShare(held, factor, q) && q >= minUnits
  }

  lemma SurvivesIff(held: real, factor: real, minUnits: real)
    ensures Survives(held, factor, minUnits) <==> ReachesMinimum(held, factor, minUnits)
  {
    assert WholeShare(held, factor, Floored(held, factor));
    if q :| WholeShare(held, factor, q) && q >= minUnits {
      OneWholePart(Extend(held, factor), q);
    }
  }

  lemma OneWholePart(x: real, q: real)
    requires Whole(q) && q <= x < q + 1.0
    ensures q == x.Floor as real
  {
    var a, b := q.Floor, x.Floor;
    assert a <= b && b < a + 1;
  }

  /**
   A card without tiers is kept exactly when the whole part of its share reaches the minimum, with its figures in
   proportion.
   */
  lemma TierlessScales(card: Card, factor: real, minUnits: real, r: Outcome)
    requires ScalesTo(card, factor, minUnits, r) && card.equity && card.tiers == [] && 0.0 <= factor < 1.0
    ensures if ReachesMinimum(card.quantity, factor, minUnits) then r.Scaled? && InProportion(card, factor, r.card)
            else r == Dropped
  {
    SurvivesIff(card.quantity, factor, minUnits);
    if card.quantity > 0.0 {
      HeadlineScales(card, factor);
    }
  }
}
