/**
 `scale_sizing` on the tier builder's cards: what is dropped, what every surviving tier is, and what scaling twice
 leaves.
 */
module ScaleLaws {
  import opened Common
  import opened Rounding
  import opened Sizing
  import opened ScaleSizing

  /** The card has tiers, and its headline and every default tier have the quantity `q`. */
  ghost predicate OneDefault(card: Card, q: real) {
    && card.equity && card.quantity == q
    && (exists d :: d in card.tiers && d.isDefault)
    && (forall d :: d in card.tiers && d.isDefault ==> d.quantity == q)
  }

  /** What scaling leaves of a default quantity: all of it at factor one, else its floor if that survives. */
  function Left(q: real, factor: real, minUnits: real): Option<real> {
    if factor == 1.0 then Some(q) else if Survives(q, factor, minUnits) then Some(Floored(q, factor)) else None
  }

  /** One scaling of a card with one default quantity leaves a card exactly when something is left of that quantity. */
  lemma ScaleOne(card: Card, q: real, factor: real, minUnits: real, r: Outcome)
    requires OneDefault(card, q) && 0.0 <= factor <= 1.0 && ScalesTo(card, factor, minUnits, r)
    ensures if Left(q, factor, minUnits).None? then r.Dropped?
            else r.Scaled? && OneDefault(r.card, Left(q, factor, minUnits).value)
  {
    if factor != 1.0 {
      ScalerOn(q, factor, minUnits);
      DefaultLeft(card, q, Scaler(factor, minUnits), Survives(q, factor, minUnits), Floored(q, factor), r);
    }
  }

  /** The scaling keeps or loses every tier of one quantity alike. */
  ghost predicate ScalesAlike(f: Tier -> Option<Tier>, q: real, survives: bool, scaled: real) {
    forall t: Tier :: t.quantity == q ==> (f(t).Some? <==> survives) && (survives ==> f(t).value.quantity == scaled)
  }

  lemma ScalerOn(q: real, factor: real, minUnits: real)
    ensures KeepsDefault(Scaler(factor, minUnits))
    ensures ScalesAlike(Scaler(factor, minUnits), q, Survives(q, factor, minUnits), Floored(q, factor))
  {
  }

  lemma DefaultLeft(card: Card, q: real, f: Tier -> Option<Tier>, survives: bool, scaled: real, r: Outcome)
    requires OneDefault(card, q) && KeepsDefault(f) && ScalesAlike(f, q, survives, scaled)
    requires !r.Refused? && TiersScaled(card, f, r)
    ensures if survives then r.Scaled? && OneDefault(r.card, scaled) else r.Dropped?
  {
    var d :| d in card.tiers && d.isDefault;
    assert d.quantity == q;
    if survives {
      ScaledDefaults(card, q, f, scaled, r.card);
    }
  }

  /** A scaling that keeps the default mark takes one default quantity to one. */
  lemma ScaledDefaults(card: Card, q: real, f: Tier -> Option<Tier>, scaled: real, out: Card)
    requires OneDefault(card, q) && KeepsDefault(f) && TiersScaled(card, f, Scaled(out))
    requires forall t: Tier :: t.quantity == q && f(t).Some? ==> f(t).value.quantity == scaled
    ensures OneDefault(out, scaled)
  {
    forall s | s in out.tiers && s.isDefault ensures s.quantity == scaled {
      assert Comes(f, card.tiers, s);
      var t :| t in card.tiers && f(t) == Some(s);
      assert t.isDefault;
    }
    var t, d :| t in card.tiers && t.isDefault && f(t) == Some(d) && d in out.tiers && Headlines(out, d);
    assert d.isDefault;
  }

  /**
   Scaling twice never gives more than scaling once by the product: whenever both scalings leave a card, so does the
   one, with a headline at least as large.
   */
  lemma TwiceAtMostOnce(card: Card, q: real, f: real, g: real, minUnits: real, first: Outcome, second: Outcome,
                        once: Outcome)
    requires OneDefault(card, q) && 0.0 <= f <= 1.0 && 0.0 <= g <= 1.0
    requires ScalesTo(card, f, minUnits, first) && ScalesTo(card, Extend(f, g), minUnits, once)
    requires first.Scaled? && ScalesTo(first.card, g, minUnits, second)
    ensures second.Scaled? ==> once.Scaled? && second.card.quantity <= once.card.quantity
  {
    UnitFactors(f, g);
    ScaleOne(card, q, f, minUnits, first);
    ScaleOne(card, q, Extend(f, g), minUnits, once);
    ScaleOne(first.card, first.card.quantity, g, minUnits, second);
    LeftTwice(q, f, g, minUnits);
  }

  lemma LeftTwice(q: real, f: real, g: real, minUnits: real)
    requires 0.0 <= f <= 1.0 && 0.0 <= g <= 1.0
    ensures var first, once := Left(q, f, minUnits), Left(q, Extend(f, g), minUnits);
            first.Some? && Left(first.value, g, minUnits).Some? ==>
              once.Some? && Left(first.value, g, minUnits).value <= once.value
  {
    UnitFactors(f, g);
    if f != 1.0 && g != 1.0 && q > 0.0 {
      FloorsTwice(q, f, g);
    }
  }

  lemma UnitFactors(f: real, g: real)
    requires 0.0 <= f <= 1.0 && 0.0 <= g <= 1.0
    ensures 0.0 <= Extend(f, g) <= 1.0 && (Extend(f, g) == 1.0 <==> f == 1.0 && g == 1.0)
    ensures f == 1.0 ==> Extend(f, g) == g
    ensures g == 1.0 ==> Extend(f, g) == f
  {
    Signs(f, g);
    Signs(f, 1.0 - g);
    assert Extend(f, 1.0 - g) == f - Extend(f, g);
  }

  lemma FloorsTwice(q: real, f: real, g: real)
    requires q >= 0.0 && 0.0 <= f <= 1.0 && 0.0 <= g <= 1.0
    ensures Floored(Floored(q, f), g) <= Floored(q, Extend(f, g))
  {
    var once := Floored(q, f);
    assert once <= q * f;
    assert Extend(once, g) <= Extend(q, Extend(f, g)) by {
      assert (q * f - once) * g >= 0.0;
      assert q * f * g == q * (f * g);
    }
  }

  // The tier builder's cards.

  /** An equity card as the sizer builds it. */
  ghost predicate BuiltCard(cfg: Config, b: Budget, r: Request, card: Card) {
    && r.assetClass.Shares? && PositiveMinimums(cfg) && !Blocked(cfg, b, r)
    && card.equity && card.tiers == TiersOf(cfg, b, r) && card.quantity == DefaultQty(cfg, b, r)
  }

  /** The tier is the builder's row for some quantity. */
  predicate BuiltTier(u: Unit, t: Tier) {
    t == TierFor(u, Plan(t.id, t.quantity, t.isDefault))
  }

  lemma BuiltTiers(cfg: Config, b: Budget, r: Request, card: Card)
    requires BuiltCard(cfg, b, r, card)
    ensures OneDefault(card, BaseQty(cfg, b, r)) && IncreasingTiers(card.tiers)
    ensures forall t :: t in card.tiers ==> BuiltTier(UnitOf(r), t) && t.quantity > 0.0
  {
    UnblockedPlans(cfg, b, r);
    var max, base := MaxQty(cfg, b, r), BaseQty(cfg, b, r);
    var plans := Plans(Shares, max, base);
    var d :| DefaultAt(plans, d, base);
    assert card.tiers == Rows(UnitOf(r), plans);
    assert card.tiers[d] == TierFor(UnitOf(r), plans[d]);
    assert card.tiers[d] in card.tiers;
    forall t | t in card.tiers ensures BuiltTier(UnitOf(r), t) && t.quantity > 0.0 && (t.isDefault ==>
      t.quantity == base) {
      var i :| 0 <= i < |plans| && card.tiers[i] == t;
      assert t == TierFor(UnitOf(r), plans[i]);
      RowsWithinMax(UnitOf(r), plans, max, base, t);
    }
    SharePlansIncrease(max, base);
  }

  lemma SharePlansIncrease(maxQty: real, baseQty: real)
    ensures StrictlyIncreasing(Plans(Shares, maxQty, baseQty))
  {
  }

  /** Whole units no more than the original tier's, and every dollar figure within a cent of the builder's for them. */
  predicate ScaledFrom(u: Unit, t: Tier, s: Tier) {
    && Whole(s.quantity) && 0.0 <= s.quantity <= t.quantity && s.id == t.id && s.isDefault == t.isDefault
    && WithinCent(s, TierFor(u, Plan(s.id, s.quantity, s.isDefault)))
  }

  predicate WithinCent(s: Tier, t: Tier) {
    Abs(s.risk - t.risk) <= 0.01 && Abs(s.reward - t.reward) <= 0.01 && Abs(s.notional - t.notional) <= 0.01
  }

  lemma BuiltTierScales(u: Unit, t: Tier, factor: real, minUnits: real)
    requires BuiltTier(u, t) && Survives(t.quantity, factor, minUnits) && 0.0 <= factor <= 1.0
    ensures ScaledFrom(u, t, ScaledTier(t, factor))
  {
    SurvivorsShrink(t, factor, minUnits);
    var q := Floored(t.quantity, factor);
    DollarsWithinOneCent(u.risk, q, t.quantity);
    DollarsWithinOneCent(u.reward, q, t.quantity);
    DollarsWithinOneCent(u.notional, q, t.quantity);
  }

  /**
   A builder's card after scaling below factor one. It is dropped exactly when the default floors below `minUnits`;
   otherwise the tiers come in strictly increasing whole quantities, each from an original tier no smaller with dollars
   within a cent of the builder's for its quantity, and the headline is the floored default.
   */
  ghost predicate WellScaled(card: Card, u: Unit, scaled: real, minUnits: real, out: Outcome) {
    && (out.Dropped? <==> scaled < minUnits) && (out.Scaled? <==> !out.Dropped?)
    && (out.Scaled? ==>
          && out.card.quantity == scaled && IncreasingTiers(out.card.tiers)
          && (exists d :: d in out.card.tiers && d.isDefault && d.quantity == scaled)
          && forall s :: s in out.card.tiers ==> exists t :: t in card.tiers && ScaledFrom(u, t, s))
  }

  /** `scale_sizing` on a card from the tier builder. */
  lemma BuiltCardScales(cfg: Config, b: Budget, r: Request, card: Card, factor: real, minUnits: real, out: Outcome)
    requires 0.0 <= factor < 1.0
    ensures BuiltCard(cfg, b, r, card) && ScalesTo(card, factor, minUnits, out) ==>
              WellScaled(card, UnitOf(r), Floored(BaseQty(cfg, b, r), factor), minUnits, out)
  {
    if BuiltCard(cfg, b, r, card) && ScalesTo(card, factor, minUnits, out) {
      BuiltTiers(cfg, b, r, card);
      BuiltScale(card, UnitOf(r), BaseQty(cfg, b, r), factor, minUnits, out);
    }
  }

  lemma BuiltScale(card: Card, u: Unit, base: real, factor: real, minUnits: real, out: Outcome)
    requires OneDefault(card, base) && base > 0.0 && 0.0 <= factor < 1.0 && ScalesTo(card, factor, minUnits, out)
    requires forall t :: t in card.tiers ==> BuiltTier(u, t)
    ensures WellScaled(card, u, Floored(base, factor), minUnits, out)
  {
    ScaleOne(card, base, factor, minUnits, out);
    if out.Scaled? {
      var f := Scaler(factor, minUnits);
      forall s | s in out.card.tiers ensures exists t :: t in card.tiers && ScaledFrom(u, t, s) {
        assert Comes(f, card.tiers, s);
        var t :| t in card.tiers && f(t) == Some(s);
        BuiltTierScales(u, t, factor, minUnits);
      }
    }
  }

  /** Two successive scalings of a card from the tier builder against one by the product. */
  lemma BuiltCardTwice(cfg: Config, b: Budget, r: Request, card: Card, f: real, g: real, minUnits: real,
                       first: Outcome, second: Outcome, once: Outcome)
    requires 0.0 <= f <= 1.0 && 0.0 <= g <= 1.0
    ensures
      && BuiltCard(cfg, b, r, card) && ScalesTo(card, f, minUnits, first)
      && ScalesTo(card, Extend(f, g), minUnits, once)
      && first.Scaled? && ScalesTo(first.card, g, minUnits, second) && second.Scaled?
      ==> once.Scaled? && second.card.quantity <= once.card.quantity
  {
    if && BuiltCard(cfg, b, r, card) && ScalesTo(card, f, minUnits, first)
       && ScalesTo(card, Extend(f, g), minUnits, once) && first.Scaled? && ScalesTo(first.card, g, minUnits, second)
    {
      BuiltTiers(cfg, b, r, card);
      TwiceAtMostOnce(card, BaseQty(cfg, b, r), f, g, minUnits, first, second, once);
    }
  }
}
