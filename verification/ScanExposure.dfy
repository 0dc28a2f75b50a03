/**
 Open notional through the send loop: each card is sized against what all earlier ones left, and book sizing only
 shrinks it, so a scan that starts under the portfolio ceiling stays under it.
 */
module ScanExposure {
  import opened Common
  import opened Rounding
  import LlmGate
  import Sizing
  import Evaluation
  import ScaleSizing
  import opened SendLoop
  import opened SendLaws

  /** What is left under the ceiling. */
  function Left(ceiling: real, exposure: real): real {
    Max(0.0, ceiling - exposure)
  }

  /** A cent amount that fits what is left: exactly when that is whole cents, else to half a cent. */
  predicate Fits(notional: real, left: real) {
    OnCents(notional) && 0.0 <= notional <= left + 0.005 && (OnCents(left) ==> notional <= left)
  }

  /** At every exposure the card fits what is left, and book sizing only shrinks it. */
  ghost predicate SizedWithin(ceiling: real, a: Attempt) {
    && (forall e :: Fits(a.size(e), Left(ceiling, e)))
    && (a.book.BookSizes? ==> forall x :: OnCents(x) && x >= 0.0 ==>
         OnCents(a.book.shrink(x)) && 0.0 <= a.book.shrink(x) <= x)
  }

  lemma CardFits(ceiling: real, s: State, a: Attempt)
    requires SizedWithin(ceiling, a)
    ensures Fits(CardNotional(s, a), Left(ceiling, s.exposure))
  {
  }

  /** The scan's exposure is under the ceiling, to half a cent; exactly, on whole cents. */
  ghost predicate Under(ceiling: real, exact: bool, exposure: real) {
    if exact then OnCents(exposure) && exposure <= ceiling else exposure <= ceiling + 0.005
  }

  lemma AddedStaysUnder(ceiling: real, exact: bool, exposure: real, notional: real)
    requires Under(ceiling, exact, exposure) && (exact ==> OnCents(ceiling)) && Fits(notional, Left(ceiling, exposure))
    ensures Under(ceiling, exact, exposure + notional)
  {
    if exact {
      CentsClosed(ceiling, exposure);
      CentsClosed(exposure, notional);
    } else {
      assert OnCents(0.0);
    }
  }

  /** Every card, however many, keeps the exposure under the ceiling. */
  lemma {:induction false} ExposureStaysUnderCeiling(desk: Desk, scan: Scan, s: State, ranked: seq<Attempt>,
                                                     ceiling: real, exact: bool)
    requires Under(ceiling, exact, s.exposure) && (exact ==> OnCents(ceiling))
    requires forall a :: a in ranked ==> SizedWithin(ceiling, a)
    ensures Under(ceiling, exact, SendAll(desk, scan, s, ranked).exposure)
  {
    if ranked != [] {
      var init, a := ranked[..|ranked| - 1], ranked[|ranked| - 1];
      ExposureStaysUnderCeiling(desk, scan, s, init, ceiling, exact);
      var u := SendAll(desk, scan, s, init);
      StepRecordsOrNothing(desk, scan, u, a);
      StepStaysUnder(desk, scan, u, a, SendStep(desk, scan, u, a), ceiling, exact);
    }
  }

  lemma StepStaysUnder(desk: Desk, scan: Scan, s: State, a: Attempt, t: State, ceiling: real, exact: bool)
    requires RecordsOrNothing(desk, scan, s, a, t) && SizedWithin(ceiling, a)
    requires Under(ceiling, exact, s.exposure) && (exact ==> OnCents(ceiling))
    ensures Under(ceiling, exact, t.exposure)
  {
    CardFits(ceiling, s, a);
    AddedStaysUnder(ceiling, exact, s.exposure, CardNotional(s, a));
  }

  function Recorded(rows: seq<Row>): real {
    if rows == [] then 0.0 else Recorded(rows[..|rows| - 1]) + rows[|rows| - 1].notional
  }

  /**
   What the loop counts is what it recorded, unless an iteration fails between recording a card and adding it to
   the book: that card alone is then missing.
   */
  lemma StepCountsWhatItRecords(desk: Desk, scan: Scan, s: State, a: Attempt, t: State)
    requires RecordsOrNothing(desk, scan, s, a, t)
    ensures var added := Recorded(t.rows) - Recorded(s.rows);
            && (t.exposure - s.exposure == added || (a.lateFailure && t.exposure == s.exposure))
            && added == (if t.log[|s.log|].outcome.Sent? then CardNotional(s, a) else 0.0)
  {
    if t.log[|s.log|].outcome.Sent? {
      assert t.rows[..|t.rows| - 1] == s.rows;
    }
  }

  /** The open book a scan began with and everything it has recorded since. */
  function OnRecord(s: State, t: State): real {
    s.exposure + (Recorded(t.rows) - Recorded(s.rows))
  }

  /**
   The step records a card and then fails before adding it to the book. The loop charges the budgets first against
   exactly that; it names no statement in between that raises, so this is the failure it provides for, not one seen.
   */
  ghost predicate Forgets(desk: Desk, scan: Scan, s: State, a: Attempt) {
    && a.lateFailure
    && var t := SendStep(desk, scan, s, a); |t.log| == |s.log| + 1 && t.log[|s.log|].outcome.Sent?
  }

  /** The notional of all such cards over a send loop. */
  ghost function Forgotten(desk: Desk, scan: Scan, s: State, ranked: seq<Attempt>): real {
    if ranked == [] then 0.0
    else
      var init, a := ranked[..|ranked| - 1], ranked[|ranked| - 1];
      var u := SendAll(desk, scan, s, init);
      Plus(Forgotten(desk, scan, s, init), Forgets(desk, scan, u, a), CardNotional(u, a))
  }

  /** Some card of positive notional was forgotten. */
  ghost predicate ForgetsSome(desk: Desk, scan: Scan, s: State, ranked: seq<Attempt>) {
    ranked != [] &&
      var init, a := ranked[..|ranked| - 1], ranked[|ranked| - 1];
      var u := SendAll(desk, scan, s, init);
      ForgetsSome(desk, scan, s, init) || (Forgets(desk, scan, u, a) && CardNotional(u, a) > 0.0)
  }

  lemma {:induction false} RecordedIsCountedPlusForgotten(desk: Desk, scan: Scan, s: State, ranked: seq<Attempt>)
    ensures var t := SendAll(desk, scan, s, ranked);
            OnRecord(s, t) == t.exposure + Forgotten(desk, scan, s, ranked)
  {
    if ranked != [] {
      var init, a := ranked[..|ranked| - 1], ranked[|ranked| - 1];
      RecordedIsCountedPlusForgotten(desk, scan, s, init);
      var u := SendAll(desk, scan, s, init);
      StepRecordsOrNothing(desk, scan, u, a);
      StepCountsWhatItRecords(desk, scan, u, a, SendStep(desk, scan, u, a));
    }
  }

  lemma {:induction false} ForgottenSign(desk: Desk, scan: Scan, s: State, ranked: seq<Attempt>, ceiling: real)
    requires forall a :: a in ranked ==> SizedWithin(ceiling, a)
    ensures Forgotten(desk, scan, s, ranked) >= 0.0
    ensures Forgotten(desk, scan, s, ranked) > 0.0 <==> ForgetsSome(desk, scan, s, ranked)
  {
    if ranked != [] {
      var init, a := ranked[..|ranked| - 1], ranked[|ranked| - 1];
      ForgottenSign(desk, scan, s, init, ceiling);
      CardFits(ceiling, SendAll(desk, scan, s, init), a);
    }
  }

  /** `x` dollars more when `added`. */
  function Plus(total: real, added: bool, x: real): real {
    total + if added then x else 0.0
  }

  lemma PlusOnCents(total: real, added: bool, x: real)
    requires OnCents(total) && OnCents(x)
    ensures OnCents(Plus(total, added, x))
  {
    CentsClosed(total, x);
  }

  lemma {:induction false} ForgottenOnCents(desk: Desk, scan: Scan, s: State, ranked: seq<Attempt>, ceiling: real)
    requires forall a :: a in ranked ==> SizedWithin(ceiling, a)
    ensures OnCents(Forgotten(desk, scan, s, ranked))
  {
    if ranked == [] {
      WholeCents(0.0, 0);
    } else {
      var init, a := ranked[..|ranked| - 1], ranked[|ranked| - 1];
      var u := SendAll(desk, scan, s, init);
      ForgottenOnCents(desk, scan, s, init, ceiling);
      CardFits(ceiling, u, a);
      PlusOnCents(Forgotten(desk, scan, s, init), Forgets(desk, scan, u, a), CardNotional(u, a));
    }
  }

  /**
   The notional on record, over the open book the scan began with, is what the loop counts plus what it forgot. The
   loop counts all it records exactly when no card of positive notional was recorded and then lost to a failure, and
   the record stays under the ceiling exactly when what was forgotten fits in the room the count leaves.
   */
  lemma RecordedNotionalStaysUnderCeiling(desk: Desk, scan: Scan, s: State, ranked: seq<Attempt>, ceiling: real,
                                          exact: bool)
    requires Under(ceiling, exact, s.exposure) && (exact ==> OnCents(ceiling))
    requires forall a :: a in ranked ==> SizedWithin(ceiling, a)
    ensures var t := SendAll(desk, scan, s, ranked);
            Accounted(OnRecord(s, t), t.exposure, Forgotten(desk, scan, s, ranked), ForgetsSome(desk, scan, s, ranked),
                      ceiling, exact)
  {
    RecordedIsCountedPlusForgotten(desk, scan, s, ranked);
    ForgottenSign(desk, scan, s, ranked, ceiling);
    ForgottenOnCents(desk, scan, s, ranked, ceiling);
    ExposureStaysUnderCeiling(desk, scan, s, ranked, ceiling, exact);
    var t := SendAll(desk, scan, s, ranked);
    Account(OnRecord(s, t), t.exposure, Forgotten(desk, scan, s, ranked), ForgetsSome(desk, scan, s, ranked), ceiling,
            exact);
  }

  ghost predicate Accounted(recorded: real, counted: real, forgotten: real, some: bool, ceiling: real, exact: bool) {
    && recorded == counted + forgotten && Under(ceiling, exact, counted)
    && (recorded == counted <==> !some)
    && (Under(ceiling, exact, recorded) <==> forgotten <= Room(ceiling, exact, counted))
  }

  /** What may still be added under the ceiling. */
  function Room(ceiling: real, exact: bool, counted: real): real {
    ceiling - counted + if exact then 0.0 else 0.005
  }

  lemma Account(recorded: real, counted: real, forgotten: real, some: bool, ceiling: real, exact: bool)
    requires recorded == counted + forgotten && Under(ceiling, exact, counted)
    requires forgotten >= 0.0 && (forgotten > 0.0 <==> some) && OnCents(forgotten)
    ensures Accounted(recorded, counted, forgotten, some, ceiling, exact)
  {
    if exact {
      CentsClosed(counted, forgotten);
    }
  }

  /** A card of 60 while it fits under 100, in a scan without LLM, groups or sources. */
  function SixtyUnderHundred(contract: string, lateFailure: bool): Attempt {
    Attempt(Candidate(contract, "native", None), false, No, false, ReachesGate(LlmGate.NotObject, false),
            e => if e + 60.0 <= 100.0 then 60.0 else 0.0, BookSizes(x => x), false, lateFailure)
  }

  const PLAIN_DESK: Desk := Desk(2, 2, 1, 1, map[], {}, c => {}, c => c, p => None)
  const PLAIN_SCAN: Scan := Scan(Full, false, false, false, {}, false)

  lemma SixtyIsSizedWithin(contract: string, lateFailure: bool)
    ensures SizedWithin(100.0, SixtyUnderHundred(contract, lateFailure))
  {
    assert OnCents(60.0) && OnCents(0.0);
  }

  lemma SixtyIsRecorded(s: State, contract: string, lateFailure: bool)
    requires s.remainingScan > 0 && s.remainingSession > 0 && s.exposure == 0.0
    ensures var t := SendStep(PLAIN_DESK, PLAIN_SCAN, s, SixtyUnderHundred(contract, lateFailure));
            && t.rows == s.rows + [Row(contract, "native", false, 60.0)]
            && t.exposure == (if lateFailure then 0.0 else 60.0)
            && t.remainingScan == s.remainingScan - 1 && t.remainingSession == s.remainingSession - 1
  {
    var a := SixtyUnderHundred(contract, lateFailure);
    assert CappedGroups(PLAIN_DESK, PLAIN_SCAN, a.candidate) == {};
    assert Precheck(PLAIN_DESK, PLAIN_SCAN, s, a) == Proceed;
    assert CardNotional(s, a) == 60.0;
  }

  lemma SendTwo(desk: Desk, scan: Scan, s: State, a: Attempt, b: Attempt)
    ensures SendAll(desk, scan, s, [a, b]) == SendStep(desk, scan, SendStep(desk, scan, s, a), b)
  {
    assert [a, b][..1] == [a] && [a][..0] == [];
    assert SendAll(desk, scan, s, [a]) == SendStep(desk, scan, s, a);
  }

  lemma RecordedTwo(a: Row, b: Row)
    ensures Recorded([] + [a] + [b]) == a.notional + b.notional
  {
    var both := [] + [a] + [b];
    assert both[..1] == [a] && [a][..0] == [];
    assert Recorded([a]) == a.notional;
  }

  /** The proviso is needed: one such failure and two cards of 60 are recorded under a ceiling of 100. */
  lemma LateFailureBreaksCeiling()
    ensures var ranked := [SixtyUnderHundred("A", true), SixtyUnderHundred("B", false)];
            && (forall a :: a in ranked ==> SizedWithin(100.0, a))
            && Recorded(SendAll(PLAIN_DESK, PLAIN_SCAN, Begin(PLAIN_DESK, PLAIN_SCAN, [], 0.0, 2), ranked).rows) ==
               120.0
  {
    var a, b := SixtyUnderHundred("A", true), SixtyUnderHundred("B", false);
    SixtyIsSizedWithin("A", true);
    SixtyIsSizedWithin("B", false);
    var s := Begin(PLAIN_DESK, PLAIN_SCAN, [], 0.0, 2);
    SixtyIsRecorded(s, "A", true);
    SixtyIsRecorded(SendStep(PLAIN_DESK, PLAIN_SCAN, s, a), "B", false);
    SendTwo(PLAIN_DESK, PLAIN_SCAN, s, a, b);
    RecordedTwo(Row("A", "native", false, 60.0), Row("B", "native", false, 60.0));
  }

  // The evaluator and the book sizer provide exactly such cards.

  /** The evaluated card's notional when the open book holds `exposure`. */
  function EvaluatedNotional(s: Evaluation.Setup, f: LlmGate.Fields, exposure: real): real {
    var at := s.(request := s.request.(openNotional := exposure));
    var r := Evaluation.FinalCard(at, f).sizedFrom;
    if Sizing.Blocked(s.cfg, s.budget, r) then 0.0
    else Round2(Sizing.Extend(Sizing.UnitNotional(r), Sizing.DefaultQty(s.cfg, s.budget, r)))
  }

  lemma EvaluatorFits(s: Evaluation.Setup, f: LlmGate.Fields, exposure: real)
    requires Sizing.PositiveMinimums(s.cfg)
    ensures Fits(EvaluatedNotional(s, f, exposure), Left(s.cfg.maxPortfolioNotional, exposure))
  {
    var at := s.(request := s.request.(openNotional := exposure));
    var r := Evaluation.FinalCard(at, f).sizedFrom;
    if Sizing.Blocked(s.cfg, s.budget, r) {
      assert OnCents(0.0);
    } else {
      var t := DefaultTier(s.cfg, s.budget, r);
      Evaluation.CardNotionalFits(at, f, t);
    }
  }

  /** The default tier of an unblocked card. */
  lemma DefaultTier(cfg: Sizing.Config, b: Sizing.Budget, r: Sizing.Request) returns (t: Sizing.Tier)
    requires Sizing.PositiveMinimums(cfg) && !Sizing.Blocked(cfg, b, r)
    ensures t in Sizing.TiersOf(cfg, b, r) && t.isDefault && t.quantity == Sizing.DefaultQty(cfg, b, r) > 0.0
    ensures t.notional == Round2(Sizing.Extend(Sizing.UnitNotional(r), t.quantity))
  {
    Sizing.UnblockedPlans(cfg, b, r);
    var plans := Sizing.Plans(r.assetClass, Sizing.MaxQty(cfg, b, r), Sizing.BaseQty(cfg, b, r));
    var d :| Sizing.DefaultAt(plans, d, Sizing.BaseQty(cfg, b, r));
    t := Sizing.TierFor(Sizing.UnitOf(r), plans[d]);
    assert Sizing.Rows(Sizing.UnitOf(r), plans)[d] == t;
    Sizing.RowsWithinMax(Sizing.UnitOf(r), plans, Sizing.MaxQty(cfg, b, r), Sizing.BaseQty(cfg, b, r), t);
  }

  /** `y` is `x` after `scale_sizing` by some factor. */
  ghost predicate ScaledDown(x: real, y: real) {
    exists quantity: real, factor: real ::
      && quantity > 0.0 && 0.0 <= factor <= 1.0
      && y == ScaleSizing.Rescaled(x, ScaleSizing.Floored(quantity, factor), quantity)
  }

  /**
   A candidate sized by the evaluator, whatever the LLM replies, and then by the book, satisfies the loop's requirement.
   */
  lemma EvaluatedAttemptsAreSizedWithin(s: Evaluation.Setup, f: LlmGate.Fields, a: Attempt)
    requires Sizing.PositiveMinimums(s.cfg)
    requires forall e :: a.size(e) == EvaluatedNotional(s, f, e)
    requires a.book.BookSizes? ==> forall x :: OnCents(x) && x >= 0.0 ==> ScaledDown(x, a.book.shrink(x))
    ensures SizedWithin(s.cfg.maxPortfolioNotional, a)
  {
    forall e ensures Fits(a.size(e), Left(s.cfg.maxPortfolioNotional, e)) {
      EvaluatorFits(s, f, e);
    }
    if a.book.BookSizes? {
      forall x | OnCents(x) && x >= 0.0 ensures OnCents(a.book.shrink(x)) && 0.0 <= a.book.shrink(x) <= x {
        var q: real, factor: real :| q > 0.0 && 0.0 <= factor <= 1.0
          && a.book.shrink(x) == ScaleSizing.Rescaled(x, ScaleSizing.Floored(q, factor), q);
        BookScalingShrinks(q, factor, x);
      }
    }
  }

  /** Book sizing by `scale_sizing` shrinks a cent notional to a cent notional. */
  lemma BookScalingShrinks(quantity: real, factor: real, x: real)
    requires quantity > 0.0 && 0.0 <= factor <= 1.0 && OnCents(x) && x >= 0.0
    ensures var y := ScaleSizing.Rescaled(x, ScaleSizing.Floored(quantity, factor), quantity);
            OnCents(y) && 0.0 <= y <= x
  {
    assert 0.0 <= quantity * factor <= quantity;
    ScaleSizing.RescaledShrinks(x, ScaleSizing.Floored(quantity, factor), quantity);
  }
}
