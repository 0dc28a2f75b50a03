/**
 The ledger and the drawdown machine together: adjusted equity moves with ledger P&L alone, however much
 external cash comes and goes.
 */
module LedgerRisk {
  import opened Rounding
  import opened Sums
  import opened Ledger
  import opened LedgerLaws
  import opened AccountRisk
  import opened RiskRuns

  function AmountOf(p: (string, Evidence)): real {
    p.1.amount
  }

  /** An activity's classified external flow (deposits and withdrawals). */
  function FlowOf(a: Activity): real {
    if IsCashTransfer(a) && a.kind.value != "JNLC" && a.netAmount.Num? then a.netAmount.value else 0.0
  }

  /** An activity's unclassified cash journal. */
  function JournalOf(a: Activity): real {
    if IsCashTransfer(a) && a.kind.value == "JNLC" && a.netAmount.Num? then a.netAmount.value else 0.0
  }

  lemma AddTransferTotals(h: History, a: Activity)
    requires AddTransfer(h, a).Ok?
    ensures var h' := AddTransfer(h, a).value;
            && h'.total == h.total + FlowOf(a)
            && Sum(h'.journals, AmountOf) == Sum(h.journals, AmountOf) + JournalOf(a)
            && TransferOf(a) == FlowOf(a) + JournalOf(a)
  {
    var h' := AddTransfer(h, a).value;
    if h'.journals != h.journals {
      assert h'.journals[..|h'.journals| - 1] == h.journals;
    }
  }

  lemma {:induction false} HistoryTotals(activities: seq<Activity>)
    requires CashHistory(activities).Ok?
    ensures var h := CashHistory(activities).value;
            Sum(activities, TransferOf) == h.total + Sum(h.journals, AmountOf)
  {
    if activities != [] {
      HistoryTotals(activities[..|activities| - 1]);
      AddTransferTotals(CashHistory(activities[..|activities| - 1]).value, activities[|activities| - 1]);
    }
  }

  /** The observation carries the ledger's own report on its activities. */
  ghost predicate FromLedger(o: Observation, tolerance: real) {
    o.cp.snapshot.Doc? && o.cp.report == Doc(Report(o.activities, o.cp.snapshot.value, tolerance))
  }

  ghost predicate Within(x: real, y: real, bound: real) {
    Abs(x - y) <= bound
  }

  /** `x` is the P&L `p` shifted by `offset`, within `tolerance`. */
  ghost predicate Shifted(x: real, p: real, offset: real, tolerance: real) {
    Within(x, p + offset, tolerance)
  }

  /** From `y` to `x` is the change from `q` to `p`, within twice the tolerance. */
  ghost predicate MovesWith(x: real, y: real, p: real, q: real, tolerance: real) {
    Within(x - y, p - q, 2.0 * tolerance)
  }

  /** What separates adjusted equity from P&L: fixed by the baseline alone. */
  ghost function Offset(risk: RiskSnapshot): real {
    risk.baselineFlows + Sum(risk.journals, AmountOf)
  }

  ghost function PnlAt(a: Acceptance): real
    requires Describes(a)
  {
    Pnl(a.seen.cp.report.value)
  }

  lemma SortedHistoryTotals(activities: seq<Activity>)
    requires CashHistory(activities).Ok?
    ensures var h := CashHistory(activities).value;
            Sum(activities, TransferOf) == h.total + Sum(SortById(h.journals), AmountOf)
  {
    var journals := CashHistory(activities).value.journals;
    HistoryTotals(activities);
    SortKeeps(journals);
    SumPermutation(journals, SortById(journals), AmountOf);
  }

  lemma EquityIsCashPlusPnl(a: Acceptance, tolerance: real)
    requires Describes(a) && FromLedger(a.seen, tolerance)
    ensures Explained(a.risk.equity, Sum(a.seen.activities, TransferOf), PnlAt(a), tolerance)
  {
    LedgerEquation(a.seen.activities, a.seen.cp.snapshot.value, tolerance);
  }

  lemma AdjustedIsPnlPlusOffset(a: Acceptance, tolerance: real)
    requires Describes(a) && FromLedger(a.seen, tolerance)
    requires a.risk.adjusted == a.risk.equity - (a.risk.flows - a.risk.baselineFlows)
    ensures Shifted(a.risk.adjusted, PnlAt(a), Offset(a.risk), tolerance)
  {
    EquityIsCashPlusPnl(a, tolerance);
    SortedHistoryTotals(a.seen.activities);
    Shift(a.risk.equity, Sum(a.seen.activities, TransferOf), PnlAt(a), a.risk.flows - a.risk.baselineFlows, tolerance);
  }

  lemma Shift(equity: real, transfers: real, pnl: real, flows: real, tolerance: real)
    requires Explained(equity, transfers, pnl, tolerance)
    ensures Shifted(equity - flows, pnl, transfers - flows, tolerance)
  {
  }

  /** The largest P&L over the acceptances. */
  ghost function PeakPnl(acc: seq<Acceptance>): real
    requires acc != [] && forall a :: a in acc ==> Describes(a)
  {
    var last := PnlAt(acc[|acc| - 1]);
    if |acc| == 1 then last else Max(PeakPnl(acc[..|acc| - 1]), last)
  }

  ghost predicate Tracks(acc: seq<Acceptance>, offset: real, tolerance: real) {
    forall i :: 0 <= i < |acc| ==> Describes(acc[i]) && Shifted(acc[i].risk.adjusted, PnlAt(acc[i]), offset, tolerance)
  }

  lemma {:induction false} PeakTracks(acc: seq<Acceptance>, offset: real, tolerance: real)
    requires acc != [] && Tracks(acc, offset, tolerance) && forall a :: a in acc ==> Describes(a)
    ensures Shifted(Peak(acc), PeakPnl(acc), offset, tolerance)
  {
    assert Shifted(acc[|acc| - 1].risk.adjusted, PnlAt(acc[|acc| - 1]), offset, tolerance);
    if |acc| > 1 {
      PeakTracks(acc[..|acc| - 1], offset, tolerance);
    }
  }

  lemma {:induction false} AcceptedAreObserved(run: seq<Observation>, i: nat)
    requires i < |Accepted(run)|
    ensures Accepted(run)[i].seen in run
  {
    if run != [] && i < |Accepted(run[..|run| - 1])| {
      AcceptedAreObserved(run[..|run| - 1], i);
    }
  }

  lemma ChainTracks(acc: seq<Acceptance>, tolerance: real)
    requires Chain(acc) && acc != [] && forall i :: 0 <= i < |acc| ==> FromLedger(acc[i].seen, tolerance)
    ensures Tracks(acc, Offset(acc[0].risk), tolerance) && forall a :: a in acc ==> Describes(a)
  {
    forall i | 0 <= i < |acc| ensures Describes(acc[i])
      && Shifted(acc[i].risk.adjusted, PnlAt(acc[i]), Offset(acc[0].risk), tolerance) {
      ChainLaws(acc, 0, i);
      AdjustedIsPnlPlusOffset(acc[i], tolerance);
    }
  }

  lemma RunTracks(run: seq<Observation>, tolerance: real)
    requires forall o :: o in run ==> FromLedger(o, tolerance)
    requires Accepted(run) != []
    ensures Tracks(Accepted(run), Offset(Accepted(run)[0].risk), tolerance)
    ensures forall a :: a in Accepted(run) ==> Describes(a)
  {
    RunIsChain(run);
    forall i | 0 <= i < |Accepted(run)| ensures FromLedger(Accepted(run)[i].seen, tolerance) {
      AcceptedAreObserved(run, i);
    }
    ChainTracks(Accepted(run), tolerance);
  }

  /**
   Over every run of reconciled observations, between any two acceptances adjusted equity changes by the change
   in ledger P&L, within twice the cash tolerance: no deposit or withdrawal, however many, shows in it.
   */
  lemma AdjustedMovesWithPnl(run: seq<Observation>, tolerance: real, i: nat, j: nat)
    requires forall o :: o in run ==> FromLedger(o, tolerance)
    requires i < |Accepted(run)| && j < |Accepted(run)|
    ensures forall a :: a in Accepted(run) ==> Describes(a)
    ensures var a, b := Accepted(run)[i], Accepted(run)[j];
            MovesWith(b.risk.adjusted, a.risk.adjusted, PnlAt(b), PnlAt(a), tolerance)
  {
    RunTracks(run, tolerance);
    var acc := Accepted(run);
    var offset := Offset(acc[0].risk);
    Differences(acc[j].risk.adjusted, PnlAt(acc[j]), acc[i].risk.adjusted, PnlAt(acc[i]), offset, tolerance);
  }

  /**
   The stored figures after any such run: gain since the baseline, peak since the baseline and dollar drawdown
   are those of the P&L series, each within twice the tolerance.
   */
  lemma StoredRiskMeasuresPnl(run: seq<Observation>, tolerance: real)
    requires forall o :: o in run ==> FromLedger(o, tolerance)
    ensures forall a :: a in Accepted(run) ==> Describes(a)
    ensures Run(run).risk.Doc? <==> Accepted(run) != []
    ensures Run(run).risk.Doc? ==> Measures(Run(run).risk.value, Accepted(run), tolerance)
  {
    HighWaterIsPeak(run);
    RunIsChain(run);
    if Accepted(run) != [] {
      RunTracks(run, tolerance);
      TrackedMeasures(Run(run).risk.value, Accepted(run), tolerance);
    }
  }

  /** Gain since the baseline, peak since the baseline and dollar drawdown, against those of the P&L series. */
  ghost predicate Measures(risk: RiskSnapshot, acc: seq<Acceptance>, tolerance: real)
    requires acc != [] && forall a :: a in acc ==> Describes(a)
  {
    var first, last, peak := PnlAt(acc[0]), PnlAt(acc[|acc| - 1]), PeakPnl(acc);
    && MovesWith(risk.adjusted, risk.baselineEquity, last, first, tolerance)
    && MovesWith(risk.highWater, risk.baselineEquity, peak, first, tolerance)
    && MovesWith(risk.highWater, risk.adjusted, peak, last, tolerance)
  }

  lemma TrackedMeasures(risk: RiskSnapshot, acc: seq<Acceptance>, tolerance: real)
    requires acc != [] && (forall a :: a in acc ==> Describes(a)) && Tracks(acc, Offset(acc[0].risk), tolerance)
    requires risk.highWater == Peak(acc) && risk.adjusted == acc[|acc| - 1].risk.adjusted
    requires risk.baselineEquity == acc[0].risk.adjusted
    ensures Measures(risk, acc, tolerance)
  {
    var offset, last := Offset(acc[0].risk), |acc| - 1;
    PeakTracks(acc, offset, tolerance);
    Differences(acc[last].risk.adjusted, PnlAt(acc[last]), acc[0].risk.adjusted, PnlAt(acc[0]), offset, tolerance);
    Differences(Peak(acc), PeakPnl(acc), acc[0].risk.adjusted, PnlAt(acc[0]), offset, tolerance);
    Differences(Peak(acc), PeakPnl(acc), acc[last].risk.adjusted, PnlAt(acc[last]), offset, tolerance);
  }

  lemma Differences(x: real, p: real, y: real, q: real, offset: real, tolerance: real)
    requires Shifted(x, p, offset, tolerance) && Shifted(y, q, offset, tolerance)
    ensures MovesWith(x, y, p, q, tolerance)
  {
  }
}
