/**
 Laws of the drawdown state machine over every sequence of observations from the empty state.
 */
module RiskRuns {
  import opened Common
  import opened Rounding
  import opened Ledger
  import LedgerLaws
  import opened AccountRisk

  /** What one refresh feeds the machine. */
  datatype Observation = Observation(cp: Checkpoint, activities: seq<Activity>, accountId: string, now: Moment)

  ghost function Step(s: RiskFields, o: Observation): RiskFields {
    Advance(s, o.cp, o.activities, o.accountId, o.now)
  }

  ghost function Continue(s: RiskFields, run: seq<Observation>): RiskFields {
    if run == [] then s else Step(Continue(s, run[..|run| - 1]), run[|run| - 1])
  }

  ghost function Run(run: seq<Observation>): RiskFields {
    Continue(NO_RISK, run)
  }

  /** An observation the machine accepted, with the snapshot it stored for it. */
  datatype Acceptance = Acceptance(seen: Observation, risk: RiskSnapshot)

  ghost function Accepted(run: seq<Observation>): seq<Acceptance> {
    if run == [] then []
    else
      var o, after := run[|run| - 1], Run(run);
      Accepted(run[..|run| - 1]) + if after.error.None? && after.risk.Doc? then [Acceptance(o, after.risk.value)]
        else []
  }

  /** The largest adjusted equity of a nonempty history. */
  ghost function Peak(acc: seq<Acceptance>): real
    requires acc != []
  {
    var last := acc[|acc| - 1].risk.adjusted;
    if |acc| == 1 then last else Max(Peak(acc[..|acc| - 1]), last)
  }

  ghost predicate Seeded(a: Acceptance) {
    && a.risk.Consistent()
    && a.risk.adjusted == a.risk.baselineEquity == a.risk.highWater == a.risk.equity
    && a.risk.baselineFlows == a.risk.flows && a.risk.drawdown == 0.0
    && Describes(a)
  }

  /** The snapshot states its own observation's equity and cash history. */
  ghost predicate Describes(a: Acceptance) {
    && a.seen.cp.snapshot.Doc? && a.risk.equity == LedgerEquity(a.seen)
    && a.seen.cp.report.Doc? && a.seen.cp.report.value.Ready()
    && CashHistory(a.seen.activities).Ok?
    && a.risk.flows == CashHistory(a.seen.activities).value.total
    && a.risk.journals == SortById(CashHistory(a.seen.activities).value.journals)
  }

  ghost function LedgerEquity(o: Observation): real
    requires o.cp.snapshot.Doc?
  {
    LedgerLaws.Equity(o.cp.snapshot.value)
  }

  ghost predicate SameBaseline(r: RiskSnapshot, s: RiskSnapshot) {
    && s.accountId == r.accountId && s.baselineObservedAt == r.baselineObservedAt
    && s.baselineEquity == r.baselineEquity && s.baselineFlows == r.baselineFlows && s.journals == r.journals
  }

  ghost predicate EvidenceGrows(r: RiskSnapshot, s: RiskSnapshot) {
    forall p :: p in r.transfers ==> p in s.transfers
  }

  /** How an accepted snapshot extends the one before it. */
  ghost predicate Extends(r: RiskSnapshot, a: Acceptance) {
    && SameBaseline(r, a.risk) && EvidenceGrows(r, a.risk)
    && a.risk.Consistent() && a.risk.observedAt >= r.observedAt
    && a.risk.highWater == Max(r.highWater, a.risk.adjusted)
    && Describes(a)
  }

  ghost predicate Chain(acc: seq<Acceptance>) {
    && (acc != [] ==> Seeded(acc[0]))
    && (forall i :: 0 < i < |acc| ==> Extends(acc[i - 1].risk, acc[i]))
  }

  lemma {:induction false} LookupIsMember(s: Fingerprints, id: string, e: Evidence)
    requires Lookup(s, id) == Some(e)
    ensures (id, e) in s
  {
    if s[|s| - 1].0 != id {
      LookupIsMember(s[..|s| - 1], id, e);
    }
  }

  lemma SeedStep(o: Observation)
    requires Step(NO_RISK, o).error.None?
    ensures Step(NO_RISK, o).risk.Doc? && Seeded(Acceptance(o, Step(NO_RISK, o).risk.value))
  {
  }

  lemma ExtendStep(s: RiskFields, o: Observation)
    requires s.risk.Doc? && s.invalidation.None? && Step(s, o).error.None?
    ensures Step(s, o).risk.Doc? && Extends(s.risk.value, Acceptance(o, Step(s, o).risk.value))
  {
    var prior, after := s.risk.value, Step(s, o).risk.value;
    forall p | p in prior.transfers ensures p in after.transfers {
      var i :| 0 <= i < |prior.transfers| && prior.transfers[i] == p;
      LookupIsMember(after.transfers, p.0, p.1);
    }
  }

  /** The acceptances form a chain from their seed, and the stored risk is the last one's. */
  ghost predicate StoresLast(s: RiskFields, acc: seq<Acceptance>) {
    && Chain(acc)
    && s.risk == (if acc == [] then Missing else Doc(acc[|acc| - 1].risk))
    && (s.invalidation.Some? ==> acc != [])
  }

  lemma StepStoresLast(s: RiskFields, acc: seq<Acceptance>, o: Observation)
    requires StoresLast(s, acc)
    ensures var t := Step(s, o);
            StoresLast(t, acc + if t.error.None? && t.risk.Doc? then [Acceptance(o, t.risk.value)] else [])
  {
    NoInvalidatingHistory(o.activities);
    if Step(s, o).error.None? {
      if acc == [] {
        FirstStep(s, o);
        SeedStep(o);
      } else {
        ExtendStep(s, o);
      }
    } else {
      RefusalStores(s, o);
      assert acc + [] == acc;
    }
  }

  lemma FirstStep(s: RiskFields, o: Observation)
    requires s.risk.Missing? && s.invalidation.None?
    ensures Step(s, o) == Step(NO_RISK, o)
  {
  }

  lemma RefusalStores(s: RiskFields, o: Observation)
    requires Step(s, o).error.Some?
    ensures Step(s, o).risk == s.risk && (Step(s, o).invalidation.Some? ==> s.invalidation.Some? || s.risk.Doc?)
  {
    NoInvalidatingHistory(o.activities);
  }

  /** The stored state is the last acceptance, and the acceptances form a chain from their seed. */
  lemma {:induction false} RunIsChain(run: seq<Observation>)
    ensures StoresLast(Run(run), Accepted(run))
  {
    if run != [] {
      var init, o := run[..|run| - 1], run[|run| - 1];
      RunIsChain(init);
      StepStoresLast(Run(init), Accepted(init), o);
    }
  }

  lemma {:induction false} ChainLaws(acc: seq<Acceptance>, i: nat, j: nat)
    requires Chain(acc) && i <= j < |acc|
    ensures SameBaseline(acc[i].risk, acc[j].risk) && EvidenceGrows(acc[i].risk, acc[j].risk)
    ensures acc[j].risk.observedAt >= acc[i].risk.observedAt && acc[j].risk.highWater >= acc[i].risk.highWater
    ensures Describes(acc[j]) && acc[j].risk.Consistent()
    decreases j
  {
    if i < j {
      assert Extends(acc[j - 1].risk, acc[j]);
      ChainLaws(acc, i, j - 1);
    } else if i > 0 {
      assert Extends(acc[i - 1].risk, acc[i]);
    }
  }

  lemma {:induction false} ChainPeak(acc: seq<Acceptance>)
    requires Chain(acc) && acc != []
    ensures acc[|acc| - 1].risk.highWater == Peak(acc)
  {
    if |acc| > 1 {
      var init := acc[..|acc| - 1];
      assert Chain(init);
      ChainPeak(init);
      assert Extends(acc[|acc| - 2].risk, acc[|acc| - 1]);
    }
  }

  /**
   Over every run from the empty state: nothing is stored until a first acceptance; from then on the stored
   high-water mark is the largest adjusted equity over all acceptances, the baseline is the first one's, the
   stored adjusted equity is the last one's and the drawdown is measured between the two.
   */
  lemma HighWaterIsPeak(run: seq<Observation>)
    ensures var acc := Accepted(run);
            if acc == [] then Run(run).risk.Missing?
            else
              && Run(run).risk.Doc?
              && var risk, first, last := Run(run).risk.value, acc[0].risk, acc[|acc| - 1].risk;
                 && risk.Consistent() && risk.highWater == Peak(acc)
                 && risk.baselineEquity == first.equity && risk.baselineFlows == first.flows
                 && risk.adjusted == last.adjusted
                 && risk.drawdown == (Peak(acc) - last.adjusted) / Peak(acc)
  {
    RunIsChain(run);
    var acc := Accepted(run);
    if acc != [] {
      ChainPeak(acc);
      ChainLaws(acc, 0, |acc| - 1);
      PeakDrawdown(acc[|acc| - 1].risk);
    }
  }

  lemma PeakDrawdown(r: RiskSnapshot)
    requires r.Consistent()
    ensures r.drawdown == (r.highWater - r.adjusted) / r.highWater
  {
    assert (r.highWater - r.adjusted) / r.highWater >= 0.0;
  }

  /** `after` has `before`'s baseline and evidence, and goes back on neither peak nor time. */
  ghost predicate Grew(before: RiskSnapshot, after: RiskSnapshot) {
    && SameBaseline(before, after) && EvidenceGrows(before, after)
    && after.highWater >= before.highWater && after.observedAt >= before.observedAt
  }

  lemma StepGrows(s: RiskFields, o: Observation)
    requires s.risk.Doc?
    ensures Step(s, o).risk.Doc? && Grew(s.risk.value, Step(s, o).risk.value)
  {
    if s.invalidation.None? && Step(s, o).error.None? {
      ExtendStep(s, o);
    }
  }

  /**
   However a run continues, the baseline of what it stored never changes, accepted transfer evidence is never
   dropped, and the high-water mark and the observation time never go back.
   */
  lemma {:induction false} StoredRiskOnlyGrows(s: RiskFields, more: seq<Observation>)
    requires s.risk.Doc?
    ensures Continue(s, more).risk.Doc? && Grew(s.risk.value, Continue(s, more).risk.value)
  {
    if more != [] {
      StoredRiskOnlyGrows(s, more[..|more| - 1]);
      StepGrows(Continue(s, more[..|more| - 1]), more[|more| - 1]);
    }
  }

  /** A rejected observation leaves the stored risk as it was. */
  lemma RejectionKeepsRisk(run: seq<Observation>, o: Observation)
    requires Run(run + [o]).error.Some?
    ensures Run(run + [o]).risk == Run(run).risk
  {
    assert (run + [o])[..|run|] == run;
  }

  /** Once invalidated, no later input restores, reseeds or changes anything, and every later state refuses. */
  lemma {:induction false} InvalidationIsDurable(s: RiskFields, more: seq<Observation>)
    requires s.invalidation.Some?
    ensures var after := Continue(s, more);
            && after.risk == s.risk && after.invalidation == s.invalidation
            && (more != [] ==> after.error == s.invalidation)
            && forall cp, maxAge, now :: Require(cp, after, maxAge, now).Err?
  {
    if more != [] {
      InvalidationIsDurable(s, more[..|more| - 1]);
    }
  }

  /** The accepted evidence is no longer what the broker reports. */
  ghost predicate Revised(risk: RiskSnapshot, h: History) {
    || SortById(h.journals) != risk.journals
    || exists i ::
         0 <= i < |risk.transfers| && Lookup(SortById(h.transfers), risk.transfers[i].0) != Some(risk.transfers[i].1)
  }

  /** A usable observation of the stored history's own account, not before it. */
  ghost predicate Comparable(risk: RiskSnapshot, o: Observation) {
    && ValidatedCheckpoint(o.cp).Ok? && CashHistory(o.activities).Ok?
    && var snapshot := ValidatedCheckpoint(o.cp).value;
       && o.now.Aware? && snapshot.observedAt.micros <= o.now.micros
       && snapshot.accountId == o.accountId == risk.accountId && risk.observedAt <= snapshot.observedAt.micros
  }

  /** A stored history is invalidated exactly by a comparable observation whose evidence is revised. */
  lemma InvalidatedExactlyByRevision(s: RiskFields, o: Observation)
    requires s.invalidation.None? && s.risk.Doc? && s.risk.value.Consistent()
    ensures Step(s, o).invalidation.Some? <==>
              Comparable(s.risk.value, o) && Revised(s.risk.value, CashHistory(o.activities).value)
  {
    NoInvalidatingHistory(o.activities);
    if ValidatedCheckpoint(o.cp).Ok? && CashHistory(o.activities).Ok? {
      var refusal := PriorRefusal(s.risk.value, ValidatedCheckpoint(o.cp).value, CashHistory(o.activities).value,
                                  o.accountId);
    }
  }

  lemma {:induction false} NoInvalidatingHistory(activities: seq<Activity>)
    ensures CashHistory(activities).Err? ==> !Invalidates(CashHistory(activities).error)
  {
    if activities != [] {
      NoInvalidatingHistory(activities[..|activities| - 1]);
    }
  }
}
