/**
 Deposits and withdrawals after the baseline are exactly neutral: adding any number of them to an accepted
 observation, with the cash they bring, leaves adjusted equity, peak and drawdown unchanged.
 */
module TransferNeutrality {
  import opened Common
  import opened Sums
  import opened Ledger
  import opened LedgerLaws
  import opened AccountRisk
  import opened RiskRuns
  import opened LedgerRisk

  /** A well-formed deposit or withdrawal. */
  predicate ExternalTransfer(a: Activity) {
    && a.kind.Some? && (a.kind.value == "CSD" || a.kind.value == "CSW")
    && a.netAmount.Num? && (a.kind.value == "CSD" ==> a.netAmount.value >= 0.0) && (a.kind.value == "CSW" ==>
         a.netAmount.value <= 0.0)
    && (a.status.None? || a.status.value == "executed") && (a.qty.Absent? || a.qty == Num(0.0))
    && Truthy(a.id)
  }

  function EntryOf(a: Activity): (string, Evidence)
    requires ExternalTransfer(a)
  {
    (a.id.value, EvidenceOf(a, a.netAmount.value))
  }

  function EntriesOf(ts: seq<Activity>): Fingerprints
    requires forall a :: a in ts ==> ExternalTransfer(a)
  {
    if ts == [] then [] else EntriesOf(ts[..|ts| - 1]) + [EntryOf(ts[|ts| - 1])]
  }

  function Extended(h: History, amount: real, more: Fingerprints): History {
    History(h.total + amount, h.transfers + more, h.journals)
  }

  lemma {:induction false} HistoryExtends(activities: seq<Activity>, ts: seq<Activity>)
    requires CashHistory(activities).Ok? && forall a :: a in ts ==> ExternalTransfer(a)
    ensures var h := CashHistory(activities).value;
            CashHistory(activities + ts) == Ok(Extended(h, Sum(ts, FlowOf), EntriesOf(ts)))
  {
    var h := CashHistory(activities).value;
    if ts == [] {
      assert activities + ts == activities && h.transfers + EntriesOf(ts) == h.transfers;
    } else {
      var init, a := ts[..|ts| - 1], ts[|ts| - 1];
      HistoryExtends(activities, init);
      assert (activities + ts)[..|activities + ts| - 1] == activities + init;
      assert ExternalTransfer(a);
      assert h.transfers + EntriesOf(ts) == h.transfers + EntriesOf(init) + [EntryOf(a)];
    }
  }

  lemma ExternalReads(a: Activity)
    requires ExternalTransfer(a)
    ensures Readable(a) && CashOf(a) == FlowOf(a) && forall s :: Moved(a, s) == 0.0
  {
  }

  lemma {:induction false} ExternalTotals(ts: seq<Activity>, s: string)
    requires forall a :: a in ts ==> ExternalTransfer(a)
    ensures Sum(ts, CashOf) == Sum(ts, FlowOf) && Sum(ts, QtyOf(s)) == 0.0
  {
    if ts != [] {
      ExternalTotals(ts[..|ts| - 1], s);
      ExternalReads(ts[|ts| - 1]);
    }
  }

  /** The snapshot with `amount` more cash. */
  function Deposited(snapshot: AccountSnapshot, amount: real): AccountSnapshot {
    snapshot.(cash := snapshot.cash + amount)
  }

  lemma FundedReconciles(activities: seq<Activity>, ts: seq<Activity>, snapshot: AccountSnapshot, tolerance: real)
    requires Reconciles(activities, snapshot, tolerance) && DistinctIds(activities + ts)
    requires forall a :: a in ts ==> ExternalTransfer(a)
    ensures Reconciles(activities + ts, Deposited(snapshot, Sum(ts, FlowOf)), tolerance)
  {
    var all := activities + ts;
    forall a | a in all ensures Readable(a) {
      if a in ts {
        ExternalReads(a);
      }
    }
    SumConcat(activities, ts, CashOf);
    ExternalTotals(ts, "");
    forall s ensures Sum(all, QtyOf(s)) == HeldShares(snapshot, s) {
      SumConcat(activities, ts, QtyOf(s));
      ExternalTotals(ts, s);
    }
  }

  lemma {:induction false} LookupFinds(s: Fingerprints, p: (string, Evidence))
    requires ValidIds(s) && p in s
    ensures Lookup(s, p.0) == Some(p.1)
  {
    var n := |s| - 1;
    if s[n] != p {
      var k :| 0 <= k < |s| && s[k] == p;
      assert LexLess(s[k].0, s[n].0);
      LexTotal(p.0, p.0);
      LookupFinds(s[..n], p);
    }
  }

  /** The observation with the extra transfers and the cash they moved, reported by the ledger. */
  ghost function Funded(o: Observation, ts: seq<Activity>, tolerance: real): Observation
    requires o.cp.snapshot.Doc?
  {
    var snapshot := Deposited(o.cp.snapshot.value, Sum(ts, FlowOf));
    var activities := o.activities + ts;
    o.(activities := activities,
       cp := Checkpoint(o.cp.importError, Doc(Report(activities, snapshot, tolerance)), Doc(snapshot)))
  }

  lemma FundedCheckpoint(o: Observation, ts: seq<Activity>, tolerance: real)
    requires FromLedger(o, tolerance) && ValidatedCheckpoint(o.cp).Ok?
    requires DistinctIds(o.activities + ts) && forall a :: a in ts ==> ExternalTransfer(a)
    ensures ValidatedCheckpoint(Funded(o, ts, tolerance).cp) == Ok(Funded(o, ts, tolerance).cp.snapshot.value)
  {
    var snapshot := o.cp.snapshot.value;
    ReadyIffReconciles(o.activities, snapshot, tolerance);
    FundedReconciles(o.activities, ts, snapshot, tolerance);
    ReadyIffReconciles(o.activities + ts, Deposited(snapshot, Sum(ts, FlowOf)), tolerance);
  }

  /** Evidence found before is still found among more transfers. */
  lemma FundedEvidence(h: History, more: Fingerprints, p: (string, Evidence))
    requires Lookup(SortById(h.transfers), p.0) == Some(p.1) && PlainIds(h.transfers + more)
    ensures Lookup(SortById(h.transfers + more), p.0) == Some(p.1)
  {
    LookupIsMember(SortById(h.transfers), p.0, p.1);
    SortKeeps(h.transfers);
    SortKeeps(h.transfers + more);
    SortValid(h.transfers + more);
    assert p in multiset(h.transfers);
    assert p in h.transfers + more;
    assert p in multiset(h.transfers + more);
    LookupFinds(SortById(h.transfers + more), p);
  }

  lemma FundedPriorAccepts(prior: RiskSnapshot, snapshot: AccountSnapshot, amount: real, h: History, h': History,
                           more: Fingerprints, accountId: string)
    requires PriorRefusal(prior, snapshot, h, accountId).None?
    requires h'.transfers == h.transfers + more && h'.journals == h.journals && PlainIds(h'.transfers)
    ensures PriorRefusal(prior, Deposited(snapshot, amount), h', accountId).None?
  {
    forall i | 0 <= i < |prior.transfers| ensures Lookup(SortById(h'.transfers), prior.transfers[i].0) ==
      Some(prior.transfers[i].1) {
      FundedEvidence(h, more, prior.transfers[i]);
    }
  }

  /** Acceptance of `o` on a stored prior, from its parts. */
  ghost predicate Usable(s: RiskFields, o: Observation, h: History) {
    && s.invalidation.None? && s.risk.Doc? && s.risk.value.Consistent()
    && o.cp.snapshot.Doc? && ValidatedCheckpoint(o.cp) == Ok(o.cp.snapshot.value) && CashHistory(o.activities) == Ok(h)
    && var snapshot := o.cp.snapshot.value;
       && o.now.Aware? && snapshot.observedAt.micros <= o.now.micros && snapshot.accountId == o.accountId
       && PriorRefusal(s.risk.value, snapshot, h, o.accountId).None?
  }

  lemma AcceptedIsUsable(s: RiskFields, o: Observation)
    requires s.invalidation.None? && s.risk.Doc? && Step(s, o).error.None?
    ensures CashHistory(o.activities).Ok? && Usable(s, o, CashHistory(o.activities).value)
  {
  }

  lemma UsableStep(s: RiskFields, o: Observation, h: History)
    requires Usable(s, o, h) && Derive(s.risk, o.cp, o.activities, o.accountId, o.now) != Err(EvidenceInvalid)
    ensures Step(s, o) ==
            RiskFields(Doc(Next(s.risk.value, o.cp.snapshot.value, Equity(o.cp.snapshot.value), h)), None, None)
  {
  }

  /** Both are accepted, and they differ by `amount` in equity and in flows alone. */
  ghost predicate Neutral(before: RiskFields, after: RiskFields, amount: real) {
    && before.error.None? && before.risk.Doc? && after.error.None? && after.risk.Doc?
    && var r, f := before.risk.value, after.risk.value;
       && f.equity == r.equity + amount && f.flows == r.flows + amount
       && f.adjusted == r.adjusted && f.highWater == r.highWater && f.drawdown == r.drawdown
       && f.baselineEquity == r.baselineEquity && f.baselineFlows == r.baselineFlows && f.journals == r.journals
  }

  lemma NextIsNeutral(prior: RiskSnapshot, snapshot: AccountSnapshot, h: History, h': History, amount: real)
    requires prior.highWater > 0.0 && h'.total == h.total + amount
    ensures var funded := Deposited(snapshot, amount);
            var r, f := Next(prior, snapshot, Equity(snapshot), h), Next(prior, funded, Equity(funded), h');
            Neutral(RiskFields(Doc(r), None, None), RiskFields(Doc(f), None, None), amount)
  {
  }

  /** `o'` is `o` with `amount` more cash and the transfers that brought it, as usable as `o`. */
  ghost predicate SameButFunded(o: Observation, o': Observation, h: History, amount: real, more: Fingerprints) {
    && o'.accountId == o.accountId && o'.now == o.now && o.cp.snapshot.Doc?
    && o'.cp.snapshot == Doc(Deposited(o.cp.snapshot.value, amount))
    && ValidatedCheckpoint(o'.cp) == Ok(o'.cp.snapshot.value)
    && CashHistory(o'.activities) == Ok(Extended(h, amount, more))
    && PlainIds(h.transfers + more)
  }

  lemma FundedStepIsNeutral(s: RiskFields, o: Observation, o': Observation, h: History, amount: real,
                            more: Fingerprints)
    requires Usable(s, o, h) && Step(s, o).error.None? && SameButFunded(o, o', h, amount, more)
    requires Derive(s.risk, o'.cp, o'.activities, o'.accountId, o'.now) != Err(EvidenceInvalid)
    ensures Neutral(Step(s, o), Step(s, o'), amount)
  {
    var h' := CashHistory(o'.activities).value;
    FundedPriorAccepts(s.risk.value, o.cp.snapshot.value, amount, h, h', more, o.accountId);
    assert Usable(s, o', h');
    UsableStep(s, o', h');
    assert Derive(s.risk, o.cp, o.activities, o.accountId, o.now) != Err(EvidenceInvalid);
    UsableStep(s, o, h);
    NextIsNeutral(s.risk.value, o.cp.snapshot.value, h, h', amount);
  }

  /** Any number of deposits and withdrawals leaves adjusted equity, peak and drawdown exactly as they were. */
  lemma TransfersAreNeutral(s: RiskFields, o: Observation, ts: seq<Activity>, tolerance: real)
    requires s.invalidation.None? && s.risk.Doc? && forall a :: a in ts ==> ExternalTransfer(a)
    requires DistinctIds(o.activities + ts) && forall a :: a in o.activities ==> a.id != Some("")
    ensures FromLedger(o, tolerance) && Step(s, o).error.None? ==>
              Neutral(Step(s, o), Step(s, Funded(o, ts, tolerance)), Sum(ts, FlowOf))
  {
    if FromLedger(o, tolerance) && Step(s, o).error.None? {
      AcceptedIsUsable(s, o);
      FundedObservation(o, ts, tolerance);
      FundedIsNotInvalid(s.risk, o, ts, tolerance);
      FundedStepIsNeutral(s, o, Funded(o, ts, tolerance), CashHistory(o.activities).value, Sum(ts, FlowOf),
                          EntriesOf(ts));
    }
  }

  lemma NoEmptyIds(activities: seq<Activity>, ts: seq<Activity>)
    requires forall a :: a in activities ==> a.id != Some("")
    requires forall a :: a in ts ==> ExternalTransfer(a)
    ensures forall a :: a in activities + ts ==> a.id != Some("")
  {
    forall a | a in activities + ts ensures a.id != Some("") {
      assert a in ts ==> ExternalTransfer(a);
    }
  }

  lemma FundedObservation(o: Observation, ts: seq<Activity>, tolerance: real)
    requires FromLedger(o, tolerance) && ValidatedCheckpoint(o.cp).Ok? && CashHistory(o.activities).Ok?
    requires forall a :: a in ts ==> ExternalTransfer(a)
    requires DistinctIds(o.activities + ts) && forall a :: a in o.activities ==> a.id != Some("")
    ensures SameButFunded(o, Funded(o, ts, tolerance), CashHistory(o.activities).value, Sum(ts, FlowOf), EntriesOf(ts))
  {
    FundedHistory(o.activities, ts);
    FundedCheckpoint(o, ts, tolerance);
  }

  lemma FundedHistory(activities: seq<Activity>, ts: seq<Activity>)
    requires CashHistory(activities).Ok? && forall a :: a in ts ==> ExternalTransfer(a)
    requires DistinctIds(activities + ts) && forall a :: a in activities ==> a.id != Some("")
    ensures var h := CashHistory(activities).value;
            && CashHistory(activities + ts) == Ok(Extended(h, Sum(ts, FlowOf), EntriesOf(ts)))
            && PlainIds(h.transfers + EntriesOf(ts))
  {
    HistoryExtends(activities, ts);
    NoEmptyIds(activities, ts);
    HistorySourced(activities + ts);
  }

  lemma FundedIsNotInvalid(stored: Doc<RiskSnapshot>, o: Observation, ts: seq<Activity>, tolerance: real)
    requires o.cp.snapshot.Doc? && stored.Doc? && stored.value.Consistent()
    requires forall a :: a in ts ==> ExternalTransfer(a)
    requires DistinctIds(o.activities + ts) && forall a :: a in o.activities ==> a.id != Some("")
    ensures var f := Funded(o, ts, tolerance); Derive(stored, f.cp, f.activities, f.accountId,
                                                      f.now) != Err(EvidenceInvalid)
  {
    NoEmptyIds(o.activities, ts);
    DistinctIdsNeverInvalid(stored, Funded(o, ts, tolerance).cp, o.activities + ts, o.accountId, o.now);
  }
}
